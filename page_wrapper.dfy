/**
 * `PageWrapper`: loading takes precedence over an error, an error over the
 * children.
 */
module PageWrapper {
  import opened Common

  datatype View =
    | Spinner(containerClass: string)
    | ErrorView(title: string, message: string)
    | Children

  const ErrorTitle := "Something went wrong"
  const ErrorFallback := "An unexpected error occurred. Please try again later."

  /** The spinner container's classes for the optional `fullHeight` prop (default true). */
  function SpinnerClass(fullHeight: Option<bool>): (cls: string)
    ensures fullHeight != Some(false) ==> cls == "flex items-center justify-center min-h-[50vh]"
    ensures fullHeight == Some(false) ==> cls == "flex items-center justify-center py-8"
  {
    var full := if fullHeight.Some? then fullHeight.value else true;
    "flex items-center justify-center " + (if full then "min-h-[50vh]" else "py-8")
  }

  /**
   * The render decision. An absent `isLoading` prop is falsy, so it is
   * modelled as false; `error` is the optional error's message.
   */
  function Render(isLoading: bool, error: Option<string>, fullHeight: Option<bool>): (v: View)
    ensures v.Spinner? <==> isLoading
    ensures v.Spinner? ==> v.containerClass == SpinnerClass(fullHeight)
    ensures v.ErrorView? <==> !isLoading && error.Some?
    ensures v.ErrorView? ==> v.title == ErrorTitle && v.message == OrElse(error.value, ErrorFallback)
    ensures v.Children? <==> !isLoading && error.None?
  {
    if isLoading then Spinner(SpinnerClass(fullHeight))
    else if error.Some? then ErrorView(ErrorTitle, OrElse(error.value, ErrorFallback))
    else Children
  }
}
