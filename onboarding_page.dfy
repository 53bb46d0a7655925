/**
 * `OnboardingPage`: the two-step form (social handles, then a short video),
 * the recording handlers, the redirect effect, and `uploadToSupabase`, the
 * submission pipeline extract frame -> upload -> public URL -> profile update.
 *
 * Device and remote operations are inputs: the camera grant, the frame the
 * canvas decodes, the storage and database answers, the public URL the
 * storage client derives from a file name, and `Date.now()`.
 */
module OnboardingPage {
  import opened Common
  import Decimal

  datatype Platform = XUsername | InstagramUsername | LinkedinUrl

  /** The `socialMedia` state record. */
  datatype SocialMedia = SocialMedia(xUsername: string, instagramUsername: string, linkedinUrl: string)
  {
    function Get(p: Platform): (v: string)
    {
      match p
      case XUsername => xUsername
      case InstagramUsername => instagramUsername
      case LinkedinUrl => linkedinUrl
    }

    /** `{ ...prev, [platform]: value }` */
    function With(p: Platform, v: string): (r: SocialMedia)
      ensures r.Get(p) == v
      ensures forall q :: q != p ==> r.Get(q) == Get(q)
    {
      match p
      case XUsername => this.(xUsername := v)
      case InstagramUsername => this.(instagramUsername := v)
      case LinkedinUrl => this.(linkedinUrl := v)
    }
  }

  const EmptySocial := SocialMedia("", "", "")

  /** The recorded video, the extracted JPEG frame: opaque media values. */
  datatype VideoBlob = VideoBlob(id: nat)
  datatype ImageBlob = ImageBlob(id: nat)

  /** A camera stream (whether its tracks still run) and the recorder on it. */
  datatype Stream = Stream(id: nat, live: bool)
  datatype Recorder = Recorder(streamId: nat, recording: bool)

  /** The answer of `getUserMedia`: a stream, or an exception. */
  datatype CameraAccess = Granted(streamId: nat) | Refused(reason: string)

  /** The answer of an awaited storage or database call. */
  datatype RemoteAnswer = Succeeded | ReturnedError(message: string) | Threw(message: string)

  /** The object written to the `users` row. */
  datatype ProfileFields = ProfileFields(
    xUsername: string, instagramUsername: string, linkedinUrl: string, faceImageUrl: string)

  /** The remote and device steps of a submission, in the order issued. */
  datatype Step =
    | Extract
    | Upload(fileName: string, image: ImageBlob)
    | GetPublicUrl(fileName: string)
    | UpdateProfile(uidColumnValue: string, fields: ProfileFields)

  /** What one submission produced after the guard passed. */
  datatype Submission = Submission(
    steps: seq<Step>, toast: Toast, redirect: Option<string>, publicUrl: Option<string>)

  const MissingInfoToast := Toast("Missing information", "Please complete all required fields", true)
  const CameraDeniedToast :=
    Toast("Camera access denied", "Please allow camera access to continue with verification.", true)
  const SuccessToast :=
    Toast("Profile complete!", "Your verification process is complete. Redirecting to dashboard...", false)
  const ExtractFailure := "Could not extract image from video"

  function SaveErrorToast(message: string): (t: Toast)
    ensures t.title == "Error saving profile" && t.destructive
    ensures t.description == OrElse(message, "Something went wrong. Please try again.")
  {
    Toast("Error saving profile", OrElse(message, "Something went wrong. Please try again."), true)
  }

  /** The storage key `face_<userId>_<timestamp>.jpg`. */
  function FileName(uid: string, now: nat): (name: string)
    ensures name == "face_" + uid + "_" + Decimal.NatToString(now) + ".jpg"
    ensures Decimal.AllDigits(name[6 + |uid|..|name| - 4])
  {
    var ts := Decimal.NatToString(now);
    var name := "face_" + uid + "_" + ts + ".jpg";
    assert name[6 + |uid|..|name| - 4] == ts;
    name
  }

  /** Two submissions by one user at different times use different keys. */
  lemma FileNamesDistinct(uid: string, t1: nat, t2: nat)
    requires t1 != t2
    ensures FileName(uid, t1) != FileName(uid, t2)
  {
    var n1, n2 := FileName(uid, t1), FileName(uid, t2);
    if n1 == n2 {
      var s1, s2 := Decimal.NatToString(t1), Decimal.NatToString(t2);
      assert |s1| == |s2|;
      assert s1 == n1[6 + |uid|..|n1| - 4];
      assert s2 == n2[6 + |uid|..|n2| - 4];
      Decimal.NatToStringInjective(t1, t2);
    }
  }

  /** The row update: the three handles and the uploaded file's public URL. */
  function FieldsFor(social: SocialMedia, url: string): (f: ProfileFields)
    ensures f.xUsername == social.Get(XUsername)
    ensures f.instagramUsername == social.Get(InstagramUsername)
    ensures f.linkedinUrl == social.Get(LinkedinUrl)
    ensures f.faceImageUrl == url
  {
    ProfileFields(social.xUsername, social.instagramUsername, social.linkedinUrl, url)
  }

  /** Every step of a submission that succeeds throughout, for the extracted frame `image`. */
  function AllSteps(uid: string, social: SocialMedia, image: ImageBlob, publicUrlOf: string -> string, now: nat)
    : (steps: seq<Step>)
  {
    var name := FileName(uid, now);
    [Extract, Upload(name, image), GetPublicUrl(name), UpdateProfile(uid, FieldsFor(social, publicUrlOf(name)))]
  }

  /**
   * The pipeline after the guard, for the frame extraction's result
   * `extracted`: each step runs only once the previous one has succeeded,
   * and the first failure ends the attempt with an error toast.
   */
  function Pipeline(
    uid: string, social: SocialMedia, extracted: Option<ImageBlob>,
    upload: RemoteAnswer, publicUrlOf: string -> string, update: RemoteAnswer, now: nat): (r: Submission)
    // steps run in the fixed order and stop at the first failure
    ensures 1 <= |r.steps| && r.steps[0] == Extract
    ensures extracted.Some? ==> r.steps <= AllSteps(uid, social, extracted.value, publicUrlOf, now)
    ensures |r.steps| >= 2 <==> extracted.Some?
    ensures |r.steps| == 4 <==> extracted.Some? && upload.Succeeded?
    ensures |r.steps| == 2 <==> extracted.Some? && !upload.Succeeded?
    // a failed extraction or upload never reaches the profile update
    ensures extracted.None? ==> r.toast == SaveErrorToast(ExtractFailure)
    ensures extracted.Some? && upload.ReturnedError? ==>
      r.toast == SaveErrorToast("Error uploading image: " + upload.message)
    ensures extracted.Some? && upload.Threw? ==> r.toast == SaveErrorToast(upload.message)
    ensures |r.steps| == 4 && update.ReturnedError? ==>
      r.toast == SaveErrorToast("Error updating user profile: " + update.message)
    ensures |r.steps| == 4 && update.Threw? ==> r.toast == SaveErrorToast(update.message)
    // the dashboard is scheduled only after all four steps succeed
    ensures r.redirect.Some? <==> extracted.Some? && upload.Succeeded? && update.Succeeded?
    ensures r.redirect.Some? ==> r.redirect == Some("/dashboard") && r.toast == SuccessToast
    ensures r.redirect.None? ==> r.toast.destructive
    // the public URL is known once a file has been uploaded
    ensures r.publicUrl.Some? <==> |r.steps| >= 3
    ensures r.publicUrl.Some? ==> r.publicUrl.value == publicUrlOf(FileName(uid, now))
  {
    var name := FileName(uid, now);
    if extracted.None? then
      Submission([Extract], SaveErrorToast(ExtractFailure), None, None)
    else
      match upload
      case ReturnedError(m) =>
        Submission([Extract, Upload(name, extracted.value)], SaveErrorToast("Error uploading image: " + m), None, None)
      case Threw(m) =>
        Submission([Extract, Upload(name, extracted.value)], SaveErrorToast(m), None, None)
      case Succeeded =>
        var all := AllSteps(uid, social, extracted.value, publicUrlOf, now);
        var url := Some(publicUrlOf(name));
        match update
        case ReturnedError(m) =>
          Submission(all, SaveErrorToast("Error updating user profile: " + m), None, url)
        case Threw(m) =>
          Submission(all, SaveErrorToast(m), None, url)
        case Succeeded =>
          Submission(all, SuccessToast, Some("/dashboard"), url)
  }

  /**
   * `extractFrameFromVideo` as written: it gives up unless the page's
   * `<video>` element is mounted and a recording exists; otherwise it
   * yields what the canvas decodes (`decoded`).
   */
  function ExtractFrameAsWritten(videoElementMounted: bool, videoBlob: Option<VideoBlob>, decoded: Option<ImageBlob>)
    : (r: Option<ImageBlob>)
    ensures r.Some? <==> videoElementMounted && videoBlob.Some? && decoded.Some?
    ensures r.Some? ==> r == decoded
  {
    if !videoElementMounted || videoBlob.None? then None else decoded
  }

  /**
   * Frame extraction as intended: the frame is decoded from the recorded
   * blob through a video element of its own, so only the blob is needed.
   */
  function ExtractFrame(videoBlob: Option<VideoBlob>, decoded: Option<ImageBlob>): (r: Option<ImageBlob>)
    ensures r.Some? <==> videoBlob.Some? && decoded.Some?
    ensures r.Some? ==> r == decoded
  {
    if videoBlob.None? then None else decoded
  }

  /**
   * Whether the page's `<video>` element (the target of `videoRef`) is on
   * screen: only in step 2, while no recording exists, and not while the
   * auth context is loading (then only a spinner is shown).
   */
  function VideoElementMounted(authLoading: bool, currentStep: int, videoBlob: Option<VideoBlob>): (m: bool)
    ensures m ==> videoBlob.None? && currentStep == 2
  {
    !authLoading && currentStep == 2 && videoBlob.None?
  }

  /**
   * The code as written: whenever the guard lets a submission through (a
   * recording exists), the video element is unmounted, so extraction gives
   * up and no submission ever uploads a file or updates the profile.
   */
  lemma AsWrittenSubmissionAlwaysFails(
    authLoading: bool, currentStep: int, blob: VideoBlob, decoded: Option<ImageBlob>,
    uid: string, social: SocialMedia, upload: RemoteAnswer, publicUrlOf: string -> string,
    update: RemoteAnswer, now: nat)
    ensures var extracted :=
      ExtractFrameAsWritten(VideoElementMounted(authLoading, currentStep, Some(blob)), Some(blob), decoded);
      var r := Pipeline(uid, social, extracted, upload, publicUrlOf, update, now);
      r.steps == [Extract] && r.redirect.None? && r.toast == SaveErrorToast(ExtractFailure)
  {
  }

  /**
   * With intended extraction, a recorded video whose frame decodes, and
   * remote calls that all succeed, the profile is updated with the handles
   * and the public URL of the uploaded file and the dashboard is scheduled.
   */
  lemma IntendedSubmissionCompletes(
    blob: VideoBlob, frame: ImageBlob, uid: string, social: SocialMedia,
    publicUrlOf: string -> string, now: nat)
    ensures var r := Pipeline(uid, social, ExtractFrame(Some(blob), Some(frame)), Succeeded, publicUrlOf, Succeeded, now);
      && r.redirect == Some("/dashboard")
      && r.steps[3] == UpdateProfile(uid, FieldsFor(social, publicUrlOf(FileName(uid, now))))
  {
  }

  /** A `navigate(path, { replace })` call. */
  datatype Navigation = Navigation(path: string, replace: bool)

  /**
   * The redirect effect: once the auth context has loaded without a user,
   * go to `/login`, replacing the current history entry.
   */
  function RedirectWhenSignedOut(authLoading: bool, user: Option<User>): (nav: Option<Navigation>)
    ensures nav.Some? <==> !authLoading && user.None?
    ensures nav.Some? ==> nav.value.path == "/login" && nav.value.replace
  {
    if !authLoading && user.None? then Some(Navigation("/login", true)) else None
  }

  /** The page's state cells and refs. */
  class Page {
    var currentStep: int
    var social: SocialMedia
    var isRecording: bool
    var videoBlob: Option<VideoBlob>
    var isSubmitting: bool
    var imageUrl: Option<string>
    var stream: Option<Stream>
    var recorder: Option<Recorder>

    /** Recording implies a running recorder; a recorder sits on the stored stream. */
    predicate Valid()
      reads this
    {
      && currentStep >= 1
      && (isRecording ==> recorder.Some? && recorder.value.recording)
      && (recorder.Some? ==> stream.Some? && recorder.value.streamId == stream.value.id)
    }

    constructor ()
      ensures Valid()
      ensures currentStep == 1 && social == EmptySocial
      ensures !isRecording && videoBlob.None? && !isSubmitting && imageUrl.None?
      ensures stream.None? && recorder.None?
    {
      currentStep := 1;
      social := EmptySocial;
      isRecording := false;
      videoBlob := None;
      isSubmitting := false;
      imageUrl := None;
      stream := None;
      recorder := None;
    }

    /** `handleSocialMediaChange`: only the named field changes. */
    method ChangeSocial(p: Platform, v: string)
      requires Valid()
      modifies this
      ensures Valid()
      ensures social == old(social).With(p, v)
      ensures currentStep == old(currentStep) && isRecording == old(isRecording)
      ensures videoBlob == old(videoBlob) && isSubmitting == old(isSubmitting) && imageUrl == old(imageUrl)
      ensures stream == old(stream) && recorder == old(recorder)
    {
      social := social.With(p, v);
    }

    /** `handleNextStep`: the step counter advances by one. */
    method NextStep()
      requires Valid()
      modifies this
      ensures Valid()
      ensures currentStep == old(currentStep) + 1
      ensures social == old(social) && isRecording == old(isRecording)
      ensures videoBlob == old(videoBlob) && isSubmitting == old(isSubmitting) && imageUrl == old(imageUrl)
      ensures stream == old(stream) && recorder == old(recorder)
    {
      currentStep := currentStep + 1;
    }

    /**
     * `startVideoRecording`: on a granted stream, store it, start a recorder
     * on it and set `isRecording`; on refusal only a toast is raised.
     */
    method StartRecording(access: CameraAccess) returns (toast: Option<Toast>)
      requires Valid()
      modifies this
      ensures Valid()
      ensures access.Granted? ==>
        && toast.None? && isRecording
        && stream == Some(Stream(access.streamId, true))
        && recorder == Some(Recorder(access.streamId, true))
      ensures access.Refused? ==>
        && toast == Some(CameraDeniedToast)
        && isRecording == old(isRecording) && stream == old(stream) && recorder == old(recorder)
      ensures currentStep == old(currentStep) && social == old(social)
      ensures videoBlob == old(videoBlob) && isSubmitting == old(isSubmitting) && imageUrl == old(imageUrl)
    {
      match access {
        case Granted(id) =>
          stream := Some(Stream(id, true));
          recorder := Some(Recorder(id, true));
          isRecording := true;
          toast := None;
        case Refused(_) =>
          toast := Some(CameraDeniedToast);
      }
    }

    /**
     * `stopVideoRecording`: stop the recorder and clear `isRecording` only if
     * a recorder exists; stop the stream's tracks if a stream exists. Since
     * recording implies a recorder, recording has stopped afterwards.
     */
    method StopRecording()
      requires Valid()
      modifies this
      ensures Valid()
      ensures !isRecording
      ensures old(recorder).Some? ==> recorder == Some(old(recorder).value.(recording := false))
      ensures old(recorder).None? ==> recorder.None?
      ensures stream == if old(stream).Some? then Some(old(stream).value.(live := false)) else None
      ensures currentStep == old(currentStep) && social == old(social)
      ensures videoBlob == old(videoBlob) && isSubmitting == old(isSubmitting) && imageUrl == old(imageUrl)
    {
      if recorder.Some? {
        recorder := Some(recorder.value.(recording := false));
        isRecording := false;
      }
      if stream.Some? {
        stream := Some(stream.value.(live := false));
      }
    }

    /** The recorder's `onstop` callback: the recorded video becomes available. */
    method RecordingFinished(blob: VideoBlob)
      requires Valid()
      modifies this
      ensures Valid()
      ensures videoBlob == Some(blob)
      ensures currentStep == old(currentStep) && social == old(social) && isRecording == old(isRecording)
      ensures isSubmitting == old(isSubmitting) && imageUrl == old(imageUrl)
      ensures stream == old(stream) && recorder == old(recorder)
    {
      videoBlob := Some(blob);
    }

    /**
     * The `try`, `catch` and `finally` blocks of `uploadToSupabase` for the
     * extraction's result: `isSubmitting` is set, the steps are issued in
     * turn until the first failure, the public URL is stored once known, the
     * toast and redirect follow, and `isSubmitting` is cleared.
     */
    method Save(
      uid: string, extracted: Option<ImageBlob>, upload: RemoteAnswer,
      publicUrlOf: string -> string, update: RemoteAnswer, now: nat)
      returns (steps: seq<Step>, toast: Toast, redirect: Option<string>)
      modifies this
      ensures var r := Pipeline(uid, old(social), extracted, upload, publicUrlOf, update, now);
        && steps == r.steps && toast == r.toast && redirect == r.redirect
        && !isSubmitting
        && imageUrl == (if r.publicUrl.Some? then r.publicUrl else old(imageUrl))
      ensures currentStep == old(currentStep) && social == old(social) && isRecording == old(isRecording)
      ensures videoBlob == old(videoBlob) && stream == old(stream) && recorder == old(recorder)
    {
      isSubmitting := true;
      ghost var r := Pipeline(uid, social, extracted, upload, publicUrlOf, update, now);
      var handles := social;
      var failure: Option<string> := None;
      var url: Option<string> := None;
      steps, redirect := [Extract], None;
      if extracted.None? {
        failure := Some(ExtractFailure);
      } else {
        var name := FileName(uid, now);
        steps := steps + [Upload(name, extracted.value)];
        match upload {
          case ReturnedError(m) => failure := Some("Error uploading image: " + m);
          case Threw(m) => failure := Some(m);
          case Succeeded =>
            url := Some(publicUrlOf(name));
            steps := steps + [GetPublicUrl(name), UpdateProfile(uid, FieldsFor(handles, url.value))];
            match update {
              case ReturnedError(m) => failure := Some("Error updating user profile: " + m);
              case Threw(m) => failure := Some(m);
              case Succeeded =>
            }
        }
      }
      assert if failure.Some? then r.toast == SaveErrorToast(failure.value) && r.redirect.None?
             else r.toast == SuccessToast && r.redirect == Some("/dashboard");
      if failure.Some? {
        toast := SaveErrorToast(failure.value);
      } else {
        toast := SuccessToast;
        redirect := Some("/dashboard");
      }
      assert steps == r.steps && toast == r.toast && redirect == r.redirect && url == r.publicUrl;
      if url.Some? {
        imageUrl := url;
      }
      // finally
      isSubmitting := false;
    }

    /**
     * `uploadToSupabase` as written. Without a user or a recording only a
     * warning is raised and nothing else happens. Otherwise the frame is
     * extracted through the page's `<video>` element, which is unmounted
     * once a recording exists, so the attempt always stops at extraction.
     * The form is only rendered once the auth context has loaded.
     */
    method Submit(
      user: Option<User>, decoded: Option<ImageBlob>, upload: RemoteAnswer,
      publicUrlOf: string -> string, update: RemoteAnswer, now: nat)
      returns (steps: seq<Step>, toast: Toast, redirect: Option<string>)
      requires Valid()
      modifies this
      ensures Valid()
      ensures user.None? || old(videoBlob).None? ==>
        && steps == [] && toast == MissingInfoToast && redirect.None?
        && isSubmitting == old(isSubmitting) && imageUrl == old(imageUrl)
      ensures user.Some? && old(videoBlob).Some? ==>
        var extracted := ExtractFrameAsWritten(
          VideoElementMounted(false, old(currentStep), old(videoBlob)), old(videoBlob), decoded);
        var r := Pipeline(user.value.id, old(social), extracted, upload, publicUrlOf, update, now);
        steps == r.steps && toast == r.toast && redirect == r.redirect && !isSubmitting
      // whatever the remote answers, no upload and no profile update happen
      ensures user.Some? && old(videoBlob).Some? ==>
        && steps == [Extract] && toast == SaveErrorToast(ExtractFailure) && redirect.None?
        && imageUrl == old(imageUrl)
      ensures currentStep == old(currentStep) && social == old(social) && isRecording == old(isRecording)
      ensures videoBlob == old(videoBlob) && stream == old(stream) && recorder == old(recorder)
    {
      steps, redirect := [], None;
      if user.None? || videoBlob.None? {
        toast := MissingInfoToast;
        return;
      }
      var extracted := ExtractFrameAsWritten(VideoElementMounted(false, currentStep, videoBlob), videoBlob, decoded);
      AsWrittenSubmissionAlwaysFails(false, currentStep, videoBlob.value, decoded,
                                     user.value.id, social, upload, publicUrlOf, update, now);
      steps, toast, redirect := Save(user.value.id, extracted, upload, publicUrlOf, update, now);
    }

    /**
     * `uploadToSupabase` with the intended extraction, which decodes the
     * frame from the recorded blob alone: the steps run in order until the
     * first failure, as the pipeline says.
     */
    method SubmitIntended(
      user: Option<User>, decoded: Option<ImageBlob>, upload: RemoteAnswer,
      publicUrlOf: string -> string, update: RemoteAnswer, now: nat)
      returns (steps: seq<Step>, toast: Toast, redirect: Option<string>)
      requires Valid()
      modifies this
      ensures Valid()
      ensures user.None? || old(videoBlob).None? ==>
        && steps == [] && toast == MissingInfoToast && redirect.None?
        && isSubmitting == old(isSubmitting) && imageUrl == old(imageUrl)
      ensures user.Some? && old(videoBlob).Some? ==>
        var r := Pipeline(user.value.id, old(social), ExtractFrame(old(videoBlob), decoded),
                          upload, publicUrlOf, update, now);
        && steps == r.steps && toast == r.toast && redirect == r.redirect
        && !isSubmitting
        && imageUrl == (if r.publicUrl.Some? then r.publicUrl else old(imageUrl))
      ensures currentStep == old(currentStep) && social == old(social) && isRecording == old(isRecording)
      ensures videoBlob == old(videoBlob) && stream == old(stream) && recorder == old(recorder)
    {
      steps, redirect := [], None;
      if user.None? || videoBlob.None? {
        toast := MissingInfoToast;
        return;
      }
      steps, toast, redirect := Save(user.value.id, ExtractFrame(videoBlob, decoded),
                                     upload, publicUrlOf, update, now);
    }
  }
}
