# trust-override-pilot: a verified model of the decision logic

trust-override-pilot is a React front end for a fraud-override dashboard. It
has a sign-in check, a route guard, an onboarding form that records a short
video and stores a face image, and a dashboard over a list of transactions.
This project models in Dafny the parts of it that decide something, and
proves what each part promises:

- **Access and routing.** `UseAuth` covers the `useAuth` hook: the session
  and profile check, and sign-out. `ProtectedRoute` covers the route guard.
  `SupabaseContext` is the session store. `PageWrapper` covers its loading,
  error and children precedence.
- **Onboarding.** `OnboardingPage` models the form's state cells and the
  recording handlers. It also models `uploadToSupabase`: a guard, four
  ordered steps that stop at the first failure, and a `finally` reset.
- **Dashboard.** `Transactions` is the transaction record with the
  order-preserving filter. `DashboardStatistics` gives the four figures, with
  `Math.round` done in integers. `IndexPage` computes those figures over the
  shipped mock data. `OverridesSummary` is the override list.
  `RiskScoreBadge` is the score banding.
- **Code samples.** `CodeBlock` is the header and trimming transform applied
  to code samples.

Remote and device calls are not modelled; their results are inputs. These
include `getSession`, the profile query, sign-out, camera access, frame
decoding, storage upload, `getPublicUrl`, the profile update and
`Date.now()`. Each is an answer value: a result, an error, or a rejection.
State the source keeps in React cells becomes a `class`: `AuthHook`, `Guard`,
`Provider` and `Page`. Handlers that change cells are methods with
`modifies this`; `AuthHook.SignOut` changes none and has no `modifies` clause. Pure
derivations are functions with named results, and lemmas connect them.
`Common` holds the shared answer types and the `a || b` fallback for
messages. `Decimal` holds the decimal rendering of numbers.

## Model

| member | source | states |
|---|---|---|
| Common.OrElse | src/hooks/useAuth.tsx:97 | `message || fallback` on a string: the message when it is non-empty, the fallback when it is empty |
| Decimal.NatToString | src/pages/OnboardingPage.tsx:137 | a natural number prints as at least one decimal digit with no leading zero, as `${Date.now()}` prints the timestamp |
| Decimal.ParseOfPrint | src/pages/OnboardingPage.tsx:137 | reading the printed digits back gives the number |
| Decimal.NatToStringInjective | src/pages/OnboardingPage.tsx:137 | different numbers print differently |
| Decimal.IntToString | src/components/RiskScoreBadge.tsx:41 | an integer prints as its decimal digits, with a leading minus sign when negative; see Decimal.NatToString's no-leading-zero clause and Decimal.ParseOfPrint for the round trip |
| UseAuth.ProfileQueryKey | src/hooks/useAuth.tsx:30-51 | the profile query is made, for the session user's id, exactly when getSession resolves with no error and a session |
| UseAuth.Resolve | src/hooks/useAuth.tsx:28-83 | one run ends in exactly one of four outcomes. A rejection gives "Auth error: ", a returned session error gives "Session error: " and no query. No session goes to login. Code PGRST116 goes to onboarding; any other query error gives "Profile error: ", a rejected query "Profile fetch error: ". A profile is loaded iff there is a session, a row and a non-empty face image; otherwise the row goes to onboarding, whatever its social fields hold |
| UseAuth.NavigationOf | src/hooks/useAuth.tsx:39-69 | the path is /login exactly for the no-session outcome and /onboarding exactly for the onboarding outcome; errors and loaded profiles do not navigate |
| UseAuth.OutcomeIgnoresUnmadeQuery | src/hooks/useAuth.tsx:30-43 | when the run stops before the profile query, the query's answer cannot change the outcome, and neither onboarding nor a loaded profile can result |
| UseAuth.AuthHook.constructor | src/hooks/useAuth.tsx:19-22 | initially no profile, loading, no error, empty error message |
| UseAuth.AuthHook.CheckAuth | src/hooks/useAuth.tsx:28-83 | the new state applies Resolve's outcome. An error sets hasError and the message; a loaded profile sets userProfile and clears isProfileLoading. Any other outcome leaves those cells alone. The query is made only for the session user's id |
| UseAuth.AuthHook.SignOut | src/hooks/useAuth.tsx:88-101 | navigates to /login iff signOut resolves without an error; otherwise a destructive "Error signing out" toast with the message, or "Unknown error occurred" when it is empty |
| UseAuth.FreshRun | src/hooks/useAuth.tsx:19-83 | from the initial state a run never both flags an error and loads a profile. A run that navigates leaves the initial state. hasError holds iff the message is non-empty |
| ProtectedRoute.AuthFrom | src/components/ProtectedRoute.tsx:19-30 | isAuth is true iff getSession resolved with no error and a non-null session; a returned error or a rejection gives false |
| ProtectedRoute.Decide | src/components/ProtectedRoute.tsx:39-51 | spinner iff loading (never children or redirect then); children iff not loading and isAuth is true; otherwise a redirect to the target |
| ProtectedRoute.RedirectTarget | src/components/ProtectedRoute.tsx:12 | the redirect target defaults to /login |
| ProtectedRoute.ChildrenOnlyForSession | src/components/ProtectedRoute.tsx:20-51 | after the check, children are rendered iff the answer had no error and a session; an error or a rejection renders the redirect |
| ProtectedRoute.Guard.constructor | src/components/ProtectedRoute.tsx:12-15 | isAuth starts null and isLoading true, so the spinner is shown; the target is the prop or /login |
| ProtectedRoute.Guard.CheckAuth | src/components/ProtectedRoute.tsx:18-34 | isLoading is false on every path; isAuth holds the answer's verdict; the render is then children or the redirect accordingly |
| ProtectedRoute.Guard.Render | src/components/ProtectedRoute.tsx:39-51 | no ensures of its own: the render of the guard's cells is Decide on them; see ProtectedRoute.Decide, Guard.constructor and Guard.CheckAuth |
| SupabaseContext.Apply | src/contexts/SupabaseContext.tsx:25-27 | the shared update stores the session, sets user to the session's user or null, and stops loading |
| SupabaseContext.ReplayKeepsLast | src/contexts/SupabaseContext.tsx:24-37 | after any non-empty sequence of callbacks the store equals the update for the last session; it is consistent and not loading |
| SupabaseContext.LoadingNeverResumes | src/contexts/SupabaseContext.tsx:24-37 | once isLoading is false, no sequence of callbacks makes it true again |
| SupabaseContext.Provider.constructor | src/contexts/SupabaseContext.tsx:18-20 | the store starts with no user, no session, loading |
| SupabaseContext.Provider.Store | src/contexts/SupabaseContext.tsx:25-27 | the new state is the shared update for the session |
| SupabaseContext.Provider.InitialSessionFetched | src/contexts/SupabaseContext.tsx:24-28 | a resolved answer stores its session and ignores its error field; a rejected one changes nothing |
| SupabaseContext.Provider.AuthStateChanged | src/contexts/SupabaseContext.tsx:31-37 | every auth event applies the same update, whatever the event name; afterwards user matches session and loading is off |
| PageWrapper.SpinnerClass | src/components/page-wrapper.tsx:16-20 | fullHeight defaults to true and selects min-h-[50vh]; false selects py-8 |
| PageWrapper.Render | src/components/page-wrapper.tsx:18-37 | spinner iff loading, even with an error present. Otherwise the error view iff an error is present, titled "Something went wrong", with the message or the fixed fallback when it is empty. Children iff neither |
| DashboardStatistics.RoundDiv | src/components/dashboard/DashboardStatistics.tsx:20 | the result is the integer nearest to a/b, with halves rounded up, as Math.round does |
| DashboardStatistics.Percent | src/components/dashboard/DashboardStatistics.tsx:16 | round(part*100/whole) when whole > 0; NaN for 0/0; Infinity for a positive part over zero |
| DashboardStatistics.RoundDivBetween | src/components/dashboard/DashboardStatistics.tsx:20 | rounding a quotient that lies between two integers keeps it between them |
| DashboardStatistics.PercentInRange | src/components/dashboard/DashboardStatistics.tsx:34 | a rounded percentage of a part of a positive whole lies in 0..100 |
| DashboardStatistics.Compute | src/components/dashboard/DashboardStatistics.tsx:13-34 | total is the length. Blocked counts original status blocked and overrides counts a changed status, both at most total. Override % is round(overrides*100/blocked) when blocked > 0, and Infinity or NaN otherwise. Blocked % is round(blocked*100/total) and lies in 0..100. Average risk is round(sum/total). Both are NaN for an empty list |
| DashboardStatistics.AverageRiskInRange | src/components/dashboard/DashboardStatistics.tsx:19-20 | with every score in 0..100, the rounded average lies in 0..100 |
| DashboardStatistics.OverridePercentInRange | src/components/dashboard/DashboardStatistics.tsx:14-16 | when every override started out blocked and there are blocks, the override percentage lies in 0..100 |
| DashboardStatistics.OverridesWithinBlocked | src/components/dashboard/DashboardStatistics.tsx:14-15 | when every override started out blocked, there are no more overrides than blocks |
| Transactions.Filter | src/components/dashboard/DashboardStatistics.tsx:14-15 | `Array.prototype.filter`: the result is never longer than the input; see FilterMembers, FilterAppend, FilterKeepsAll and FilterMultiplicity for which elements are kept and in what order |
| Transactions.TotalRisk | src/components/dashboard/DashboardStatistics.tsx:19 | no ensures of its own: the `reduce` sum of the risk scores; see TotalRiskAppend and TotalRiskBounds |
| Transactions.FilterMembers | src/components/dashboard/DashboardStatistics.tsx:15 | a transaction is kept by the filter iff it occurs in the input and satisfies the predicate |
| Transactions.FilterAppend | src/components/dashboard/DashboardStatistics.tsx:15 | filtering keeps the input order: the filter of a concatenation is the concatenation of the filters |
| Transactions.FilterKeepsAll | src/components/dashboard/DashboardStatistics.tsx:14 | a filter that every element passes keeps the whole list |
| Transactions.FilterMultiplicity | src/components/dashboard/DashboardStatistics.tsx:15 | each kept transaction is kept exactly as often as it occurs |
| Transactions.TotalRiskAppend | src/components/dashboard/DashboardStatistics.tsx:19 | the risk sum of a concatenation is the sum of the parts' sums |
| Transactions.TotalRiskBounds | src/components/dashboard/DashboardStatistics.tsx:19 | with scores in 0..100 the sum lies in 0..100 times the length |
| IndexPage.IndexStatistics | src/pages/Index.tsx:18-25 | no ensures of its own: the page's figures are the dashboard derivation over the shipped data; see IndexPage.MockFigures for their values |
| IndexPage.MockAllBlocked | src/data/mockTransactions.ts:18-169 | every shipped transaction started out blocked |
| IndexPage.MockOverrideCount | src/data/mockTransactions.ts:18-169 | six shipped transactions are overrides |
| IndexPage.MockTotalRisk | src/data/mockTransactions.ts:18-169 | the shipped risk scores sum to 401 |
| IndexPage.FiguresOfCounts | src/pages/Index.tsx:18-25 | ten transactions with ten blocks, six overrides and a risk sum of 401 give 60% of blocks, 100% of total and an average of 40 |
| IndexPage.MockFigures | src/pages/Index.tsx:18-48 | on the shipped data the page shows total 10, blocked 10, overrides 6, 60% of blocks, 100% of total and average risk 40 |
| OverridesSummary.DeviceLabel | src/components/OverridesSummary.tsx:63 | the label is the prefix of the device id before the first '-', or the whole id when it has none |
| OverridesSummary.CardOf | src/components/OverridesSummary.tsx:41-64 | no ensures of its own: one card shows the transaction's id, merchant, category, both statuses, reason, device label and previous uses; see OverridesSummary.Cards and OverridesSummary.DeviceLabel |
| OverridesSummary.Cards | src/components/OverridesSummary.tsx:40-64 | one card per override, in order, each built from its own transaction |
| OverridesSummary.Render | src/components/OverridesSummary.tsx:13-40 | the empty-state card iff no transaction is an override; otherwise the cards of the overrides |
| OverridesSummary.OverrideListExact | src/components/OverridesSummary.tsx:13-15 | the list holds exactly the transactions with a changed status, each as often as it occurs, in input order; its length is the dashboard's override count |
| RiskScoreBadge.LevelOf | src/components/RiskScoreBadge.tsx:15-24 | low iff score < 30, medium iff 30 <= score < 70, high iff score >= 70, so every score has exactly one band |
| RiskScoreBadge.BadgeFor | src/components/RiskScoreBadge.tsx:15-24 | Baixo with bg-trust below 30, Médio with bg-caution below 70, Alto with bg-risk otherwise |
| RiskScoreBadge.Tooltip | src/components/RiskScoreBadge.tsx:41 | the tooltip reads "Risco ", then the band label, then " (", then the score, and ends in "/100)" |
| RiskScoreBadge.TooltipShowsScore | src/components/RiskScoreBadge.tsx:41 | for a non-negative score, the digits between the parenthesis and "/100)" parse back to the score |
| RiskScoreBadge.BandMonotone | src/components/RiskScoreBadge.tsx:15-24 | a higher score never falls in a lower band |
| RiskScoreBadge.BadgesDistinguishLevels | src/components/RiskScoreBadge.tsx:15-24 | different bands show different labels and colours |
| CodeBlock.Contains | src/components/how-it-works/CodeBlock.tsx:11 | no ensures of its own: `includes` holds when the text occurs at some position; see CodeBlock.WithHeader, CodeBlock.OutputMentionsMarker and CodeBlock.TrimKeepsOccurrence |
| CodeBlock.WithHeader | src/components/how-it-works/CodeBlock.tsx:11-13 | the header is prepended iff the sample does not mention "FraudGuard AI"; the result always mentions it |
| CodeBlock.Split | src/components/how-it-works/CodeBlock.tsx:17 | split('\n') gives at least one piece and no piece holds a line feed |
| CodeBlock.Join | src/components/how-it-works/CodeBlock.tsx:19 | no ensures of its own: `join('\n')`; see CodeBlock.JoinSplit and CodeBlock.SplitJoin for the round trips with Split |
| CodeBlock.JoinSplit | src/components/how-it-works/CodeBlock.tsx:17-19 | joining the pieces of a split gives the text back |
| CodeBlock.SplitJoin | src/components/how-it-works/CodeBlock.tsx:17-19 | splitting the join of lines without line feeds gives the lines back |
| CodeBlock.TrimStart | src/components/how-it-works/CodeBlock.tsx:18 | no ensures of its own: `trimStart()` drops the leading whitespace run; see CodeBlock.TrimStartOfUnindented, CodeBlock.DedentedUnindented and CodeBlock.TrimKeepsOccurrence |
| CodeBlock.Trim | src/components/how-it-works/CodeBlock.tsx:20 | trim() gives the span between the leading and trailing whitespace, which neither begins nor ends with whitespace |
| CodeBlock.TrimOfTrimmed | src/components/how-it-works/CodeBlock.tsx:20 | a text without leading or trailing whitespace is its own trim |
| CodeBlock.TrimStartOfUnindented | src/components/how-it-works/CodeBlock.tsx:18 | a line that does not start with whitespace is its own trimStart() |
| CodeBlock.TrimKeepsOccurrence | src/components/how-it-works/CodeBlock.tsx:18-20 | trimStart() and trim() keep every occurrence of a text that begins and ends with non-whitespace |
| CodeBlock.OutputTrimmed | src/components/how-it-works/CodeBlock.tsx:20 | the output neither begins nor ends with whitespace |
| CodeBlock.LinesKept | src/components/how-it-works/CodeBlock.tsx:16-19 | the lines of the dedented text are the input's lines, each without its leading whitespace, in the original order |
| CodeBlock.DedentedUnindented | src/components/how-it-works/CodeBlock.tsx:16-19 | after the per-line trimStart no line starts with whitespace |
| CodeBlock.NoOutputLineIndented | src/components/how-it-works/CodeBlock.tsx:15-20 | no line of the output starts with whitespace, so all indentation is removed |
| CodeBlock.OutputMentionsMarker | src/components/how-it-works/CodeBlock.tsx:11-20 | the output always contains "FraudGuard AI" |
| CodeBlock.DedentedOfUnindented | src/components/how-it-works/CodeBlock.tsx:11-19 | a text that mentions the product and has no indented line passes the header and the per-line trimming unchanged |
| CodeBlock.NormalizeIdempotent | src/components/how-it-works/CodeBlock.tsx:11-20 | applying the transform to its own output leaves it unchanged |
| CodeBlock.Dedented | src/components/how-it-works/CodeBlock.tsx:11-19 | no ensures of its own: the header step, then trimStart on every line; see CodeBlock.LinesKept, CodeBlock.DedentedUnindented and CodeBlock.DedentedOfUnindented |
| CodeBlock.Normalize | src/components/how-it-works/CodeBlock.tsx:11-20 | no ensures of its own: `trimmedCode`, the trim of the dedented text; see CodeBlock.OutputTrimmed, CodeBlock.NoOutputLineIndented, CodeBlock.OutputMentionsMarker and CodeBlock.NormalizeIdempotent |
| OnboardingPage.SocialMedia.With | src/pages/OnboardingPage.tsx:39-41 | changing a social field sets that field and leaves the other two unchanged |
| OnboardingPage.SaveErrorToast | src/pages/OnboardingPage.tsx:178-183 | a destructive "Error saving profile" toast with the message, or the fixed fallback when it is empty |
| OnboardingPage.FileName | src/pages/OnboardingPage.tsx:137 | the storage key is face_, the user id, _, the decimal timestamp, then .jpg |
| OnboardingPage.FileNamesDistinct | src/pages/OnboardingPage.tsx:137 | two submissions by one user at different times use different keys |
| OnboardingPage.FieldsFor | src/pages/OnboardingPage.tsx:158-163 | the update writes exactly the three handles and the face image URL |
| OnboardingPage.Pipeline | src/pages/OnboardingPage.tsx:129-183 | the steps that ran start with extraction and, once a frame is extracted, are a prefix of extract, upload of that frame, get public URL, update profile; every step after the first failure is skipped: a failed extraction leaves only the extraction, and a failed upload leaves exactly extraction and upload, with no public URL and no profile update. Each failure has its own toast. /dashboard is scheduled iff all steps succeed, with the success toast. The public URL is the uploaded key's once the upload has succeeded |
| OnboardingPage.ExtractFrameAsWritten | src/pages/OnboardingPage.tsx:89-114 | extraction as written yields a frame only when the page's video element is mounted, a recording exists and the frame decodes |
| OnboardingPage.ExtractFrame | src/pages/OnboardingPage.tsx:89-114 | extraction as intended yields the decoded frame whenever a recording exists |
| OnboardingPage.VideoElementMounted | src/pages/OnboardingPage.tsx:252-273 | the video element is on screen only in step 2 and only while no recording exists |
| OnboardingPage.AsWrittenSubmissionAlwaysFails | src/pages/OnboardingPage.tsx:89-134 | as written, every submission that passes the guard stops at extraction with "Could not extract image from video" and never uploads |
| OnboardingPage.IntendedSubmissionCompletes | src/pages/OnboardingPage.tsx:129-177 | with intended extraction and successful remote calls, the profile is updated with the handles and the uploaded file's URL, and /dashboard is scheduled |
| OnboardingPage.RedirectWhenSignedOut | src/pages/OnboardingPage.tsx:32-37 | the page navigates to /login, replacing the history entry, iff the auth context has loaded without a user |
| OnboardingPage.Page.constructor | src/pages/OnboardingPage.tsx:13-26 | the form starts at step 1 with empty handles, not recording, no video, not submitting, no image URL, no stream and no recorder |
| OnboardingPage.Page.ChangeSocial | src/pages/OnboardingPage.tsx:39-41 | only the named social field changes; every other cell is unchanged |
| OnboardingPage.Page.NextStep | src/pages/OnboardingPage.tsx:43-45 | currentStep grows by exactly one; nothing else changes |
| OnboardingPage.Page.StartRecording | src/pages/OnboardingPage.tsx:47-76 | on granted access the stream is stored, a recorder starts on it and isRecording becomes true. On refusal only the camera-denied toast is raised and the recording cells are unchanged |
| OnboardingPage.Page.StopRecording | src/pages/OnboardingPage.tsx:78-87 | the recorder is stopped only if one exists, and recording is over afterwards in every case (recording implies a recorder); a stored stream's tracks are stopped |
| OnboardingPage.Page.RecordingFinished | src/pages/OnboardingPage.tsx:61-64 | the recorder's onstop stores the recorded video and changes nothing else |
| OnboardingPage.Page.Save | src/pages/OnboardingPage.tsx:127-186 | the try/catch/finally sets isSubmitting, issues the steps in turn and yields exactly the pipeline's steps, toast and redirect; the image URL is stored once known; isSubmitting is false afterwards and the other cells are unchanged |
| OnboardingPage.Page.Submit | src/pages/OnboardingPage.tsx:89-187 | the code as written. Without a user or a video only the "Missing information" toast is raised: no step runs and isSubmitting is untouched. Otherwise the result is the pipeline's for the as-written extraction through the page's video element, which is then unmounted: the attempt stops at extraction with "Could not extract image from video", no upload, no profile update, no redirect, the image URL unchanged, and isSubmitting false afterwards |
| OnboardingPage.Page.SubmitIntended | src/pages/OnboardingPage.tsx:117-187 | the corrected submission: the same guard, then the pipeline's result with extraction from the recorded blob alone; the image URL is stored once known and isSubmitting is false afterwards |

## Left out

- The Supabase client wrappers in `src/lib/supabase.ts` are not part of this model. Their answers are the inputs `GetSession`, `ProfileQuery`, `SignOutAnswer` and `RemoteAnswer`.
- Device and media I/O are not modelled: `getUserMedia`, `MediaRecorder`, the `chunks` array that `ondataavailable` pushes to, and the canvas decoding of the frame at one second with JPEG quality 0.95. These are foreign browser APIs. A grant, a recorded blob and a decoded frame are opaque inputs. Streams and recorders are values with only the flags the page reads.
- OnboardingPage.Page.StartRecording: a `MediaRecorder` constructor that throws after access was granted is not modelled. In the source that also raises the camera-denied toast, with the stream already stored. The recorder is not a model input.
- OnboardingPage.Page.StartRecording: "Record Again" replaces the stream and the recorder without stopping the old stream's tracks. The model replaces them the same way, and does not track the old stream.
- The two-second `setTimeout` before navigating to the dashboard is modelled as the navigation it schedules. The timer itself, effect scheduling, re-renders and the order of asynchronous callbacks are host-runtime concurrency.
- The submit button's `disabled` attribute is not modelled. It is markup: a second submit while one is running is possible in the model.
- `console.error` logging is output only.
- DashboardStatistics.Percent: rounds the exact quotient. The source multiplies a floating-point quotient by 100, which can land just below a .5 boundary and round down. Floating point is not modelled.
- Risk scores are integers in the model. The source's `number` could hold a fraction. The shipped data holds only integers.
- Amount, currency, timestamp and location are not modelled. They are only formatted (`Intl.NumberFormat`, dates), and formatting is left out.
- The components that only lay out markup are not part of this model. Neither are `LoginPage`, the static route table in `App.tsx`, or the `Demo` page's timer.
- A missing profile row only leads to onboarding. No row is created, so no creation is modelled. Upload progress, request tokens, a verification simulator and a camera-error taxonomy do not occur in these files either.
- CodeBlock: the comment at `src/components/how-it-works/CodeBlock.tsx:15` says indentation structure is preserved. The code removes all of it, and the model follows the code (`CodeBlock.NoOutputLineIndented`).

## Findings

| source | as written | input that shows it | evidently intended | confidence | as-written member | corrected member |
|---|---|---|---|---|---|---|
| src/pages/OnboardingPage.tsx:90 | `extractFrameFromVideo` returns null unless `videoRef.current` is set. That ref's `<video>` element is rendered only while `videoBlob` is null (lines 260-273), while the submit guard at line 118 demands a `videoBlob`. | Any submission with a signed-in user and a recorded video: the guard passes, the video element is unmounted, extraction returns null, and the attempt ends with "Could not extract image from video". | Extraction decodes from the recorded blob through its own element, which the function already creates at line 93, so only the blob is needed. | medium, not executed | OnboardingPage.Page.Submit | OnboardingPage.Page.SubmitIntended |
