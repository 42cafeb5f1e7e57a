# Navigator admission and cancellation, in Dafny

This project models the `Navigator` of `src/navigator.ts`. The Navigator decides which
navigation is happening right now. It holds three slots:

- an optional foreground form submission;
- a set of background form submissions;
- an optional current visit.

It admits at most one foreground activity at a time. A foreground activity is a visit or a
foreground form submission. A new foreground activity stops the previous one. Background
submissions run beside it untouched. A successful foreground submission that returns HTML
becomes a new visit to the response location.

The `Visit` and `FormSubmission` objects are opaque identities. Each call the Navigator
makes on one is appended to an effect log: `start()`, `stop()`, `cancel()`, and the
forwarded `visitStarted`/`visitCompleted`. That log lets the contracts state call order
and "called exactly once".

Files:

- `wrappers.dfy`: `Option`.
- `navigation.dfy` (module `Navigation`): the data model and one pure transition function
  per method of the class. Each returns the next state and the effects it issued, in order.
- `navigator_trace.dfy` (module `NavigatorTrace`): every call and callback as an event,
  runs of events, and properties proved for every run in which each new object gets a
  fresh identity, as `new` guarantees.
- `success_race.dfy` (module `SuccessRace`): the success callback as written, with its
  await split out (see Findings).

The source reads three values from its environment. Here they are explicit inputs:

- the history location used as referrer (`history`);
- the minted restoration identifier (`uuid`);
- the awaited response HTML (`FetchResponse.responseHTML`, an `Option<string>`).

The identity of a newly constructed object is an input too.

Two behaviours of the code worth noting:

- `formSubmissionFinished` has an empty body, so a finished background submission is never
  removed from the background set.
- An absent `target` counts as foreground, and so does `modal`. The code compares
  `options.target == NavigationTarget.background`, and `undefined == 0` is false.

## Model

| member | source | states |
|---|---|---|
| `Navigation.Stop` | src/navigator.ts:46-56 | Both foreground slots end empty and the background set is unchanged. The log stops the foreground submission exactly when there was one and cancels the current visit exactly when there was one, each at most once, with the stop first. Nothing else is issued. |
| `Navigation.Submit` | src/navigator.ts:33-44 | The new submission is started exactly once, as the last effect. With target background it joins the background set, and state and log are otherwise untouched: no stop, no cancel. With any other target it first terminates the foreground activity. It then holds the foreground slot, with no current visit and the background set unchanged. |
| `Navigation.StartVisit` | src/navigator.ts:118-126 | The previous foreground activity is terminated before the new visit starts. The new visit starts exactly once, as the last effect. It is current, at the given location and restoration identifier, with the history location as its referrer, overriding any referrer passed in. The foreground slot is empty and the background set is unchanged. |
| `Navigation.VisitLocation` | src/navigator.ts:29-31 | `visit` always makes a foreground visit. Its location, restoration identifier and history-location referrer are as given. The prior foreground activity is terminated before the single start of the new visit. |
| `Navigation.BeginSucceeded` | src/navigator.ts:84-85 | The entry check admits the callback exactly when the reporting submission is the foreground one. |
| `Navigation.ResumeSucceeded` | src/navigator.ts:86-90 | Corrected resumption (see Findings); the code's own resumption is `SuccessRace.ResumeSucceededAsWritten`. With truthy HTML, and a submission admitted at entry that is still the foreground one when the callback resumes, one visit starts, last, at the response location. It has the minted identifier, the HTML as its response and the history location as referrer, and it follows the termination of the foreground activity. In every other case it changes nothing and issues nothing; the re-check of the foreground slot is the correction the code lacks. When nothing runs during the await it equals the code (`SuccessRace.AsWrittenAgreesWhenUninterrupted`). |
| `Navigation.FormSubmissionSucceededWithResponse` | src/navigator.ts:84-92 | A stale callback (the submission is not the foreground one) changes nothing. So does one with absent or empty HTML. Otherwise the submission is stopped, the foreground slot cleared, and one visit to the response location with the HTML attached is started, last. |
| `Navigation.FormSubmissionStarted` | src/navigator.ts:80-82 | No state change and no effect. |
| `Navigation.FormSubmissionFailedWithResponse` | src/navigator.ts:94-96 | No state change and no effect. The console report is not modelled. |
| `Navigation.FormSubmissionErrored` | src/navigator.ts:98-100 | No state change and no effect. The console report is not modelled. |
| `Navigation.FormSubmissionFinished` | src/navigator.ts:102-104 | No state change and no effect. A finished background submission stays in the background set. |
| `Navigation.VisitStarted` | src/navigator.ts:108-110 | The same visit is forwarded to the delegate, once, and the state is unchanged. |
| `Navigation.VisitCompleted` | src/navigator.ts:112-114 | The same visit is forwarded to the delegate, once, and the state is unchanged. |
| `Navigation.StopIdempotent` | src/navigator.ts:46-56 | A second `stop()` changes nothing and issues nothing. |
| `Navigation.StopWhenIdle` | src/navigator.ts:46-56 | `stop()` with no foreground activity is a no-op. |
| `Navigation.StartVisitStopsBeforeStart` | src/navigator.ts:118-122 | Every stop and cancel issued by `startVisit` comes before the new visit's start. |
| `Navigation.SucceededFromValidState` | src/navigator.ts:84-90 | From a valid state, a successful foreground submission with HTML issues exactly `stop()` on that submission and then `start()` on the new visit. It leaves a valid state. |
| `Navigation.VisitIgnoresTarget` | src/navigator.ts:29-31 | The `target` option of `visit` changes no effect and no slot assignment. It changes the new visit only in the target its options carry. |
| `NavigatorTrace.Apply` | src/navigator.ts:36-37 | No call or callback removes a background submission. Only a background `submit` changes the set. |
| `NavigatorTrace.Run` | src/navigator.ts:22 | The background set only grows along any run: a background submission never leaves it. |
| `NavigatorTrace.ApplyEffects` | src/navigator.ts:29-122 | One call issues at most one start, as its last effect, and only for the object it constructs. Every other effect stops the foreground submission, cancels the current visit or forwards a visit notification. |
| `NavigatorTrace.ApplyStartCount` | src/navigator.ts:34-43 | One call starts a given submission or visit at most once, and only one it constructs. |
| `NavigatorTrace.ApplyPreservesValid` | src/navigator.ts:34-41 | Each call or callback with a fresh new object keeps the invariant. The invariant is at most one foreground activity, and the foreground submission never in the background set. |
| `NavigatorTrace.RunPreservesValid` | src/navigator.ts:21-23 | The invariant holds after every run whose new objects are fresh. |
| `NavigatorTrace.BackgroundUndisturbed` | src/navigator.ts:36-56 | A background submission is never stopped, whatever runs in the foreground. |
| `NavigatorTrace.SupersededStaysSuperseded` | src/navigator.ts:34-41 | Once a submission has lost the foreground slot, no later call of a fresh run gives it back. |
| `NavigatorTrace.LateSuccessIgnored` | src/navigator.ts:84-85 | A success callback from a superseded submission, arriving after any fresh run, changes nothing and starts no visit. |
| `NavigatorTrace.SupersededResumeIgnored` | src/navigator.ts:84-90 | A suspended success callback whose submission was superseded before it resumes changes nothing. This holds whatever ran in between (corrected resumption). |
| `NavigatorTrace.ApplyTerminationCount` | src/navigator.ts:46-56 | One call or callback stops a given submission, or cancels a given visit, at most once. It does so only when that object is the foreground submission or the current visit. |
| `NavigatorTrace.ApplyEndsTerminated` | src/navigator.ts:34-41 | A submission stopped or a visit cancelled by a call no longer holds its slot afterwards. The slot is then empty or holds the object that call constructs. |
| `NavigatorTrace.ApplyKeepsUntargeted` | src/navigator.ts:34-41 | A constructed submission or visit that holds no slot is not given one by a later call: only newly constructed objects enter the slots. |
| `NavigatorTrace.WithinAllowance` | src/navigator.ts:46-56 | Along a fresh run, an object constructed before the run is stopped or cancelled at most once, and only if it held a slot at the start. An object constructed during the run is stopped or cancelled at most once. |
| `NavigatorTrace.TerminationsAtMostOnce` | src/navigator.ts:46-56 | Along a fresh run every submission is stopped at most once and every visit is cancelled at most once. An object constructed before the run is stopped or cancelled only if it held a slot at the start. |
| `NavigatorTrace.StartsAreFreshAndUnique` | src/navigator.ts:34-43 | Along a fresh run, every submission and every visit is started at most once. Only objects not constructed before the run are started. |
| `NavigatorTrace.TwoVisitsScenario` | src/navigator.ts:118-122 | Two visits in a row log start(first), cancel(first), start(second). Only the second visit is current, with its own identity, location and restoration identifier. |
| `NavigatorTrace.BackgroundThenForegroundScenario` | src/navigator.ts:33-44 | A background submission followed by a foreground one: both are started, neither is stopped, and each keeps its own slot. |
| `SuccessRace.ResumeSucceededAsWritten` | src/navigator.ts:84-90 | The resumption as written: it starts the response visit whenever the entry check passed and the HTML is truthy, even if the submission has since been superseded. Background submissions are left alone. |
| `SuccessRace.AsWrittenAgreesWhenUninterrupted` | src/navigator.ts:84-90 | With nothing running between entry and resumption, the written callback, the corrected one and the one-event model coincide. |
| `SuccessRace.AsWrittenCancelsNewerVisit` | src/navigator.ts:84-90 | A `visit` issued while the HTML is awaited supersedes the submission. The written resumption still cancels that newer visit and replaces it. |
| `SuccessRace.CheckedResumeKeepsNewerVisit` | src/navigator.ts:84-90 | The corrected resumption leaves the newer visit running and issues nothing. |

## Findings

| source | as written | input that shows it | evidently intended | confidence | as-written member | corrected member |
|---|---|---|---|---|---|---|
| src/navigator.ts:84-90 | The identity check `formSubmission == this.foregroundFormSubmission` runs before `await fetchResponse.responseHTML`. After the await, `startVisit` runs without checking again. | Foreground submission `s` succeeds and the callback passes the check. While the body is awaited, `visit(L2)` stops `s` and makes visit `w` current. When the HTML arrives, `startVisit` cancels `w` and navigates to the form response. | A success callback of a submission superseded by a newer foreground activity starts no visit. | medium; not executed | `SuccessRace.ResumeSucceededAsWritten` (shown by `SuccessRace.AsWrittenCancelsNewerVisit`) | `Navigation.ResumeSucceeded` (proved by `SuccessRace.CheckedResumeKeepsNewerVisit` and `NavigatorTrace.SupersededResumeIgnored`) |

## Left out

- The internals of `Visit` and `FormSubmission` (`visit.ts` and `form_submission.ts` are not part of this model). Both are opaque identities. Whether a stopped or cancelled object stays silent afterwards is their business. The Navigator forwards `visitStarted`/`visitCompleted` for any visit.
- The `HTMLFormElement` passed to `submit` and to `new FormSubmission`. It affects nothing the Navigator decides.
- Visit options other than `referrer` and `response`. They pass through to `new Visit` untouched, and so does `target`.
- `console.error` in the failure and error callbacks. It is output only and changes no state.
- `uuid()` (`util.ts` is not part of this model). Its result is the `uuid` input. Freshness is assumed of object identities, not of restoration identifiers.
- The `adapter`, `view` and `history` getters and the `location` getter. They are pass-throughs. Only the history location is kept, as an input.
- `reload` and `goBack`. Their bodies are empty.
- The delegate's own behaviour. Forwarded notifications appear only as log entries.
- Interleaving of other calls with the suspended success callback, in the event model of `NavigatorTrace`. There the callback is one event. Interleaving is modelled only through `BeginSucceeded`/`ResumeSucceeded` and the lemmas about them.
