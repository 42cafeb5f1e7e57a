/** The Navigator of src/navigator.ts: admission and cancellation of the one
    foreground activity (a visit or a foreground form submission) next to any
    number of background form submissions.

    The `Visit` and `FormSubmission` objects the Navigator drives are opaque:
    each is an identifier, and every method the Navigator calls on one
    (`start`, `stop`, `cancel`) or forwards to its own delegate is appended to
    an effect log. Every transition is a pure function from a `Navigator`
    state to the next state plus the effects it issued, in issue order. */
module Navigation {
  import opened Wrappers

  /** Identity of a FormSubmission object (`new FormSubmission` makes a fresh one). */
  newtype SubmissionId = i: int | 0 <= i

  /** Identity of a Visit object (`new Visit` makes a fresh one). */
  newtype VisitId = i: int | 0 <= i

  /** A navigable address, compared by value. */
  type Location = string

  /** The `NavigationTarget` enum. */
  datatype NavigationTarget = Background | Foreground | Modal

  /** `Partial<NavigationOptions>`: every field may be absent. `referrer` and
      `response` stand for the visit options passed through to a new Visit;
      `response` is the pre-supplied response HTML. */
  datatype NavigationOptions = NavigationOptions(
    target: Option<NavigationTarget>,
    referrer: Option<Location>,
    response: Option<string>)

  /** The default argument `{}`. */
  const NoOptions: NavigationOptions := NavigationOptions(None, None, None)

  /** What the Navigator hands to `new Visit(...)`. */
  datatype Visit = Visit(
    id: VisitId,
    location: Location,
    restorationIdentifier: string,
    options: NavigationOptions)

  /** A fetch response: its location and its (awaited) response HTML. */
  datatype FetchResponse = FetchResponse(location: Location, responseHTML: Option<string>)

  /** The calls the Navigator makes on the objects it drives and on its delegate. */
  datatype Effect =
    | SubmissionStart(submission: SubmissionId)
    | SubmissionStop(submission: SubmissionId)
    | VisitStart(visit: VisitId)
    | VisitCancel(visit: VisitId)
    | DelegateVisitStarted(visit: VisitId)
    | DelegateVisitCompleted(visit: VisitId)

  /** The Navigator's three slots. */
  datatype Navigator = Navigator(
    foreground: Option<SubmissionId>,
    background: set<SubmissionId>,
    currentVisit: Option<Visit>)

  /** A freshly constructed Navigator. */
  const Initial: Navigator := Navigator(None, {}, None)

  /** The state after a transition and the effects it issued, in order. */
  datatype Step = Step(nav: Navigator, effects: seq<Effect>)

  /** The one comparison `submit` makes on its options. An absent target is
      not background: `undefined == NavigationTarget.background` is false. */
  predicate IsBackground(options: NavigationOptions) {
    options.target == Some(Background)
  }

  /** JavaScript truthiness of an optional string: absent and `""` are falsy. */
  predicate Truthy(html: Option<string>) {
    html.Some? && html.value != ""
  }

  /** At most one foreground activity: a foreground submission and a current
      visit never coexist. */
  predicate AtMostOneForeground(n: Navigator) {
    n.foreground.None? || n.currentVisit.None?
  }

  /** The state invariant: one foreground activity at most, and the foreground
      submission is never also tracked as a background one. */
  predicate Valid(n: Navigator) {
    && AtMostOneForeground(n)
    && (n.foreground.Some? ==> n.foreground.value !in n.background)
  }

  /** True when `v` is the current visit's identity. */
  predicate IsCurrentVisit(n: Navigator, v: VisitId) {
    n.currentVisit.Some? && n.currentVisit.value.id == v
  }

  /** `log` is the termination of `n`'s foreground activity: `stop()` on the
      foreground submission if there is one, then `cancel()` on the current
      visit if there is one, each at most once and nothing else. */
  predicate Terminates(n: Navigator, log: seq<Effect>) {
    && (forall x :: x in log ==>
          || (x.SubmissionStop? && n.foreground == Some(x.submission))
          || (x.VisitCancel? && IsCurrentVisit(n, x.visit)))
    && (n.foreground.Some? ==> SubmissionStop(n.foreground.value) in log)
    && (n.currentVisit.Some? ==> VisitCancel(n.currentVisit.value.id) in log)
    && (forall i, j :: 0 <= i < j < |log| ==> log[i].SubmissionStop? && log[j].VisitCancel?)
  }

  /** `stop()`: stop the foreground submission, then cancel the current
      visit, clearing each slot it empties; background submissions stay. */
  function Stop(n: Navigator): (r: Step)
    ensures r.nav.foreground == None && r.nav.currentVisit == None
    ensures r.nav.background == n.background
    ensures Terminates(n, r.effects)
  {
    var stopped := if n.foreground.Some? then [SubmissionStop(n.foreground.value)] else [];
    var canceled := if n.currentVisit.Some? then [VisitCancel(n.currentVisit.value.id)] else [];
    Step(Navigator(None, n.background, None), stopped + canceled)
  }

  /** `submit(form, options)` with `s` the identity of the new FormSubmission:
      a background submission joins the background set; any other target
      first stops the foreground activity and takes the foreground slot.
      Either way the new submission is started exactly once, last. */
  function Submit(n: Navigator, s: SubmissionId, options: NavigationOptions): (r: Step)
    ensures |r.effects| > 0 && r.effects[|r.effects| - 1] == SubmissionStart(s)
    ensures IsBackground(options) ==>
      && r.nav == n.(background := n.background + {s})
      && r.effects == [SubmissionStart(s)]
    ensures !IsBackground(options) ==>
      && r.nav == Navigator(Some(s), n.background, None)
      && Terminates(n, r.effects[..|r.effects| - 1])
  {
    if IsBackground(options) then
      Step(n.(background := n.background + {s}), [SubmissionStart(s)])
    else
      var stopped := Stop(n);
      Step(stopped.nav.(foreground := Some(s)), stopped.effects + [SubmissionStart(s)])
  }

  /** `startVisit(location, restorationIdentifier, options)` with `history`
      the history location and `v` the identity of the new Visit: stop the
      foreground activity, then create the visit with the history location as
      its referrer (overriding any referrer in `options`) and start it. */
  function StartVisit(n: Navigator, location: Location, restorationIdentifier: string,
                      options: NavigationOptions, history: Location, v: VisitId): (r: Step)
    ensures r.nav.foreground == None && r.nav.background == n.background
    ensures r.nav.currentVisit == Some(Visit(v, location, restorationIdentifier, options.(referrer := Some(history))))
    ensures |r.effects| > 0 && r.effects[|r.effects| - 1] == VisitStart(v)
    ensures Terminates(n, r.effects[..|r.effects| - 1])
  {
    var stopped := Stop(n);
    var visit := Visit(v, location, restorationIdentifier, options.(referrer := Some(history)));
    Step(stopped.nav.(currentVisit := Some(visit)), stopped.effects + [VisitStart(v)])
  }

  /** `visit(location, restorationIdentifier, options)`: always a foreground
      visit, whatever the target in `options`. */
  function VisitLocation(n: Navigator, location: Location, restorationIdentifier: string,
                         options: NavigationOptions, history: Location, v: VisitId): (r: Step)
    ensures r.nav.foreground == None && r.nav.background == n.background
    ensures r.nav.currentVisit.Some? && r.nav.currentVisit.value.id == v
    ensures r.nav.currentVisit.value.location == location
    ensures r.nav.currentVisit.value.restorationIdentifier == restorationIdentifier
    ensures r.nav.currentVisit.value.options.referrer == Some(history)
    ensures |r.effects| > 0 && r.effects[|r.effects| - 1] == VisitStart(v)
    ensures Terminates(n, r.effects[..|r.effects| - 1])
  {
    StartVisit(n, location, restorationIdentifier, options, history, v)
  }

  /** The success callback suspended at its `await`: which submission
      reported, and whether it was the foreground one when the callback
      was entered. */
  datatype Pending = Pending(submission: SubmissionId, admitted: bool)

  /** Entry of `formSubmissionSucceededWithResponse`: the identity check made
      before the response HTML is awaited. */
  function BeginSucceeded(n: Navigator, s: SubmissionId): (p: Pending)
    ensures p.submission == s
    ensures p.admitted <==> n.foreground == Some(s)
  {
    Pending(s, n.foreground == Some(s))
  }

  /** Corrected resumption of the success callback once the response HTML
      is known, in `n`, the state at that moment. A visit to the response
      location, with restoration identifier `uuid` and the HTML attached as
      its response, starts only if the submission was admitted at entry, is
      still the foreground one now, and the HTML is truthy. The source does
      not make the second check: after the await it starts the visit on the
      entry check alone, which is `SuccessRace.ResumeSucceededAsWritten`.
      The two agree whenever nothing runs during the await. */
  function ResumeSucceeded(n: Navigator, p: Pending, response: FetchResponse, uuid: string,
                           history: Location, v: VisitId): (r: Step)
    ensures !(p.admitted && n.foreground == Some(p.submission) && Truthy(response.responseHTML)) ==>
      r == Step(n, [])
    ensures p.admitted && n.foreground == Some(p.submission) && Truthy(response.responseHTML) ==>
      && r.nav.foreground == None
      && r.nav.background == n.background
      && r.nav.currentVisit == Some(Visit(v, response.location, uuid,
                                          NavigationOptions(None, Some(history), response.responseHTML)))
      && |r.effects| > 0 && r.effects[|r.effects| - 1] == VisitStart(v)
      && Terminates(n, r.effects[..|r.effects| - 1])
  {
    if p.admitted && n.foreground == Some(p.submission) && Truthy(response.responseHTML) then
      StartVisit(n, response.location, uuid, NavigationOptions(None, None, response.responseHTML), history, v)
    else
      Step(n, [])
  }

  /** `formSubmissionSucceededWithResponse(s, response)` delivered as one
      event: `uuid` is the fresh restoration identifier, `history` the
      history location and `v` the identity a new Visit would get. */
  function FormSubmissionSucceededWithResponse(n: Navigator, s: SubmissionId, response: FetchResponse,
                                               uuid: string, history: Location, v: VisitId): (r: Step)
    ensures n.foreground != Some(s) ==> r == Step(n, [])
    ensures !Truthy(response.responseHTML) ==> r == Step(n, [])
    ensures n.foreground == Some(s) && Truthy(response.responseHTML) ==>
      && r.nav.foreground == None
      && r.nav.background == n.background
      && r.nav.currentVisit == Some(Visit(v, response.location, uuid,
                                          NavigationOptions(None, Some(history), response.responseHTML)))
      && SubmissionStop(s) in r.effects
      && |r.effects| > 0 && r.effects[|r.effects| - 1] == VisitStart(v)
      && Terminates(n, r.effects[..|r.effects| - 1])
  {
    ResumeSucceeded(n, BeginSucceeded(n, s), response, uuid, history, v)
  }

  /** `formSubmissionStarted`: an empty body. */
  function FormSubmissionStarted(n: Navigator, s: SubmissionId): (r: Step)
    ensures r.nav == n && r.effects == []
  {
    Step(n, [])
  }

  /** `formSubmissionFailedWithResponse`: only logged to the console. */
  function FormSubmissionFailedWithResponse(n: Navigator, s: SubmissionId, response: FetchResponse): (r: Step)
    ensures r.nav == n && r.effects == []
  {
    Step(n, [])
  }

  /** `formSubmissionErrored`: only logged to the console. */
  function FormSubmissionErrored(n: Navigator, s: SubmissionId): (r: Step)
    ensures r.nav == n && r.effects == []
  {
    Step(n, [])
  }

  /** `formSubmissionFinished`: an empty body, so a finished background
      submission stays in the background set (`r.nav == n`). */
  function FormSubmissionFinished(n: Navigator, s: SubmissionId): (r: Step)
    ensures r.nav == n && r.effects == []
  {
    Step(n, [])
  }

  /** `visitStarted(visit)`: forwarded to the delegate for any visit, current
      or not; no state changes. */
  function VisitStarted(n: Navigator, v: VisitId): (r: Step)
    ensures r.nav == n && r.effects == [DelegateVisitStarted(v)]
  {
    Step(n, [DelegateVisitStarted(v)])
  }

  /** `visitCompleted(visit)`: forwarded to the delegate; no state changes. */
  function VisitCompleted(n: Navigator, v: VisitId): (r: Step)
    ensures r.nav == n && r.effects == [DelegateVisitCompleted(v)]
  {
    Step(n, [DelegateVisitCompleted(v)])
  }

  /** `stop()` twice is `stop()` once: the second call changes nothing and
      issues nothing. */
  lemma StopIdempotent(n: Navigator)
    ensures Stop(Stop(n).nav) == Step(Stop(n).nav, [])
  {
  }

  /** With nothing in either foreground slot, `stop()` is a no-op. */
  lemma StopWhenIdle(n: Navigator)
    requires n.foreground == None && n.currentVisit == None
    ensures Stop(n) == Step(n, [])
  {
  }

  /** A superseded foreground submission is stopped, and a superseded visit
      cancelled, before the new visit is started. A corollary of the
      contract of `StartVisit`, spelled out index by index. */
  lemma StartVisitStopsBeforeStart(n: Navigator, location: Location, restorationIdentifier: string,
                                   options: NavigationOptions, history: Location, v: VisitId)
    ensures var r := StartVisit(n, location, restorationIdentifier, options, history, v);
      forall i :: 0 <= i < |r.effects| && (r.effects[i].SubmissionStop? || r.effects[i].VisitCancel?) ==>
        i < |r.effects| - 1 && r.effects[|r.effects| - 1] == VisitStart(v)
  {
  }

  /** From a valid state, a success callback of the foreground submission
      with truthy HTML stops exactly that submission and then starts exactly
      the new visit, and the state stays valid. */
  lemma SucceededFromValidState(n: Navigator, s: SubmissionId, response: FetchResponse,
                                uuid: string, history: Location, v: VisitId)
    requires Valid(n) && n.foreground == Some(s) && Truthy(response.responseHTML)
    ensures var r := FormSubmissionSucceededWithResponse(n, s, response, uuid, history, v);
            r.effects == [SubmissionStop(s), VisitStart(v)] && Valid(r.nav)
  {
  }

  /** The target in the options of `visit` changes no effect and no slot
      assignment; the new visit differs only in the target its options carry. */
  lemma VisitIgnoresTarget(n: Navigator, location: Location, restorationIdentifier: string,
                           options: NavigationOptions, history: Location, v: VisitId,
                           target: Option<NavigationTarget>)
    ensures var a := VisitLocation(n, location, restorationIdentifier, options, history, v);
            var b := VisitLocation(n, location, restorationIdentifier, options.(target := target), history, v);
            a.effects == b.effects && a.nav.foreground == b.nav.foreground
            && a.nav.background == b.nav.background
            && a.nav.currentVisit.value.options.(target := None) == b.nav.currentVisit.value.options.(target := None)
  {
  }
}
