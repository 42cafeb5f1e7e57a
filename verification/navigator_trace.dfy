/** Runs of the Navigator: every call and callback of src/navigator.ts as an
    event, a run as the sequence of states and the concatenated effect log,
    and the properties that hold along every run whose new objects are
    fresh, as `new FormSubmission` and `new Visit` guarantee. */
module NavigatorTrace {
  import opened Wrappers
  import opened Navigation

  /** One call into the Navigator. The inputs the source reads from its
      environment are carried by the event: `history` is the history
      location, `uuid` the minted restoration identifier, `submission` and
      `visit` the identities of the objects the call constructs (or
      reports about). */
  datatype Event =
    | CallVisit(location: Location, restorationIdentifier: string, options: NavigationOptions,
                history: Location, visit: VisitId)
    | CallSubmit(submission: SubmissionId, options: NavigationOptions)
    | CallStop
    | OnSubmissionStarted(submission: SubmissionId)
    | OnSubmissionSucceeded(submission: SubmissionId, response: FetchResponse, uuid: string,
                            history: Location, visit: VisitId)
    | OnSubmissionFailed(submission: SubmissionId, response: FetchResponse)
    | OnSubmissionErrored(submission: SubmissionId)
    | OnSubmissionFinished(submission: SubmissionId)
    | OnVisitStarted(visit: VisitId)
    | OnVisitCompleted(visit: VisitId)

  /** Dispatch of one event to the Navigator transition it names. No event
      removes a background submission: only `submit` adds to the set. */
  function Apply(n: Navigator, e: Event): (r: Step)
    ensures n.background <= r.nav.background
    ensures r.nav.background != n.background ==> e.CallSubmit? && IsBackground(e.options)
  {
    match e
    case CallVisit(location, rid, options, history, v) => VisitLocation(n, location, rid, options, history, v)
    case CallSubmit(s, options) => Submit(n, s, options)
    case CallStop => Stop(n)
    case OnSubmissionStarted(s) => FormSubmissionStarted(n, s)
    case OnSubmissionSucceeded(s, response, uuid, history, v) =>
      FormSubmissionSucceededWithResponse(n, s, response, uuid, history, v)
    case OnSubmissionFailed(s, response) => FormSubmissionFailedWithResponse(n, s, response)
    case OnSubmissionErrored(s) => FormSubmissionErrored(n, s)
    case OnSubmissionFinished(s) => FormSubmissionFinished(n, s)
    case OnVisitStarted(v) => VisitStarted(n, v)
    case OnVisitCompleted(v) => VisitCompleted(n, v)
  }

  /** The final state and the whole effect log of a run of events. The
      background set only ever grows along a run. */
  function Run(n: Navigator, events: seq<Event>): (r: Step)
    ensures n.background <= r.nav.background
    decreases |events|
  {
    if |events| == 0 then Step(n, [])
    else
      var first := Apply(n, events[0]);
      var rest := Run(first.nav, events[1..]);
      Step(rest.nav, first.effects + rest.effects)
  }

  /** The identities handed out so far. */
  datatype Issued = Issued(submissions: set<SubmissionId>, visits: set<VisitId>)

  /** The submission identity an event constructs, if any. */
  function NewSubmissions(e: Event): set<SubmissionId> {
    if e.CallSubmit? then {e.submission} else {}
  }

  /** The visit identity an event may construct, if any. */
  function NewVisits(e: Event): set<VisitId> {
    if e.CallVisit? || e.OnSubmissionSucceeded? then {e.visit} else {}
  }

  /** The identities an event introduces have not been handed out before. */
  predicate Fresh(issued: Issued, e: Event) {
    NewSubmissions(e) !! issued.submissions && NewVisits(e) !! issued.visits
  }

  function Issue(issued: Issued, e: Event): Issued {
    Issued(issued.submissions + NewSubmissions(e), issued.visits + NewVisits(e))
  }

  /** Every event of the run introduces only fresh identities. */
  predicate FreshRun(issued: Issued, events: seq<Event>)
    decreases |events|
  {
    |events| == 0 || (Fresh(issued, events[0]) && FreshRun(Issue(issued, events[0]), events[1..]))
  }

  /** Every object the Navigator holds has an identity handed out before. */
  predicate Tracked(n: Navigator, issued: Issued) {
    && (n.foreground.Some? ==> n.foreground.value in issued.submissions)
    && n.background <= issued.submissions
    && (n.currentVisit.Some? ==> n.currentVisit.value.id in issued.visits)
  }

  /** A `start()` call on a submission or a visit. */
  predicate IsStart(x: Effect) {
    x.SubmissionStart? || x.VisitStart?
  }

  /** The start `x` concerns an identity the event `e` introduces. */
  predicate Introduces(e: Event, x: Effect) {
    || (x.SubmissionStart? && x.submission in NewSubmissions(e))
    || (x.VisitStart? && x.visit in NewVisits(e))
  }

  /** The start `x` concerns an identity already handed out. */
  predicate IssuedFor(issued: Issued, x: Effect) {
    || (x.SubmissionStart? && x.submission in issued.submissions)
    || (x.VisitStart? && x.visit in issued.visits)
  }

  /** How often `x` occurs in `log`. */
  function Count(log: seq<Effect>, x: Effect): nat
    decreases |log|
  {
    if |log| == 0 then 0 else (if log[0] == x then 1 else 0) + Count(log[1..], x)
  }

  lemma {:induction false} CountAppend(a: seq<Effect>, b: seq<Effect>, x: Effect)
    ensures Count(a + b, x) == Count(a, x) + Count(b, x)
    decreases |a|
  {
    if |a| == 0 {
      assert a + b == b;
    } else {
      assert (a + b)[0] == a[0];
      assert (a + b)[1..] == a[1..] + b;
      CountAppend(a[1..], b, x);
    }
  }

  lemma {:induction false} CountAbsent(log: seq<Effect>, x: Effect)
    requires x !in log
    ensures Count(log, x) == 0
    decreases |log|
  {
    if |log| > 0 {
      assert x !in log[1..];
      CountAbsent(log[1..], x);
    }
  }

  lemma {:induction false} CountPresent(log: seq<Effect>, x: Effect)
    requires x in log
    ensures Count(log, x) > 0
    decreases |log|
  {
    if log[0] != x {
      assert x in log[1..];
      CountPresent(log[1..], x);
    }
  }

  /** The effects one event may issue: forwarded visit notifications only;
      or the termination of `n`'s foreground activity; or a start of an
      identity the event introduces, as the last effect, after nothing or
      after that termination. */
  predicate StepShape(n: Navigator, e: Event, log: seq<Effect>) {
    || (forall x :: x in log ==> x.DelegateVisitStarted? || x.DelegateVisitCompleted?)
    || Terminates(n, log)
    || (&& |log| > 0 && IsStart(log[|log| - 1]) && Introduces(e, log[|log| - 1])
        && (|log| == 1 || Terminates(n, log[..|log| - 1])))
  }

  /** A `submit` has that shape: its start alone, or after the termination. */
  lemma SubmitShape(n: Navigator, s: SubmissionId, options: NavigationOptions)
    ensures StepShape(n, CallSubmit(s, options), Submit(n, s, options).effects)
  {
    var log := Submit(n, s, options).effects;
    assert log[|log| - 1] == SubmissionStart(s);
    if !IsBackground(options) {
      assert Terminates(n, log[..|log| - 1]);
    }
  }

  /** A `visit` has that shape: the termination, then its start. */
  lemma VisitShape(n: Navigator, location: Location, rid: string, options: NavigationOptions,
                   history: Location, v: VisitId)
    ensures StepShape(n, CallVisit(location, rid, options, history, v),
                      VisitLocation(n, location, rid, options, history, v).effects)
  {
    var log := VisitLocation(n, location, rid, options, history, v).effects;
    assert log[|log| - 1] == VisitStart(v);
    assert Terminates(n, log[..|log| - 1]);
  }

  /** A success callback has that shape: nothing, or the termination and
      then the start of the response visit. */
  lemma SucceededShape(n: Navigator, s: SubmissionId, response: FetchResponse, uuid: string,
                       history: Location, v: VisitId)
    ensures StepShape(n, OnSubmissionSucceeded(s, response, uuid, history, v),
                      FormSubmissionSucceededWithResponse(n, s, response, uuid, history, v).effects)
  {
    var log := FormSubmissionSucceededWithResponse(n, s, response, uuid, history, v).effects;
    if n.foreground == Some(s) && Truthy(response.responseHTML) {
      assert log[|log| - 1] == VisitStart(v);
      assert Terminates(n, log[..|log| - 1]);
    } else {
      assert log == [];
    }
  }

  /** Each event's effects have that shape. */
  lemma ApplyShape(n: Navigator, e: Event)
    ensures StepShape(n, e, Apply(n, e).effects)
  {
    match e
    case CallVisit(location, rid, options, history, v) => VisitShape(n, location, rid, options, history, v);
    case CallSubmit(s, options) => SubmitShape(n, s, options);
    case CallStop => assert Terminates(n, Stop(n).effects);
    case OnSubmissionSucceeded(s, response, uuid, history, v) => SucceededShape(n, s, response, uuid, history, v);
    case OnSubmissionStarted(_) =>
    case OnSubmissionFailed(_, _) =>
    case OnSubmissionErrored(_) =>
    case OnSubmissionFinished(_) =>
    case OnVisitStarted(_) =>
    case OnVisitCompleted(_) =>
  }

  /** In a log of that shape there is at most one start, the last effect,
      and every other effect is a `stop()` of the foreground submission,
      a `cancel()` of the current visit or a forwarded notification. */
  lemma ShapeEffects(n: Navigator, e: Event, log: seq<Effect>)
    requires StepShape(n, e, log)
    ensures || (forall x :: x in log ==> !IsStart(x))
            || (&& |log| > 0 && Introduces(e, log[|log| - 1])
                && forall x :: x in log[..|log| - 1] ==> !IsStart(x))
    ensures forall x :: x in log ==>
      || (x.SubmissionStop? && n.foreground == Some(x.submission))
      || (x.VisitCancel? && IsCurrentVisit(n, x.visit))
      || Introduces(e, x)
      || x.DelegateVisitStarted? || x.DelegateVisitCompleted?
  {
    if |log| > 0 && IsStart(log[|log| - 1]) {
      assert log == log[..|log| - 1] + [log[|log| - 1]];
    }
  }

  /** One event issues at most one start, as its last effect, and only for
      an identity the event introduces: only a `submit` starts a submission,
      and only a `visit` or a success callback starts a visit. Every other
      effect stops or cancels the foreground activity or forwards a visit
      notification. */
  lemma ApplyEffects(n: Navigator, e: Event)
    ensures var log := Apply(n, e).effects;
      || (forall x :: x in log ==> !IsStart(x))
      || (&& |log| > 0 && Introduces(e, log[|log| - 1])
          && forall x :: x in log[..|log| - 1] ==> !IsStart(x))
    ensures forall x :: x in Apply(n, e).effects ==>
      || (x.SubmissionStop? && n.foreground == Some(x.submission))
      || (x.VisitCancel? && IsCurrentVisit(n, x.visit))
      || Introduces(e, x)
      || x.DelegateVisitStarted? || x.DelegateVisitCompleted?
  {
    ApplyShape(n, e);
    ShapeEffects(n, e, Apply(n, e).effects);
  }

  /** Counting form of `ApplyEffects`: a start occurs at most once in one
      event's effects, and only if the event introduces its identity. */
  lemma ApplyStartCount(n: Navigator, e: Event, x: Effect)
    requires IsStart(x)
    ensures Count(Apply(n, e).effects, x) <= (if Introduces(e, x) then 1 else 0)
  {
    ApplyShape(n, e);
    ShapeStartCount(n, e, Apply(n, e).effects, x);
  }

  lemma ShapeStartCount(n: Navigator, e: Event, log: seq<Effect>, x: Effect)
    requires StepShape(n, e, log) && IsStart(x)
    ensures Count(log, x) <= (if Introduces(e, x) then 1 else 0)
  {
    ShapeEffects(n, e, log);
    if x !in log {
      CountAbsent(log, x);
    } else {
      var pre := log[..|log| - 1];
      var last := log[|log| - 1];
      assert log == pre + [last];
      assert x !in pre;
      CountAbsent(pre, x);
      CountAppend(pre, [last], x);
      assert Count([last], x) == (if last == x then 1 else 0) by {
        assert [last][1..] == [];
      }
    }
  }

  /** One event keeps the invariant and the bookkeeping of identities. */
  lemma ApplyPreservesValid(n: Navigator, issued: Issued, e: Event)
    requires Valid(n) && Tracked(n, issued) && Fresh(issued, e)
    ensures Valid(Apply(n, e).nav) && Tracked(Apply(n, e).nav, Issue(issued, e))
  {
  }

  /** Every run with fresh identities keeps the invariant: at most one
      foreground activity, and the foreground submission never in the
      background set. */
  lemma {:induction false} RunPreservesValid(n: Navigator, issued: Issued, events: seq<Event>)
    requires Valid(n) && Tracked(n, issued) && FreshRun(issued, events)
    ensures Valid(Run(n, events).nav)
    decreases |events|
  {
    if |events| > 0 {
      ApplyPreservesValid(n, issued, events[0]);
      RunPreservesValid(Apply(n, events[0]).nav, Issue(issued, events[0]), events[1..]);
    }
  }

  /** A background submission is never stopped, whatever happens in the
      foreground (that it never leaves the set is the contract of `Run`). */
  lemma {:induction false} BackgroundUndisturbed(n: Navigator, issued: Issued, events: seq<Event>, b: SubmissionId)
    requires Valid(n) && Tracked(n, issued) && FreshRun(issued, events)
    requires b in n.background
    ensures SubmissionStop(b) !in Run(n, events).effects
    decreases |events|
  {
    if |events| > 0 {
      var first := Apply(n, events[0]);
      ApplyEffects(n, events[0]);
      assert SubmissionStop(b) !in first.effects;
      ApplyPreservesValid(n, issued, events[0]);
      BackgroundUndisturbed(first.nav, Issue(issued, events[0]), events[1..], b);
    }
  }

  /** A `stop()` of a submission or a `cancel()` of a visit. */
  predicate IsTermination(x: Effect) {
    x.SubmissionStop? || x.VisitCancel?
  }

  /** `x` stops the foreground submission of `n` or cancels its current visit. */
  predicate TargetsForeground(n: Navigator, x: Effect) {
    || (x.SubmissionStop? && n.foreground == Some(x.submission))
    || (x.VisitCancel? && IsCurrentVisit(n, x.visit))
  }

  /** The stop or cancel `x` concerns an identity already handed out. */
  predicate IssuedTarget(issued: Issued, x: Effect) {
    || (x.SubmissionStop? && x.submission in issued.submissions)
    || (x.VisitCancel? && x.visit in issued.visits)
  }

  /** One event keeps the bookkeeping of identities. */
  lemma ApplyPreservesTracked(n: Navigator, issued: Issued, e: Event)
    requires Tracked(n, issued) && Fresh(issued, e)
    ensures Tracked(Apply(n, e).nav, Issue(issued, e))
  {
    match e
    case CallVisit(location, rid, options, history, v) =>
    case CallSubmit(s, options) =>
    case OnSubmissionSucceeded(s, response, uuid, history, v) =>
    case _ =>
  }

  /** One instance of the ordering of a termination log. */
  lemma TerminatesOrdered(n: Navigator, log: seq<Effect>, i: nat, j: nat)
    requires Terminates(n, log) && i < j < |log|
    ensures log[i].SubmissionStop? && log[j].VisitCancel?
  {
  }

  /** A termination log holds at most a stop and then a cancel. */
  lemma TerminatesShort(n: Navigator, log: seq<Effect>)
    requires Terminates(n, log)
    ensures |log| <= 2
  {
    if |log| > 2 {
      TerminatesOrdered(n, log, 0, 1);
      TerminatesOrdered(n, log, 1, 2);
    }
  }

  /** A termination log stops or cancels each foreground object of `n` at
      most once, and nothing else. */
  lemma TerminatesCount(n: Navigator, log: seq<Effect>, x: Effect)
    requires Terminates(n, log) && IsTermination(x)
    ensures Count(log, x) <= (if TargetsForeground(n, x) then 1 else 0)
  {
    TerminatesShort(n, log);
    if x !in log {
      CountAbsent(log, x);
    } else if |log| == 1 {
      assert log[1..] == [];
    } else {
      TerminatesOrdered(n, log, 0, 1);
      var tail := log[1..];
      assert tail == [log[1]] && tail[1..] == [];
      assert Count(tail, x) == (if log[1] == x then 1 else 0);
      assert Count(log, x) == (if log[0] == x then 1 else 0) + Count(tail, x);
    }
  }

  /** In a log of one event's shape, each stop or cancel occurs at most
      once, and only for a foreground object of `n`. */
  lemma ShapeTerminationCount(n: Navigator, e: Event, log: seq<Effect>, x: Effect)
    requires StepShape(n, e, log) && IsTermination(x)
    ensures Count(log, x) <= (if TargetsForeground(n, x) then 1 else 0)
  {
    if Terminates(n, log) {
      TerminatesCount(n, log, x);
    } else if |log| > 0 && IsStart(log[|log| - 1]) && (|log| == 1 || Terminates(n, log[..|log| - 1])) {
      StartAfterTerminationCount(n, log[..|log| - 1], log[|log| - 1], x);
      assert log == log[..|log| - 1] + [log[|log| - 1]];
    } else {
      assert x !in log;
      CountAbsent(log, x);
    }
  }

  /** A start appended to nothing or to a termination log adds no stop or
      cancel. */
  lemma StartAfterTerminationCount(n: Navigator, pre: seq<Effect>, last: Effect, x: Effect)
    requires IsStart(last) && (pre == [] || Terminates(n, pre)) && IsTermination(x)
    ensures Count(pre + [last], x) <= (if TargetsForeground(n, x) then 1 else 0)
  {
    CountAppend(pre, [last], x);
    assert [last][1..] == [];
    if pre != [] {
      TerminatesCount(n, pre, x);
    }
  }

  /** One event stops or cancels an object at most once, and only a
      foreground object of the state it is applied to. */
  lemma ApplyTerminationCount(n: Navigator, e: Event, x: Effect)
    requires IsTermination(x)
    ensures Count(Apply(n, e).effects, x) <= (if TargetsForeground(n, x) then 1 else 0)
  {
    ApplyShape(n, e);
    ShapeTerminationCount(n, e, Apply(n, e).effects, x);
  }

  /** An object stopped or cancelled by a fresh event is no longer a
      foreground object afterwards: its slot is empty or holds the object
      the event constructs. */
  lemma ApplyEndsTerminated(n: Navigator, issued: Issued, e: Event, x: Effect)
    requires Tracked(n, issued) && Fresh(issued, e) && IsTermination(x)
    requires x in Apply(n, e).effects
    ensures TargetsForeground(n, x) && IssuedTarget(issued, x)
    ensures !TargetsForeground(Apply(n, e).nav, x)
    ensures x.SubmissionStop? ==>
      Apply(n, e).nav.foreground == None || Apply(n, e).nav.foreground.value in NewSubmissions(e)
    ensures x.VisitCancel? ==>
      Apply(n, e).nav.currentVisit == None || Apply(n, e).nav.currentVisit.value.id in NewVisits(e)
  {
    ApplyTerminationCount(n, e, x);
    CountPresent(Apply(n, e).effects, x);
    match e
    case CallVisit(location, rid, options, history, v) =>
    case CallSubmit(s, options) =>
    case OnSubmissionSucceeded(s, response, uuid, history, v) =>
    case _ =>
  }

  /** A handed-out object that is not a foreground object does not become
      one through a fresh event: only new objects take the slots. */
  lemma ApplyKeepsUntargeted(n: Navigator, issued: Issued, e: Event, x: Effect)
    requires Fresh(issued, e) && IssuedTarget(issued, x) && !TargetsForeground(n, x)
    ensures !TargetsForeground(Apply(n, e).nav, x)
  {
    match e
    case CallVisit(location, rid, options, history, v) =>
    case CallSubmit(s, options) =>
    case OnSubmissionSucceeded(s, response, uuid, history, v) =>
    case _ =>
  }

  /** Once a handed-out submission is not the foreground one, no later event
      of a fresh run makes it the foreground one again. */
  lemma {:induction false} SupersededStaysSuperseded(n: Navigator, issued: Issued, events: seq<Event>, s: SubmissionId)
    requires Tracked(n, issued) && FreshRun(issued, events)
    requires s in issued.submissions && n.foreground != Some(s)
    ensures Run(n, events).nav.foreground != Some(s)
    decreases |events|
  {
    if |events| > 0 {
      var first := Apply(n, events[0]);
      ApplyKeepsUntargeted(n, issued, events[0], SubmissionStop(s));
      ApplyPreservesTracked(n, issued, events[0]);
      SupersededStaysSuperseded(first.nav, Issue(issued, events[0]), events[1..], s);
    }
  }

  /** How often a run from `n` may still stop or cancel the object of `x`:
      once if it is a foreground object of `n` or not handed out yet,
      otherwise never. */
  function Allowance(n: Navigator, issued: Issued, x: Effect): nat {
    if TargetsForeground(n, x) || !IssuedTarget(issued, x) then 1 else 0
  }

  /** One fresh event followed by a log within the allowance of the state
      it leads to stays within the allowance of the state before it. */
  lemma AllowanceStep(n: Navigator, issued: Issued, e: Event, tail: seq<Effect>, x: Effect)
    requires Tracked(n, issued) && Fresh(issued, e) && IsTermination(x)
    requires Count(tail, x) <= Allowance(Apply(n, e).nav, Issue(issued, e), x)
    ensures Count(Apply(n, e).effects + tail, x) <= Allowance(n, issued, x)
  {
    var log := Apply(n, e).effects;
    CountAppend(log, tail, x);
    ApplyTerminationCount(n, e, x);
    if x in log {
      ApplyEndsTerminated(n, issued, e, x);
    } else {
      CountAbsent(log, x);
      if !TargetsForeground(n, x) && IssuedTarget(issued, x) {
        ApplyKeepsUntargeted(n, issued, e, x);
      }
    }
  }

  /** Along a fresh run each stop or cancel stays within the allowance of
      the starting state. */
  lemma {:induction false} WithinAllowance(n: Navigator, issued: Issued, events: seq<Event>)
    requires Tracked(n, issued) && FreshRun(issued, events)
    ensures forall x :: IsTermination(x) ==> Count(Run(n, events).effects, x) <= Allowance(n, issued, x)
    decreases |events|
  {
    if |events| == 0 {
      forall x ensures Count(Run(n, events).effects, x) == 0 {
        CountAbsent([], x);
      }
    } else {
      var e := events[0];
      var first := Apply(n, e);
      var rest := Run(first.nav, events[1..]);
      ApplyPreservesTracked(n, issued, e);
      WithinAllowance(first.nav, Issue(issued, e), events[1..]);
      assert Run(n, events).effects == first.effects + rest.effects;
      forall x | IsTermination(x)
        ensures Count(first.effects + rest.effects, x) <= Allowance(n, issued, x)
      {
        AllowanceStep(n, issued, e, rest.effects, x);
      }
    }
  }

  /** Along a fresh run every submission receives `stop()` at most once and
      every visit receives `cancel()` at most once. An object already handed
      out receives it only if it is a foreground object at the start. */
  lemma TerminationsAtMostOnce(n: Navigator, issued: Issued, events: seq<Event>)
    requires Tracked(n, issued) && FreshRun(issued, events)
    ensures forall x :: IsTermination(x) ==> Count(Run(n, events).effects, x) <= Allowance(n, issued, x)
    ensures forall s :: Count(Run(n, events).effects, SubmissionStop(s)) <= 1
    ensures forall v :: Count(Run(n, events).effects, VisitCancel(v)) <= 1
  {
    WithinAllowance(n, issued, events);
  }

  /** A success callback from a superseded submission, arriving after any
      fresh run, changes nothing and starts no visit. */
  lemma {:induction false} LateSuccessIgnored(n: Navigator, issued: Issued, events: seq<Event>, s: SubmissionId,
                           response: FetchResponse, uuid: string, history: Location, v: VisitId)
    requires Tracked(n, issued) && FreshRun(issued, events)
    requires s in issued.submissions && n.foreground != Some(s)
    ensures var m := Run(n, events).nav;
            Apply(m, OnSubmissionSucceeded(s, response, uuid, history, v)) == Step(m, [])
  {
    SupersededStaysSuperseded(n, issued, events, s);
  }

  /** A success callback suspended at its `await` whose submission has been
      superseded by the time it resumes changes nothing, whatever ran in
      between. */
  lemma SupersededResumeIgnored(n: Navigator, issued: Issued, events: seq<Event>, p: Pending,
                                response: FetchResponse, uuid: string, history: Location, v: VisitId)
    requires Tracked(n, issued) && FreshRun(issued, events)
    requires p.submission in issued.submissions && n.foreground != Some(p.submission)
    ensures var m := Run(n, events).nav;
            ResumeSucceeded(m, p, response, uuid, history, v) == Step(m, [])
  {
    SupersededStaysSuperseded(n, issued, events, p.submission);
  }

  /** Along a fresh run every submission and every visit is started at most
      once, and only ones whose identity had not been handed out before. */
  lemma {:induction false} StartsAreFreshAndUnique(n: Navigator, issued: Issued, events: seq<Event>)
    requires FreshRun(issued, events)
    ensures forall x :: x in Run(n, events).effects && IsStart(x) ==> !IssuedFor(issued, x)
    ensures forall x :: IsStart(x) ==> Count(Run(n, events).effects, x) <= 1
    decreases |events|
  {
    if |events| > 0 {
      var e := events[0];
      var first := Apply(n, e);
      var rest := Run(first.nav, events[1..]);
      var issued' := Issue(issued, e);
      StartsAreFreshAndUnique(first.nav, issued', events[1..]);
      ApplyEffects(n, e);
      forall x | IsStart(x)
        ensures Count(first.effects + rest.effects, x) <= 1
        ensures x in first.effects + rest.effects ==> !IssuedFor(issued, x)
      {
        CountAppend(first.effects, rest.effects, x);
        ApplyStartCount(n, e, x);
        if Introduces(e, x) {
          assert IssuedFor(issued', x);
          CountAbsent(rest.effects, x);
        }
        if x in first.effects {
          CountPresent(first.effects, x);
        }
      }
    }
  }

  /** A run of two events is the two transitions one after the other. */
  lemma RunPair(n: Navigator, e1: Event, e2: Event)
    ensures var s1 := Apply(n, e1);
            var s2 := Apply(s1.nav, e2);
            Run(n, [e1, e2]) == Step(s2.nav, s1.effects + s2.effects)
  {
    var s1 := Apply(n, e1);
    var s2 := Apply(s1.nav, e2);
    assert [e1, e2][1..] == [e2];
    assert [e2][1..] == [];
    assert Run(s1.nav, [e2]) == Step(s2.nav, s2.effects + []);
    assert s2.effects + [] == s2.effects;
  }

  /** Two visits in a row: the first visit is cancelled before the second
      one starts, and only the second remains current. */
  lemma TwoVisitsScenario(l1: Location, l2: Location, r1: string, r2: string, h: Location, v1: VisitId, v2: VisitId)
    ensures var r := Run(Initial, [CallVisit(l1, r1, NoOptions, h, v1), CallVisit(l2, r2, NoOptions, h, v2)]);
            && r.effects == [VisitStart(v1), VisitCancel(v1), VisitStart(v2)]
            && r.nav.currentVisit.Some? && r.nav.currentVisit.value.id == v2
            && r.nav.currentVisit.value.location == l2
            && r.nav.currentVisit.value.restorationIdentifier == r2
            && r.nav.foreground == None
  {
    var e1 := CallVisit(l1, r1, NoOptions, h, v1);
    var e2 := CallVisit(l2, r2, NoOptions, h, v2);
    RunPair(Initial, e1, e2);
  }

  /** A background submission followed by a foreground one: both are
      started, neither is stopped, and each keeps its own slot. */
  lemma BackgroundThenForegroundScenario(a: SubmissionId, b: SubmissionId)
    ensures var r := Run(Initial, [CallSubmit(a, NoOptions.(target := Some(Background))),
                                   CallSubmit(b, NoOptions.(target := Some(Foreground)))]);
            && r.effects == [SubmissionStart(a), SubmissionStart(b)]
            && r.nav.foreground == Some(b)
            && a in r.nav.background
  {
    RunPair(Initial, CallSubmit(a, NoOptions.(target := Some(Background))),
            CallSubmit(b, NoOptions.(target := Some(Foreground))));
  }
}
