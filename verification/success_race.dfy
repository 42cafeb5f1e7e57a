/** The success callback of src/navigator.ts as written. It compares the
    reporting submission with the foreground one on entry and then awaits
    the response HTML; when it resumes, it starts the visit without looking
    again. A `visit` or `submit` issued during the await has already
    superseded the submission, yet it is the newer activity that gets
    cancelled. `Navigation.ResumeSucceeded` is the corrected resumption
    that checks again. */
module SuccessRace {
  import opened Wrappers
  import opened Navigation

  /** The resumption as written: it relies on the entry check alone. */
  function ResumeSucceededAsWritten(n: Navigator, p: Pending, response: FetchResponse, uuid: string,
                                    history: Location, v: VisitId): (r: Step)
    ensures !(p.admitted && Truthy(response.responseHTML)) ==> r == Step(n, [])
    ensures p.admitted && Truthy(response.responseHTML) ==>
      && r.nav.foreground == None
      && r.nav.background == n.background
      && r.nav.currentVisit == Some(Visit(v, response.location, uuid,
                                          NavigationOptions(None, Some(history), response.responseHTML)))
      && |r.effects| > 0 && r.effects[|r.effects| - 1] == VisitStart(v)
      && Terminates(n, r.effects[..|r.effects| - 1])
  {
    if p.admitted && Truthy(response.responseHTML) then
      StartVisit(n, response.location, uuid, NavigationOptions(None, None, response.responseHTML), history, v)
    else
      Step(n, [])
  }

  /** When nothing runs between entry and resumption the written callback
      and the corrected one agree, so the one-event model of the callback
      is the code's behaviour. */
  lemma AsWrittenAgreesWhenUninterrupted(n: Navigator, s: SubmissionId, response: FetchResponse,
                                         uuid: string, history: Location, v: VisitId)
    ensures var p := BeginSucceeded(n, s);
            ResumeSucceededAsWritten(n, p, response, uuid, history, v)
            == ResumeSucceeded(n, p, response, uuid, history, v)
            == FormSubmissionSucceededWithResponse(n, s, response, uuid, history, v)
  {
  }

  /** The discrepancy: a foreground submission's success callback enters,
      a `visit` to another location happens while the HTML is awaited, and
      the resumed callback cancels that newer visit and replaces it with a
      visit to the response location. */
  lemma AsWrittenCancelsNewerVisit(n: Navigator, s: SubmissionId, response: FetchResponse,
                                   uuid: string, history: Location, v: VisitId,
                                   location: Location, rid: string, options: NavigationOptions,
                                   history': Location, w: VisitId)
    requires n.foreground == Some(s) && Truthy(response.responseHTML) && v != w
    ensures var p := BeginSucceeded(n, s);
            var m := VisitLocation(n, location, rid, options, history', w).nav;
            var r := ResumeSucceededAsWritten(m, p, response, uuid, history, v);
            && p.admitted
            && m.foreground != Some(s)
            && VisitCancel(w) in r.effects
            && r.nav.currentVisit.value.id == v
  {
    var p := BeginSucceeded(n, s);
    var m := VisitLocation(n, location, rid, options, history', w).nav;
    var r := ResumeSucceededAsWritten(m, p, response, uuid, history, v);
    assert VisitCancel(w) in r.effects[..|r.effects| - 1];
  }

  /** The corrected resumption leaves the newer visit running. */
  lemma CheckedResumeKeepsNewerVisit(n: Navigator, s: SubmissionId, response: FetchResponse,
                                     uuid: string, history: Location, v: VisitId,
                                     location: Location, rid: string, options: NavigationOptions,
                                     history': Location, w: VisitId)
    requires n.foreground == Some(s)
    ensures var p := BeginSucceeded(n, s);
            var m := VisitLocation(n, location, rid, options, history', w).nav;
            ResumeSucceeded(m, p, response, uuid, history, v) == Step(m, [])
  {
  }
}
