/**
  The local-testing variant of the review tool. It shares the page router of
  App (the same session state and buttons); it differs in its metrics
  lookup, in escaping every text value of `record_decision`, and in not
  catching errors on the review page.
 */
module AppLocal {
  import opened Wrappers
  import opened Tables
  import opened Queries
  import Escaping
  import App

  /**
    `get_dashboard_metrics()`: the first row of the aggregate query, or None
    when the query failed (`result` is None) or returned no row.
   */
  function LocalMetrics(result: Option<seq<CandidateCounts>>): (m: Option<CandidateCounts>)
    ensures m.Some? <==> result.Some? && |result.value| > 0
    ensures m.Some? ==> m.value == result.value[0]
  {
    if result.Some? && |result.value| > 0 then Some(result.value[0]) else None
  }

  /** With the warehouse reachable, the sidebar shows the counts of the candidate table. */
  lemma ConnectedMetrics(rows: seq<Candidate>)
    ensures LocalMetrics(Some([DashboardCounts(rows)])) == Some(DashboardCounts(rows))
  {
  }

  /**
    `record_decision` of this variant: the text values are always escaped
    before they are placed between quotes, so they are stored as typed.
   */
  method RecordDecision(w: Warehouse, candidateId: string, agentName: string, decision: Status,
                        reason: string, notes: string, decisionId: string, sessionId: string, now: Instant)
    returns (id: string)
    modifies w
    ensures id == decisionId
    ensures w.decisions == old(w.decisions) + [AgentDecision(decisionId, candidateId, agentName, decision, reason, notes, sessionId, now)]
    ensures w.candidates == Decided(old(w.candidates), candidateId, decision, agentName)
    ensures Audited(old(w.candidates), old(w.decisions)) ==> Audited(w.candidates, w.decisions)
  {
    var reasonText := Escaping.Escape(reason);
    var notesText := Escaping.Escape(notes);
    var agentText := Escaping.Escape(agentName);
    Escaping.UnescapeEscape(reason);
    Escaping.UnescapeEscape(notes);
    Escaping.UnescapeEscape(agentName);
    // the warehouse reads each literal back
    var row := AgentDecision(decisionId, candidateId, Escaping.Unescape(agentText), decision,
                             Escaping.Unescape(reasonText), Escaping.Unescape(notesText), sessionId, now);
    if Audited(w.candidates, w.decisions) {
      RecordingKeepsAudited(w.candidates, w.decisions, row);
    }
    w.InsertDecision(row);
    w.UpdateCandidate(candidateId, decision, Escaping.Unescape(agentText));
    id := decisionId;
  }

  /**
    Drawing the review page: the fallback to the top of the work queue and
    the not-found case are as in App, but a missing customer row is not
    caught here: the run stops with an error (LoadError) and the selection
    stays.
   */
  method EnterReview(s: App.ReviewSession, w: Warehouse) returns (outcome: App.ReviewOutcome)
    modifies s
    ensures s.currentView == old(s.currentView)
    ensures outcome == App.AllCaughtUp <==>
              old(s.selectedCandidate).None? && forall i :: 0 <= i < |w.candidates| ==> !Eligible(w.candidates[i], w.customers, None)
    ensures outcome == App.NotFound <==>
              s.selectedCandidate.None? && outcome != App.AllCaughtUp
    ensures outcome == App.AllCaughtUp ==> s.selectedCandidate == None
    ensures old(s.selectedCandidate).Some? && outcome != App.NotFound ==>
              s.selectedCandidate == old(s.selectedCandidate)
    ensures outcome == App.LoadError ==>
              && s.selectedCandidate.Some?
              && FindCandidate(w.candidates, s.selectedCandidate.value).Some?
    ensures outcome.Showing? ==>
              && s.selectedCandidate.Some?
              && FindCandidate(w.candidates, s.selectedCandidate.value) == Some(outcome.candidate)
              && HasCustomers(outcome.candidate, w.customers)
              && outcome.first == w.customers[outcome.candidate.customer1]
              && outcome.second == w.customers[outcome.candidate.customer2]
    ensures outcome.Showing? && old(s.selectedCandidate).None? && UniqueIds(w.candidates) ==>
              IsTop(w.candidates, w.customers, None, outcome.candidate)
    ensures var target := App.ReviewTarget(old(s.selectedCandidate), w.candidates, w.customers);
            && (outcome == App.AllCaughtUp <==> target.None?)
            && (target.Some? ==>
                  var found := FindCandidate(w.candidates, target.value);
                  && (outcome == App.NotFound <==> found.None?)
                  && (outcome == App.LoadError <==> found.Some? && !HasCustomers(found.value, w.customers))
                  && (outcome == App.LoadError ==> s.selectedCandidate == target)
                  && (found.Some? && HasCustomers(found.value, w.customers) ==>
                        && outcome == App.Showing(found.value, w.customers[found.value.customer1],
                                                  w.customers[found.value.customer2])
                        && s.selectedCandidate == target))
  {
    if s.selectedCandidate.None? {
      var queue := PendingCandidates(w.candidates, w.customers, None, ByMatchScore);
      FirstPendingIsTop(w.candidates, w.customers, None);
      if |queue| == 0 {
        return App.AllCaughtUp;
      }
      s.selectedCandidate := Some(queue[0].candidate.id);
      if UniqueIds(w.candidates) {
        FindUnique(w.candidates, queue[0].candidate);
      }
    }
    var found := FindCandidate(w.candidates, s.selectedCandidate.value);
    if found.None? {
      s.selectedCandidate := None;
      return App.NotFound;
    }
    var c := found.value;
    if !HasCustomers(c, w.customers) {
      return App.LoadError;
    }
    outcome := App.Showing(c, w.customers[c.customer1], w.customers[c.customer2]);
  }

  /** "MATCH" / "NOT MATCH": records the decision and clears the selection. */
  method Decide(s: App.ReviewSession, w: Warehouse, agentName: string, decision: Status, reason: string, notes: string,
                decisionId: string, now: Instant)
    requires s.selectedCandidate.Some?
    requires decision == Matched || decision == NotMatched
    modifies s, w
    ensures w.decisions == old(w.decisions) + [AgentDecision(decisionId, old(s.selectedCandidate).value, agentName,
                                                            decision, reason, notes, s.sessionId, now)]
    ensures w.candidates == Decided(old(w.candidates), old(s.selectedCandidate).value, decision, agentName)
    ensures Audited(old(w.candidates), old(w.decisions)) ==> Audited(w.candidates, w.decisions)
    ensures s.selectedCandidate == None && s.currentView == old(s.currentView)
  {
    var _ := RecordDecision(w, s.selectedCandidate.value, agentName, decision, reason, notes,
                            decisionId, s.sessionId, now);
    s.selectedCandidate := None;
  }
}
