/**
  The Snowflake-hosted variant of the review tool: recording a decision and
  the page router kept in the session state (`current_view`,
  `selected_candidate`, `session_id`).
 */
module App {
  import opened Wrappers
  import opened Tables
  import opened Queries

  /**
    `record_decision`: inserts the AGENT_DECISIONS row, then marks the
    candidate with the decision and the agent. The text values are stored as
    given; `decisionId` (a fresh UUID), `sessionId` and `now` (the default
    DECISION_TIMESTAMP) come from outside.
   */
  method RecordDecision(w: Warehouse, candidateId: string, agentName: string, decision: Status,
                        reason: string, notes: string, decisionId: string, sessionId: string, now: Instant)
    returns (id: string)
    modifies w
    ensures id == decisionId
    ensures w.decisions == old(w.decisions) + [AgentDecision(decisionId, candidateId, agentName, decision, reason, notes, sessionId, now)]
    ensures w.candidates == Decided(old(w.candidates), candidateId, decision, agentName)
    ensures Audited(old(w.candidates), old(w.decisions)) ==> Audited(w.candidates, w.decisions)
  {
    var row := AgentDecision(decisionId, candidateId, agentName, decision, reason, notes, sessionId, now);
    if Audited(w.candidates, w.decisions) {
      RecordingKeepsAudited(w.candidates, w.decisions, row);
    }
    w.InsertDecision(row);
    w.UpdateCandidate(candidateId, decision, agentName);
    id := decisionId;
  }

  /** The pages of the sidebar. */
  datatype View = DashboardView | WorkQueueView | ReviewView | HistoryView

  /** What the review page shows. */
  datatype ReviewOutcome =
    | AllCaughtUp                                              // nothing pending, the page stops
    | NotFound                                                 // the selected candidate has no row
    | LoadError                                                // a customer row is missing: the card cannot be drawn
    | Showing(candidate: Candidate, first: Customer, second: Customer)

  /**
    The candidate id the review page looks up: the selection, or with
    nothing selected the head of the work queue (`pending.iloc[0]`), or
    none when the queue is empty.
   */
  function ReviewTarget(selected: Option<string>, candidates: seq<Candidate>, customers: map<string, Customer>): Option<string> {
    if selected.Some? then selected
    else
      var queue := PendingCandidates(candidates, customers, None, ByMatchScore);
      if |queue| == 0 then None else Some(queue[0].candidate.id)
  }

  /** The session state of one browser session. */
  class ReviewSession {
    var currentView: View
    var selectedCandidate: Option<string>
    const sessionId: string

    /** A new session opens on the dashboard with nothing selected. */
    constructor (sessionId: string)
      ensures currentView == DashboardView && selectedCandidate == None
      ensures this.sessionId == sessionId
    {
      currentView := DashboardView;
      selectedCandidate := None;
      this.sessionId := sessionId;
    }

    /** A sidebar or dashboard button that switches the page; the selection is kept. */
    method Navigate(target: View)
      modifies this
      ensures currentView == target
      ensures selectedCandidate == old(selectedCandidate)
    {
      currentView := target;
    }

    /**
      "Start High Priority Review": selects the first HIGH priority pending
      candidate and opens the review page, or leaves everything as it was
      when there is none.
     */
    method StartHighPriorityReview(w: Warehouse) returns (started: bool)
      modifies this
      ensures var queue := PendingCandidates(w.candidates, w.customers, Some(High), ByMatchScore);
              && (started <==> |queue| > 0)
              && (started <==> exists i :: 0 <= i < |w.candidates| && Eligible(w.candidates[i], w.customers, Some(High)))
              && (started ==> currentView == ReviewView && selectedCandidate == Some(queue[0].candidate.id)
                              && IsTop(w.candidates, w.customers, Some(High), queue[0].candidate))
              && (!started ==> currentView == old(currentView) && selectedCandidate == old(selectedCandidate))
    {
      var queue := PendingCandidates(w.candidates, w.customers, Some(High), ByMatchScore);
      FirstPendingIsTop(w.candidates, w.customers, Some(High));
      if |queue| > 0 {
        selectedCandidate := Some(queue[0].candidate.id);
        currentView := ReviewView;
        started := true;
      } else {
        started := false;
      }
    }

    /** "Review →" on a work queue row. */
    method OpenReview(candidateId: string)
      modifies this
      ensures currentView == ReviewView && selectedCandidate == Some(candidateId)
    {
      selectedCandidate := Some(candidateId);
      currentView := ReviewView;
    }

    /**
      Drawing the review page. With nothing selected it falls back to the
      top of the work queue (or stops with "All caught up"); a selection
      without a row, or whose customers cannot be loaded, is cleared.
     */
    method EnterReview(w: Warehouse) returns (outcome: ReviewOutcome)
      modifies this
      ensures currentView == old(currentView)
      ensures outcome == AllCaughtUp <==>
                old(selectedCandidate).None? && forall i :: 0 <= i < |w.candidates| ==> !Eligible(w.candidates[i], w.customers, None)
      ensures outcome == AllCaughtUp ==> selectedCandidate == None
      ensures outcome == NotFound || outcome == LoadError ==> selectedCandidate == None
      ensures old(selectedCandidate).Some? && outcome != NotFound ==>
                FindCandidate(w.candidates, old(selectedCandidate).value).Some?
      ensures outcome.Showing? ==>
                && selectedCandidate.Some?
                && FindCandidate(w.candidates, selectedCandidate.value) == Some(outcome.candidate)
                && HasCustomers(outcome.candidate, w.customers)
                && outcome.first == w.customers[outcome.candidate.customer1]
                && outcome.second == w.customers[outcome.candidate.customer2]
                && (old(selectedCandidate).Some? ==> selectedCandidate == old(selectedCandidate))
      ensures outcome.Showing? && old(selectedCandidate).None? && UniqueIds(w.candidates) ==>
                IsTop(w.candidates, w.customers, None, outcome.candidate)
      ensures var target := ReviewTarget(old(selectedCandidate), w.candidates, w.customers);
              && (outcome == AllCaughtUp <==> target.None?)
              && (target.Some? ==>
                    var found := FindCandidate(w.candidates, target.value);
                    && (outcome == NotFound <==> found.None?)
                    && (outcome == LoadError <==> found.Some? && !HasCustomers(found.value, w.customers))
                    && (found.Some? && HasCustomers(found.value, w.customers) ==>
                          && outcome == Showing(found.value, w.customers[found.value.customer1],
                                                w.customers[found.value.customer2])
                          && selectedCandidate == target))
    {
      if selectedCandidate.None? {
        var queue := PendingCandidates(w.candidates, w.customers, None, ByMatchScore);
        FirstPendingIsTop(w.candidates, w.customers, None);
        if |queue| == 0 {
          return AllCaughtUp;
        }
        selectedCandidate := Some(queue[0].candidate.id);
        if UniqueIds(w.candidates) {
          FindUnique(w.candidates, queue[0].candidate);
        }
      }
      var found := FindCandidate(w.candidates, selectedCandidate.value);
      if found.None? {
        selectedCandidate := None;
        return NotFound;
      }
      var c := found.value;
      if !HasCustomers(c, w.customers) {
        selectedCandidate := None;
        return LoadError;
      }
      outcome := Showing(c, w.customers[c.customer1], w.customers[c.customer2]);
    }

    /**
      "MATCH - Same Person" / "NOT MATCH - Different People": records the
      decision for the selected candidate and clears the selection, so the
      page falls back to the top of the queue.
     */
    method Decide(w: Warehouse, agentName: string, decision: Status, reason: string, notes: string,
                  decisionId: string, now: Instant)
      requires selectedCandidate.Some?
      requires decision == Matched || decision == NotMatched
      modifies this, w
      ensures w.decisions == old(w.decisions) + [AgentDecision(decisionId, old(selectedCandidate).value, agentName,
                                                              decision, reason, notes, sessionId, now)]
      ensures w.candidates == Decided(old(w.candidates), old(selectedCandidate).value, decision, agentName)
      ensures Audited(old(w.candidates), old(w.decisions)) ==> Audited(w.candidates, w.decisions)
      ensures selectedCandidate == None && currentView == old(currentView)
    {
      var _ := RecordDecision(w, selectedCandidate.value, agentName, decision, reason, notes,
                              decisionId, sessionId, now);
      selectedCandidate := None;
    }

    /** "Skip for Now": clears the selection without recording anything. */
    method Skip()
      modifies this
      ensures selectedCandidate == None && currentView == old(currentView)
    {
      selectedCandidate := None;
    }
  }
}
