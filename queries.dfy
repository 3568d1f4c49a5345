/**
  The read queries of the review tool, shared by its variants: the
  dashboard counts, the joined and filtered candidate lists with their
  `ORDER BY`, the decision history, and the match-score tier the list and
  review screens colour scores by.
 */
module Queries {
  import opened Wrappers
  import opened Rows
  import opened Tables
  import Text

  // ---------------------------------------------------------------------------
  // Dashboard counts
  // ---------------------------------------------------------------------------

  /**
    `COUNT(*)` and the `SUM(CASE WHEN ... THEN 1 ELSE 0 END)` columns over
    DUPLICATE_CANDIDATES (`AVG(MATCH_SCORE)` is not modelled).
   */
  datatype CandidateCounts = CandidateCounts(
    total: nat,
    pending: nat,
    matched: nat,
    notMatched: nat,
    highPriorityPending: nat)

  /** What one row adds to each sum. */
  function RowCounts(c: Candidate): CandidateCounts {
    CandidateCounts(
      1,
      if c.status == Pending then 1 else 0,
      if c.status == Matched then 1 else 0,
      if c.status == NotMatched then 1 else 0,
      if c.priority == High && c.status == Pending then 1 else 0)
  }

  function Plus(a: CandidateCounts, b: CandidateCounts): CandidateCounts {
    CandidateCounts(a.total + b.total, a.pending + b.pending, a.matched + b.matched,
                    a.notMatched + b.notMatched, a.highPriorityPending + b.highPriorityPending)
  }

  /** The conditions inside the `SUM(CASE WHEN ...)` columns. */
  predicate IsPending(c: Candidate) { c.status == Pending }
  predicate IsMatched(c: Candidate) { c.status == Matched }
  predicate IsNotMatched(c: Candidate) { c.status == NotMatched }
  predicate IsHighPending(c: Candidate) { c.priority == High && c.status == Pending }

  /** The aggregate row of the dashboard metrics query, summed row by row. */
  function DashboardCounts(rows: seq<Candidate>): (m: CandidateCounts)
    ensures m.total == |rows|
    ensures m.pending + m.matched + m.notMatched <= m.total
    ensures m.highPriorityPending <= m.pending
  {
    if rows == [] then CandidateCounts(0, 0, 0, 0, 0)
    else Plus(RowCounts(rows[0]), DashboardCounts(rows[1..]))
  }

  /** Each column of the aggregate row is the number of rows meeting its condition. */
  lemma {:induction false} DashboardCountsAreCounts(rows: seq<Candidate>)
    ensures var m := DashboardCounts(rows);
            && m.pending == Count(rows, IsPending)
            && m.matched == Count(rows, IsMatched)
            && m.notMatched == Count(rows, IsNotMatched)
            && m.highPriorityPending == Count(rows, IsHighPending)
  {
    if rows != [] {
      DashboardCountsAreCounts(rows[1..]);
    }
  }

  /** An update that matches no row changes nothing. */
  lemma {:induction false} DecidedElsewhere(rows: seq<Candidate>, id: string, status: Status, agent: string)
    requires forall i :: 0 <= i < |rows| ==> rows[i].id != id
    ensures Decided(rows, id, status, agent) == rows
  {
    var r := Decided(rows, id, status, agent);
    assert forall i :: 0 <= i < |rows| ==> r[i] == rows[i];
  }

  /**
    Deciding a PENDING candidate (with a unique id) as MATCHED or NOT_MATCHED
    moves exactly one row out of the pending count and into that outcome's
    count; the total is unchanged.
   */
  lemma {:induction false} DecisionMovesOneRow(rows: seq<Candidate>, k: nat, status: Status, agent: string)
    requires UniqueIds(rows) && k < |rows| && rows[k].status == Pending
    requires status == Matched || status == NotMatched
    ensures var before := DashboardCounts(rows);
            var after := DashboardCounts(Decided(rows, rows[k].id, status, agent));
            && after.total == before.total
            && after.pending == before.pending - 1
            && after.matched == before.matched + (if status == Matched then 1 else 0)
            && after.notMatched == before.notMatched + (if status == NotMatched then 1 else 0)
            && after.highPriorityPending == before.highPriorityPending - (if rows[k].priority == High then 1 else 0)
  {
    var id := rows[k].id;
    var after := Decided(rows, id, status, agent);
    assert after == [after[0]] + Decided(rows[1..], id, status, agent);
    if k == 0 {
      assert forall i :: 0 <= i < |rows[1..]| ==> rows[1..][i].id != id by {
        forall i | 0 <= i < |rows[1..]| ensures rows[1..][i].id != id {
          assert rows[1..][i] == rows[i + 1];
        }
      }
      DecidedElsewhere(rows[1..], id, status, agent);
    } else {
      assert UniqueIds(rows[1..]) by {
        forall i, j | 0 <= i < j < |rows[1..]| ensures rows[1..][i].id != rows[1..][j].id {
          assert rows[1..][i] == rows[i + 1] && rows[1..][j] == rows[j + 1];
        }
      }
      assert rows[1..][k - 1] == rows[k];
      DecisionMovesOneRow(rows[1..], k - 1, status, agent);
    }
  }

  // ---------------------------------------------------------------------------
  // Candidate lists: JOIN CUSTOMERS, WHERE, ORDER BY
  // ---------------------------------------------------------------------------

  /** A candidate joined with the CUSTOMERS rows of both of its customers. */
  datatype JoinedRow = JoinedRow(candidate: Candidate, first: Customer, second: Customer)

  /** `x` is what the inner joins on CUSTOMER_ID_1 and CUSTOMER_ID_2 make of its candidate. */
  predicate Joined(x: JoinedRow, customers: map<string, Customer>) {
    && HasCustomers(x.candidate, customers)
    && x.first == customers[x.candidate.customer1] && x.second == customers[x.candidate.customer2]
  }

  /** The filter keys of the cluster screens: `cluster_id`, `customer`, `consultant`, `country`. */
  datatype FilterKey = ClusterIdFilter | CustomerFilter | ConsultantFilter | CountryFilter

  /** `filters.get(key)` is truthy. */
  predicate Active(filters: map<FilterKey, string>, key: FilterKey) {
    key in filters && filters[key] != ""
  }

  /**
    The filter conditions appended to the cluster queries. `LIKE '%v%'` is
    substring containment; a NULL ASSIGNED_TO or COUNTRY satisfies no
    condition on it. The consultant condition belongs only to the query of
    all clusters.
   */
  predicate PassesFilters(filters: map<FilterKey, string>, x: JoinedRow, withConsultant: bool) {
    && (Active(filters, ClusterIdFilter) ==> Text.Contains(x.candidate.id, filters[ClusterIdFilter]))
    && (Active(filters, CustomerFilter) ==>
          Text.Contains(x.candidate.customer1, filters[CustomerFilter])
          || Text.Contains(x.candidate.customer2, filters[CustomerFilter]))
    && (Active(filters, CountryFilter) ==> x.first.country == Some(filters[CountryFilter]))
    && (withConsultant && Active(filters, ConsultantFilter) ==>
          x.candidate.assignedTo.Some? && Text.Contains(x.candidate.assignedTo.value, filters[ConsultantFilter]))
  }

  /** The WHERE clause of each candidate list. */
  datatype Selection =
    | PendingQueue(priority: Option<Priority>)      // get_pending_candidates
    | PendingClusters(filters: map<FilterKey, string>)  // get_pending_clusters
    | AllClusters(filters: map<FilterKey, string>)      // get_all_clusters

  predicate Selects(sel: Selection, x: JoinedRow) {
    match sel
    case PendingQueue(p) => x.candidate.status == Pending && (p.Some? ==> x.candidate.priority == p.value)
    case PendingClusters(f) => x.candidate.status == Pending && PassesFilters(f, x, false)
    case AllClusters(f) => PassesFilters(f, x, true)
  }

  /** The joined rows that `sel` keeps, in table order (before any ORDER BY). */
  function Select(rows: seq<Candidate>, customers: map<string, Customer>, sel: Selection): (r: seq<JoinedRow>)
    ensures |r| <= |rows|
    ensures forall x :: x in r <==> x.candidate in rows && Joined(x, customers) && Selects(sel, x)
  {
    if rows == [] then []
    else
      var c := rows[0];
      var rest := Select(rows[1..], customers, sel);
      assert rows == [c] + rows[1..];
      if HasCustomers(c, customers)
         && Selects(sel, JoinedRow(c, customers[c.customer1], customers[c.customer2]))
      then [JoinedRow(c, customers[c.customer1], customers[c.customer2])] + rest
      else rest
  }

  /** A pending list never holds more rows than the dashboard counts as pending. */
  lemma {:induction false} PendingListBound(rows: seq<Candidate>, customers: map<string, Customer>, sel: Selection)
    requires sel.PendingQueue? || sel.PendingClusters?
    ensures |Select(rows, customers, sel)| <= DashboardCounts(rows).pending
  {
    if rows != [] {
      PendingListBound(rows[1..], customers, sel);
      var step := if rows[0].status == Pending then 1 else 0;
      assert DashboardCounts(rows).pending == step + DashboardCounts(rows[1..]).pending;
      assert |Select(rows, customers, sel)| <= step + |Select(rows[1..], customers, sel)|;
    }
  }

  /** With every customer present, the unfiltered work queue holds exactly the pending count. */
  lemma {:induction false} PendingQueueComplete(rows: seq<Candidate>, customers: map<string, Customer>)
    requires forall i :: 0 <= i < |rows| ==> HasCustomers(rows[i], customers)
    ensures |Select(rows, customers, PendingQueue(None))| == DashboardCounts(rows).pending
  {
    if rows != [] {
      assert forall i :: 0 <= i < |rows[1..]| ==> rows[1..][i] == rows[i + 1];
      PendingQueueComplete(rows[1..], customers);
    }
  }

  /** The `sort_by` columns of the work queue. */
  datatype SortColumn = ByMatchScore | ByCreatedDate

  function SortKey(c: Candidate, column: SortColumn): real {
    match column
    case ByMatchScore => c.score
    case ByCreatedDate => c.created as real
  }

  /** `a` may precede `b` under `ORDER BY column DESC`. */
  predicate KeyAtLeast(column: SortColumn, a: JoinedRow, b: JoinedRow) {
    SortKey(a.candidate, column) >= SortKey(b.candidate, column)
  }

  /**
    `get_pending_candidates(priority_filter, sort_by)`: the PENDING
    candidates whose two customers exist, of the given priority when one is
    given, highest `sort_by` first.
   */
  function PendingCandidates(rows: seq<Candidate>, customers: map<string, Customer>,
                             priority: Option<Priority>, sortBy: SortColumn): (r: seq<JoinedRow>)
    ensures forall x :: x in r <==>
      && x.candidate in rows && Joined(x, customers) && x.candidate.status == Pending
      && (priority.Some? ==> x.candidate.priority == priority.value)
    ensures multiset(r) == multiset(Select(rows, customers, PendingQueue(priority)))
    ensures forall i, j :: 0 <= i < j < |r| ==> KeyAtLeast(sortBy, r[i], r[j])
  {
    var selected := Select(rows, customers, PendingQueue(priority));
    var r := SortBy(selected, (a, b) => KeyAtLeast(sortBy, a, b));
    assert forall x :: x in r <==> x in multiset(r);
    assert forall x :: x in selected <==> x in multiset(selected);
    r
  }

  /** A candidate the work queue (with this priority filter) lists. */
  predicate Eligible(c: Candidate, customers: map<string, Customer>, priority: Option<Priority>) {
    && c.status == Pending && HasCustomers(c, customers)
    && (priority.Some? ==> c.priority == priority.value)
  }

  /** Every eligible candidate is outscored or tied by the first row of the queue. */
  lemma FirstPendingOutscores(rows: seq<Candidate>, customers: map<string, Customer>,
                              priority: Option<Priority>, i: nat)
    requires i < |rows| && Eligible(rows[i], customers, priority)
    ensures var r := PendingCandidates(rows, customers, priority, ByMatchScore);
            |r| > 0 && r[0].candidate.score >= rows[i].score
  {
    var c := rows[i];
    var x := JoinedRow(c, customers[c.customer1], customers[c.customer2]);
    var r := PendingCandidates(rows, customers, priority, ByMatchScore);
    assert x in r;
    var k :| 0 <= k < |r| && r[k] == x;
    assert k == 0 || KeyAtLeast(ByMatchScore, r[0], r[k]);
  }

  /**
    The work queue is empty exactly when no candidate is eligible; otherwise
    its first row (what the review screen falls back to) is an eligible
    candidate with the highest score of all eligible candidates.
   */
  lemma FirstPendingIsTop(rows: seq<Candidate>, customers: map<string, Customer>, priority: Option<Priority>)
    ensures var r := PendingCandidates(rows, customers, priority, ByMatchScore);
            && (|r| == 0 <==> forall i :: 0 <= i < |rows| ==> !Eligible(rows[i], customers, priority))
            && (|r| > 0 ==> IsTop(rows, customers, priority, r[0].candidate))
  {
    var r := PendingCandidates(rows, customers, priority, ByMatchScore);
    forall i | 0 <= i < |rows| && Eligible(rows[i], customers, priority)
      ensures |r| > 0 && r[0].candidate.score >= rows[i].score
    {
      FirstPendingOutscores(rows, customers, priority, i);
    }
    if |r| > 0 {
      assert r[0] in r;
    }
  }

  /** `c` is an eligible row of the table that no eligible row outscores. */
  predicate IsTop(rows: seq<Candidate>, customers: map<string, Customer>, priority: Option<Priority>, c: Candidate) {
    && c in rows && Eligible(c, customers, priority)
    && forall i :: 0 <= i < |rows| && Eligible(rows[i], customers, priority) ==> c.score >= rows[i].score
  }

  // ---------------------------------------------------------------------------
  // Decision history
  // ---------------------------------------------------------------------------

  /** A row of the history query: a decision joined with its candidate. */
  datatype HistoryRow = HistoryRow(
    at: Instant,
    agent: string,
    decision: Status,
    reason: string,
    notes: string,
    customer1: string,
    customer2: string,
    score: real)

  function HistoryRowOf(d: AgentDecision, c: Candidate): HistoryRow {
    HistoryRow(d.at, d.agent, d.decision, d.reason, d.notes, c.customer1, c.customer2, c.score)
  }

  /** The join of one decision with the candidates carrying its CANDIDATE_ID. */
  function RowsFor(d: AgentDecision, candidates: seq<Candidate>): (r: seq<HistoryRow>)
    ensures forall h :: h in r <==> exists j :: 0 <= j < |candidates| && candidates[j].id == d.candidateId
                                                && h == HistoryRowOf(d, candidates[j])
    ensures (forall j :: 0 <= j < |candidates| ==> candidates[j].id != d.candidateId) ==> r == []
    ensures UniqueIds(candidates) ==> |r| <= 1
  {
    if candidates == [] then []
    else
      var rest := RowsFor(d, candidates[1..]);
      assert forall j :: 1 <= j < |candidates| ==> candidates[j] == candidates[1..][j - 1];
      assert UniqueIds(candidates) ==> UniqueIds(candidates[1..]);
      if candidates[0].id == d.candidateId then [HistoryRowOf(d, candidates[0])] + rest else rest
  }

  /** `AGENT_DECISIONS ad JOIN DUPLICATE_CANDIDATES dc ON ad.CANDIDATE_ID = dc.CANDIDATE_ID`. */
  function DecisionJoin(decisions: seq<AgentDecision>, candidates: seq<Candidate>): (r: seq<HistoryRow>)
    ensures UniqueIds(candidates) ==> |r| <= |decisions|
  {
    if decisions == [] then [] else RowsFor(decisions[0], candidates) + DecisionJoin(decisions[1..], candidates)
  }

  /** Every decision whose CANDIDATE_ID has a candidate row yields a history row. */
  lemma {:induction false} DecisionJoinComplete(decisions: seq<AgentDecision>, candidates: seq<Candidate>, i: nat, j: nat)
    requires i < |decisions| && j < |candidates| && decisions[i].candidateId == candidates[j].id
    ensures HistoryRowOf(decisions[i], candidates[j]) in DecisionJoin(decisions, candidates)
  {
    if i == 0 {
      assert HistoryRowOf(decisions[0], candidates[j]) in RowsFor(decisions[0], candidates);
    } else {
      assert decisions[1..][i - 1] == decisions[i];
      DecisionJoinComplete(decisions[1..], candidates, i - 1, j);
    }
  }

  /** A history row joins some decision with its candidate. */
  lemma {:induction false} DecisionJoinRows(decisions: seq<AgentDecision>, candidates: seq<Candidate>, h: HistoryRow)
    requires h in DecisionJoin(decisions, candidates)
    ensures exists i, j :: 0 <= i < |decisions| && 0 <= j < |candidates|
                           && decisions[i].candidateId == candidates[j].id
                           && h == HistoryRowOf(decisions[i], candidates[j])
  {
    if h in RowsFor(decisions[0], candidates) {
      var j :| 0 <= j < |candidates| && candidates[j].id == decisions[0].candidateId
               && h == HistoryRowOf(decisions[0], candidates[j]);
      assert decisions[0].candidateId == candidates[j].id;
    } else {
      DecisionJoinRows(decisions[1..], candidates, h);
      var i, j :| 0 <= i < |decisions[1..]| && 0 <= j < |candidates|
                  && decisions[1..][i].candidateId == candidates[j].id
                  && h == HistoryRowOf(decisions[1..][i], candidates[j]);
      assert decisions[1..][i] == decisions[i + 1];
    }
  }

  /** `ORDER BY ad.DECISION_TIMESTAMP DESC`. */
  predicate NewerFirst(a: HistoryRow, b: HistoryRow) {
    NotBefore(a.at, b.at)
  }

  /**
    `get_decision_history(limit)`: the `limit` newest joined decisions
    (all of them when there are fewer), newest first. No row left out is
    newer than a row returned.
   */
  function DecisionHistory(decisions: seq<AgentDecision>, candidates: seq<Candidate>, limit: nat): (r: seq<HistoryRow>)
    ensures var joined := DecisionJoin(decisions, candidates);
            |r| == if |joined| <= limit then |joined| else limit
    ensures SortedBy(r, NewerFirst)
    ensures multiset(r) <= multiset(DecisionJoin(decisions, candidates))
    ensures forall h :: h in r ==> h in DecisionJoin(decisions, candidates)
    ensures |DecisionJoin(decisions, candidates)| <= limit ==> multiset(r) == multiset(DecisionJoin(decisions, candidates))
    ensures forall x, y :: x in r && y in multiset(DecisionJoin(decisions, candidates)) - multiset(r) ==> NewerFirst(x, y)
  {
    var joined := DecisionJoin(decisions, candidates);
    var sorted := SortBy(joined, NewerFirst);
    var r := Take(sorted, limit);
    TakeSorted(sorted, limit, NewerFirst);
    assert forall h :: h in r ==> h in multiset(sorted);
    r
  }

  /** The summary line of the history screen. */
  datatype HistorySummary = HistorySummary(matched: nat, notMatched: nat, total: nat)

  predicate IsMatchedRow(h: HistoryRow) { h.decision == Matched }
  predicate IsNotMatchedRow(h: HistoryRow) { h.decision == NotMatched }

  /**
    `len(history[history['DECISION'] == 'MATCHED'])`, the same for
    NOT_MATCHED, and `len(history)`.
   */
  function Summarize(history: seq<HistoryRow>): (s: HistorySummary)
    ensures s.total == |history|
    ensures s.matched == Count(history, IsMatchedRow)
    ensures s.notMatched == Count(history, IsNotMatchedRow)
    ensures s.matched + s.notMatched <= s.total
    ensures s.matched == 0 <==> forall i :: 0 <= i < |history| ==> history[i].decision != Matched
  {
    CountDisjoint(history, IsMatchedRow, IsNotMatchedRow);
    HistorySummary(Count(history, IsMatchedRow), Count(history, IsNotMatchedRow), |history|)
  }

  /**
    The history screen's total is the number of joined decisions, capped
    at `limit`, and the two outcome counts never exceed it.
   */
  lemma HistorySummaryBound(decisions: seq<AgentDecision>, candidates: seq<Candidate>, limit: nat)
    ensures var s := Summarize(DecisionHistory(decisions, candidates, limit));
            var joined := DecisionJoin(decisions, candidates);
            && s.total == (if |joined| <= limit then |joined| else limit)
            && s.matched + s.notMatched <= s.total
  {
  }

  // ---------------------------------------------------------------------------
  // Score tier
  // ---------------------------------------------------------------------------

  /** The CSS class of a match score: high, medium or low. */
  datatype Tier = HighTier | MediumTier | LowTier

  /** `'high' if score >= 85 else ('medium' if score >= 70 else 'low')`. */
  function ScoreTier(score: real): (t: Tier)
    ensures t == HighTier <==> score >= 85.0
    ensures t == MediumTier <==> 70.0 <= score < 85.0
    ensures t == LowTier <==> score < 70.0
  {
    if score >= 85.0 then HighTier else if score >= 70.0 then MediumTier else LowTier
  }

  function TierRank(t: Tier): nat {
    match t
    case LowTier => 0
    case MediumTier => 1
    case HighTier => 2
  }

  /** A higher score never gets a lower tier. */
  lemma TierMonotone(s1: real, s2: real)
    requires s1 <= s2
    ensures TierRank(ScoreTier(s1)) <= TierRank(ScoreTier(s2))
  {
  }
}
