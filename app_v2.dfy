/**
  The branded "cluster" variant of the review tool: the greeting, the
  dashboard metrics over today, this week and this month, the pending count
  per Pacific country code, the filtered cluster lists, recording a decision
  with quoted text, and the page router of the session.
 */
module AppV2 {
  import opened Wrappers
  import opened Rows
  import opened Tables
  import opened Queries
  import Calendar
  import Text
  import Escaping

  // ---------------------------------------------------------------------------
  // Greeting
  // ---------------------------------------------------------------------------

  /** `get_greeting()` for the hour of the local clock. */
  function Greeting(hour: int): (g: string)
    requires 0 <= hour < 24
    ensures g == "Bula! Good Morning" <==> hour < 12
    ensures g == "Bula! Good Afternoon" <==> 12 <= hour < 17
    ensures g == "Bula! Good Evening" <==> 17 <= hour
  {
    if hour < 12 then "Bula! Good Morning"
    else if hour < 17 then "Bula! Good Afternoon"
    else "Bula! Good Evening"
  }

  // ---------------------------------------------------------------------------
  // Decision counts over date windows
  // ---------------------------------------------------------------------------

  /** `DATE(DECISION_TIMESTAMP) = day` or `DATE(DECISION_TIMESTAMP) >= day`, on day numbers. */
  datatype Window = OnDay(day: int) | SinceDay(day: int)

  predicate InWindow(w: Window, d: AgentDecision) {
    match w
    case OnDay(n) => d.at.day == n
    case SinceDay(n) => d.at.day >= n
  }

  /** The `*_completed`, `*_matched` and `*_rejected` columns of one window. */
  datatype WindowOutcomes = WindowOutcomes(completed: nat, matched: nat, rejected: nat)

  /** Componentwise at most. */
  predicate AtMost(a: WindowOutcomes, b: WindowOutcomes) {
    a.completed <= b.completed && a.matched <= b.matched && a.rejected <= b.rejected
  }

  /**
    The counts of one window with each `SUM` read as 0 when the window holds
    no decision (`COALESCE(SUM(...), 0)`), which is what the dashboard
    means to show.
   */
  function Outcomes(decisions: seq<AgentDecision>, w: Window): (o: WindowOutcomes)
    ensures o.matched + o.rejected <= o.completed <= |decisions|
    ensures o.completed == 0 <==> forall i :: 0 <= i < |decisions| ==> !InWindow(w, decisions[i])
  {
    if decisions == [] then WindowOutcomes(0, 0, 0)
    else
      var d := decisions[0];
      var rest := Outcomes(decisions[1..], w);
      assert forall i :: 1 <= i < |decisions| ==> decisions[i] == decisions[1..][i - 1];
      if InWindow(w, d) then
        WindowOutcomes(rest.completed + 1,
                       rest.matched + (if d.decision == Matched then 1 else 0),
                       rest.rejected + (if d.decision == NotMatched then 1 else 0))
      else rest
  }

  /** The condition of a window's `COUNT(*)`, and of its two `SUM(CASE WHEN ...)` columns. */
  function CompletedIn(w: Window): AgentDecision -> bool {
    d => InWindow(w, d)
  }

  function ConfirmedIn(w: Window): AgentDecision -> bool {
    d => InWindow(w, d) && d.decision == Matched
  }

  function RejectedIn(w: Window): AgentDecision -> bool {
    d => InWindow(w, d) && d.decision == NotMatched
  }

  /** Each column of a window is the number of decisions meeting its condition. */
  lemma {:induction false} OutcomesAreCounts(decisions: seq<AgentDecision>, w: Window)
    ensures Outcomes(decisions, w) == WindowOutcomes(Count(decisions, CompletedIn(w)),
                                                     Count(decisions, ConfirmedIn(w)),
                                                     Count(decisions, RejectedIn(w)))
  {
    if decisions != [] {
      OutcomesAreCounts(decisions[1..], w);
    }
  }

  /** A window that holds every decision of another counts at least as much. */
  lemma {:induction false} WiderWindowCountsMore(decisions: seq<AgentDecision>, narrow: Window, wide: Window)
    requires forall d :: InWindow(narrow, d) ==> InWindow(wide, d)
    ensures AtMost(Outcomes(decisions, narrow), Outcomes(decisions, wide))
  {
    if decisions != [] {
      WiderWindowCountsMore(decisions[1..], narrow, wide);
    }
  }

  /** `get_dashboard_metrics()`: the candidate counts and the three windows. */
  datatype Metrics = Metrics(counts: CandidateCounts, today: WindowOutcomes, week: WindowOutcomes, month: WindowOutcomes)

  /**
    The dashboard metrics on `today`: today's decisions, those since the
    Monday of this week, those since the first of this month. Today's counts
    never exceed the week's or the month's.
   */
  function DashboardMetrics(candidates: seq<Candidate>, decisions: seq<AgentDecision>, today: Calendar.Date): (m: Metrics)
    requires Calendar.Valid(today)
    ensures m.counts == DashboardCounts(candidates)
    ensures m.today == Outcomes(decisions, OnDay(Calendar.DayNumber(today)))
    ensures m.week == Outcomes(decisions, SinceDay(Calendar.WeekStart(today)))
    ensures m.month == Outcomes(decisions, SinceDay(Calendar.DayNumber(Calendar.MonthStart(today))))
    ensures AtMost(m.today, m.week) && AtMost(m.today, m.month)
  {
    var n := Calendar.DayNumber(today);
    var weekStart := Calendar.WeekStart(today);
    var monthStart := Calendar.DayNumber(Calendar.MonthStart(today));
    WiderWindowCountsMore(decisions, OnDay(n), SinceDay(weekStart));
    WiderWindowCountsMore(decisions, OnDay(n), SinceDay(monthStart));
    Metrics(DashboardCounts(candidates), Outcomes(decisions, OnDay(n)),
            Outcomes(decisions, SinceDay(weekStart)), Outcomes(decisions, SinceDay(monthStart)))
  }

  /**
    "This week" is not part of "this month": on Friday 2024-03-01 the week
    began on Monday 2024-02-26, so a decision of 2024-02-27 counts for the
    week but not for the month.
   */
  lemma WeekCanReachBeforeMonth()
    ensures Calendar.Valid(Calendar.Date(2024, 3, 1)) && Calendar.Valid(Calendar.Date(2024, 2, 27))
    ensures var today := Calendar.Date(2024, 3, 1);
            var d := Calendar.DayNumber(Calendar.Date(2024, 2, 27));
            Calendar.WeekStart(today) <= d < Calendar.DayNumber(Calendar.MonthStart(today))
  {
    var today := Calendar.Date(2024, 3, 1);
    assert Calendar.DayNumber(Calendar.Date(2024, 2, 27)) == Calendar.DayNumber(today) - 3;
    assert Calendar.Weekday(Calendar.DayNumber(today)) == 4;
  }

  /**
    One window as the dashboard query returns it: `COUNT(*)` is 0 over no
    rows, but `SUM(...)` over no rows is NULL.
   */
  datatype WindowSums = WindowSums(completed: nat, matched: Option<nat>, rejected: Option<nat>)

  function SummedAsWritten(decisions: seq<AgentDecision>, w: Window): (s: WindowSums)
    ensures s.completed == Outcomes(decisions, w).completed
    ensures s.matched.None? <==> s.completed == 0
    ensures s.rejected.None? <==> s.completed == 0
  {
    var o := Outcomes(decisions, w);
    if o.completed == 0 then WindowSums(0, None, None)
    else WindowSums(o.completed, Some(o.matched), Some(o.rejected))
  }

  /** `int(metrics[...])` of each column: a NULL raises, and the dashboard shows its error message instead. */
  function RenderWindow(s: WindowSums): (r: Option<WindowOutcomes>)
    ensures r.None? <==> s.matched.None? || s.rejected.None?
    ensures r.Some? ==> r.value == WindowOutcomes(s.completed, s.matched.value, s.rejected.value)
  {
    if s.matched.None? || s.rejected.None? then None
    else Some(WindowOutcomes(s.completed, s.matched.value, s.rejected.value))
  }

  /** As written, a window without decisions (a morning before the first one) breaks the dashboard. */
  lemma QuietWindowFailsToRender(decisions: seq<AgentDecision>, w: Window)
    requires forall i :: 0 <= i < |decisions| ==> !InWindow(w, decisions[i])
    ensures RenderWindow(SummedAsWritten(decisions, w)) == None
  {
  }

  /** Where the query's sums are not NULL, the written code shows the same counts as Outcomes. */
  lemma BusyWindowRendersOutcomes(decisions: seq<AgentDecision>, w: Window, i: nat)
    requires i < |decisions| && InWindow(w, decisions[i])
    ensures RenderWindow(SummedAsWritten(decisions, w)) == Some(Outcomes(decisions, w))
  {
  }

  /** With the sums read as 0, a quiet window shows zeros. */
  lemma QuietWindowShowsZero(decisions: seq<AgentDecision>, w: Window)
    requires forall i :: 0 <= i < |decisions| ==> !InWindow(w, decisions[i])
    ensures Outcomes(decisions, w) == WindowOutcomes(0, 0, 0)
  {
  }

  // ---------------------------------------------------------------------------
  // Pending clusters per country
  // ---------------------------------------------------------------------------

  /** `PACIFIC_COUNTRIES`: code and name, in display order. */
  const PacificCountries: seq<(string, string)> := [
    ("FJ", "Fiji"), ("NZ", "New Zealand"), ("AS", "American Samoa"), ("CK", "Cook Islands"),
    ("SB", "Solomon Islands"), ("TO", "Tonga"), ("VU", "Vanuatu"), ("WS", "Western Samoa"),
    ("Unknown", "Multiple/No Country Code")]

  /** A row of the country breakdown: `COALESCE(c1.COUNTRY, 'Unknown')` and a count. */
  datatype CountryCount = CountryCount(country: string, count: nat)

  function CountryLabel(c: Customer): string {
    match c.country
    case Some(name) => name
    case None => "Unknown"
  }

  /**
    `get_country_breakdown()`, one row per pending candidate whose first
    customer exists, labelled with that customer's country.
   */
  function CountryBreakdown(rows: seq<Candidate>, customers: map<string, Customer>): (r: seq<CountryCount>)
    ensures |r| <= |rows|
    ensures forall k :: 0 <= k < |r| ==> r[k].count == 1
  {
    if rows == [] then []
    else
      var c := rows[0];
      var rest := CountryBreakdown(rows[1..], customers);
      if c.status == Pending && c.customer1 in customers
      then [CountryCount(CountryLabel(customers[c.customer1]), 1)] + rest
      else rest
  }

  /** `country_data['COUNTRY'].str.upper().str.contains(code.upper())`. */
  predicate MatchesCode(row: CountryCount, code: string) {
    Text.Contains(Text.Upper(row.country), Text.Upper(code))
  }

  /** `int(matching['COUNT'].sum())`: the total of the rows whose country contains the code. */
  function MatchingTotal(rows: seq<CountryCount>, code: string): (n: nat)
    ensures n == 0 <== forall k :: 0 <= k < |rows| ==> !MatchesCode(rows[k], code)
  {
    if rows == [] then 0
    else (if MatchesCode(rows[0], code) then rows[0].count else 0) + MatchingTotal(rows[1..], code)
  }

  /** The number of pending candidates whose first customer exists and whose country label contains `code`. */
  function PendingInCountry(rows: seq<Candidate>, customers: map<string, Customer>, code: string): (n: nat)
    ensures n <= DashboardCounts(rows).pending
  {
    if rows == [] then 0
    else
      var c := rows[0];
      (if c.status == Pending && c.customer1 in customers
          && Text.Contains(Text.Upper(CountryLabel(customers[c.customer1])), Text.Upper(code)) then 1 else 0)
      + PendingInCountry(rows[1..], customers, code)
  }

  /** The tile of a code counts exactly the pending candidates of that country. */
  lemma {:induction false} TallyCountsPending(rows: seq<Candidate>, customers: map<string, Customer>, code: string)
    ensures MatchingTotal(CountryBreakdown(rows, customers), code) == PendingInCountry(rows, customers, code)
  {
    if rows != [] {
      TallyCountsPending(rows[1..], customers, code);
      var c := rows[0];
      var rest := CountryBreakdown(rows[1..], customers);
      if c.status == Pending && c.customer1 in customers {
        var row := CountryCount(CountryLabel(customers[c.customer1]), 1);
        assert CountryBreakdown(rows, customers) == [row] + rest;
        assert ([row] + rest)[1..] == rest;
      }
    }
  }

  /**
    The tiles under the dashboard: for each code of PACIFIC_COUNTRIES, the
    total of the breakdown rows whose country contains it (0 when the
    breakdown is empty or nothing matches).
   */
  method CountryTallies(rows: seq<CountryCount>) returns (tallies: seq<nat>)
    ensures |tallies| == |PacificCountries|
    ensures forall i :: 0 <= i < |PacificCountries| ==> tallies[i] == MatchingTotal(rows, PacificCountries[i].0)
  {
    tallies := [];
    var i := 0;
    while i < |PacificCountries|
      invariant 0 <= i <= |PacificCountries| && |tallies| == i
      invariant forall j :: 0 <= j < i ==> tallies[j] == MatchingTotal(rows, PacificCountries[j].0)
    {
      var code := PacificCountries[i].0;
      var count := 0;
      if |rows| > 0 {
        var total := MatchingTotal(rows, code);
        if total > 0 {
          count := total;
        }
      }
      tallies := tallies + [count];
      i := i + 1;
    }
  }

  /** A candidate without a country is counted on the "Unknown" tile. */
  lemma UnknownTileCountsMissingCountry(c: Candidate, customers: map<string, Customer>)
    requires c.status == Pending && c.customer1 in customers && customers[c.customer1].country.None?
    ensures PendingInCountry([c], customers, "Unknown") == 1
  {
    var shown := Text.Upper(CountryLabel(customers[c.customer1]));
    assert Text.OccursAt(shown, Text.Upper("Unknown"), 0);
  }

  // ---------------------------------------------------------------------------
  // Cluster lists
  // ---------------------------------------------------------------------------

  /**
    The filters dict of the review-clusters page: each text box that is
    filled in, the country unless it is "All", and nothing at all after
    "Clear".
   */
  method BuildFilters(cluster: string, customer: string, consultant: string, country: string, clear: bool)
    returns (filters: map<FilterKey, string>)
    ensures clear ==> filters == map[]
    ensures ClusterIdFilter in filters <==> cluster != "" && !clear
    ensures CustomerFilter in filters <==> customer != "" && !clear
    ensures ConsultantFilter in filters <==> consultant != "" && !clear
    ensures CountryFilter in filters <==> country != "" && country != "All" && !clear
    ensures ClusterIdFilter in filters ==> filters[ClusterIdFilter] == cluster
    ensures CustomerFilter in filters ==> filters[CustomerFilter] == customer
    ensures ConsultantFilter in filters ==> filters[ConsultantFilter] == consultant
    ensures CountryFilter in filters ==> filters[CountryFilter] == country
    ensures forall k :: k in filters ==> Active(filters, k)
  {
    filters := map[];
    if cluster != "" && !clear {
      filters := filters[ClusterIdFilter := cluster];
    }
    if customer != "" && !clear {
      filters := filters[CustomerFilter := customer];
    }
    if consultant != "" && !clear {
      filters := filters[ConsultantFilter := consultant];
    }
    if country != "" && country != "All" && !clear {
      filters := filters[CountryFilter := country];
    }
  }

  /** With no filter set, every joined cluster passes. */
  lemma NoFiltersPassAll(x: JoinedRow, withConsultant: bool)
    ensures PassesFilters(map[], x, withConsultant)
  {
  }

  /** A pending candidate whose first customer has COUNTRY `FJ` is counted on the FJ tile. */
  lemma CodedCountryOnTile(c: Candidate, customers: map<string, Customer>)
    requires c.status == Pending && c.customer1 in customers && customers[c.customer1].country == Some("FJ")
    ensures PendingInCountry([c], customers, "FJ") == 1
  {
    assert Text.OccursAt(Text.Upper("FJ"), Text.Upper("FJ"), 0);
  }

  /** Choosing "Fiji" in the country filter only lists clusters whose COUNTRY is exactly `Fiji`. */
  lemma NamedCountryFilter(x: JoinedRow, withConsultant: bool)
    requires x.first.country == Some("FJ")
    ensures !PassesFilters(map[CountryFilter := "Fiji"], x, withConsultant)
  {
    assert "FJ" != "Fiji" by { assert |"FJ"| != |"Fiji"|; }
  }

  /**
    The country filter compares COUNTRY with the country NAME chosen in the
    list, while the tiles look for the CODE inside COUNTRY: a cluster whose
    first customer has COUNTRY `FJ` is counted on the FJ tile while pending
    (CodedCountryOnTile), yet neither cluster list shows it when "Fiji" is
    chosen.
   */
  lemma NamedFilterListsMissCode(c: Candidate, customers: map<string, Customer>)
    requires customers.Keys >= {c.customer1} && customers[c.customer1].country == Some("FJ")
    ensures AllClusterList([c], customers, map[CountryFilter := "Fiji"]) == []
    ensures PendingClusterList([c], customers, map[CountryFilter := "Fiji"]) == []
  {
    var all := AllClusterList([c], customers, map[CountryFilter := "Fiji"]);
    if all != [] {
      assert all[0] in all;
      NamedCountryFilter(all[0], true);
    }
    var pending := PendingClusterList([c], customers, map[CountryFilter := "Fiji"]);
    if pending != [] {
      assert pending[0] in pending;
      NamedCountryFilter(pending[0], false);
    }
  }

  /** `ORDER BY dc.MATCH_SCORE DESC, dc.CREATED_DATE`. */
  predicate ScoreThenOlder(a: JoinedRow, b: JoinedRow) {
    a.candidate.score > b.candidate.score
    || (a.candidate.score == b.candidate.score && a.candidate.created <= b.candidate.created)
  }

  /** `ORDER BY dc.CREATED_DATE DESC`. */
  predicate NewerCreated(a: JoinedRow, b: JoinedRow) {
    a.candidate.created >= b.candidate.created
  }

  lemma ClusterOrdersArePreorders()
    ensures TotalPreorder(ScoreThenOlder) && TotalPreorder(NewerCreated)
  {
  }

  /**
    `get_pending_clusters(filters)`: the pending clusters passing the
    cluster, customer and country filters (the consultant filter is not
    applied here), highest score first and the older first among equal
    scores.
   */
  function PendingClusterList(rows: seq<Candidate>, customers: map<string, Customer>, filters: map<FilterKey, string>): (r: seq<JoinedRow>)
    ensures forall x :: x in r <==>
      x.candidate in rows && Joined(x, customers) && x.candidate.status == Pending && PassesFilters(filters, x, false)
    ensures multiset(r) == multiset(Select(rows, customers, PendingClusters(filters)))
    ensures SortedBy(r, ScoreThenOlder)
  {
    ClusterOrdersArePreorders();
    var selected := Select(rows, customers, PendingClusters(filters));
    var r := SortBy(selected, ScoreThenOlder);
    assert forall x :: x in r <==> x in multiset(r);
    assert forall x :: x in selected <==> x in multiset(selected);
    r
  }

  /** `get_all_clusters(filters)`: every cluster passing all four filters, newest first. */
  function AllClusterList(rows: seq<Candidate>, customers: map<string, Customer>, filters: map<FilterKey, string>): (r: seq<JoinedRow>)
    ensures forall x :: x in r <==> x.candidate in rows && Joined(x, customers) && PassesFilters(filters, x, true)
    ensures multiset(r) == multiset(Select(rows, customers, AllClusters(filters)))
    ensures SortedBy(r, NewerCreated)
  {
    ClusterOrdersArePreorders();
    var selected := Select(rows, customers, AllClusters(filters));
    var r := SortBy(selected, NewerCreated);
    assert forall x :: x in r <==> x in multiset(r);
    assert forall x :: x in selected <==> x in multiset(selected);
    r
  }

  /** The CONFIRMED and REVIEWED columns of the cluster list. */
  datatype ClusterFlags = ClusterFlags(confirmed: bool, reviewed: bool)

  function Flags(c: Candidate): (f: ClusterFlags)
    ensures f.confirmed <==> c.status == Matched
    ensures f.reviewed <==> c.status != Pending
    ensures f.confirmed ==> f.reviewed
  {
    ClusterFlags(c.status == Matched, c.status != Pending)
  }

  /** The last column of a cluster row: a badge for a decided cluster, else a Review button. */
  datatype RowAction = ConfirmedBadge | RejectedBadge | ReviewButton

  function Action(c: Candidate): (a: RowAction)
    ensures a == ConfirmedBadge <==> Flags(c).confirmed
    ensures a == RejectedBadge <==> c.status == NotMatched
    ensures a == ReviewButton <==> !Flags(c).reviewed || c.status.OtherStatus?
  {
    match c.status
    case Matched => ConfirmedBadge
    case NotMatched => RejectedBadge
    case _ => ReviewButton
  }

  // ---------------------------------------------------------------------------
  // Recording a decision
  // ---------------------------------------------------------------------------

  /** `s.replace("'", "''") if s else ''`. */
  function EscapeOrEmpty(s: string): (r: string)
    ensures Escaping.Paired(r)
    ensures Escaping.Unescape(r) == s
  {
    Escaping.EscapePaired(s);
    Escaping.UnescapeEscape(s);
    if s == "" then "" else Escaping.Escape(s)
  }

  /**
    `record_decision` of this variant: reason, notes and agent name are
    escaped before they are placed between quotes, so the warehouse stores
    them exactly as typed, quotes included.
   */
  method RecordDecision(w: Warehouse, clusterId: string, agentName: string, decision: Status,
                        reason: string, notes: string, decisionId: string, sessionId: string, now: Instant)
    returns (id: string)
    modifies w
    ensures id == decisionId
    ensures w.decisions == old(w.decisions) + [AgentDecision(decisionId, clusterId, agentName, decision, reason, notes, sessionId, now)]
    ensures w.candidates == Decided(old(w.candidates), clusterId, decision, agentName)
    ensures Audited(old(w.candidates), old(w.decisions)) ==> Audited(w.candidates, w.decisions)
  {
    var reasonText := EscapeOrEmpty(reason);
    var notesText := EscapeOrEmpty(notes);
    var agentText := EscapeOrEmpty(agentName);
    // the warehouse reads each literal back
    var row := AgentDecision(decisionId, clusterId, Escaping.Unescape(agentText), decision,
                             Escaping.Unescape(reasonText), Escaping.Unescape(notesText), sessionId, now);
    if Audited(w.candidates, w.decisions) {
      RecordingKeepsAudited(w.candidates, w.decisions, row);
    }
    w.InsertDecision(row);
    w.UpdateCandidate(clusterId, decision, Escaping.Unescape(agentText));
    id := decisionId;
  }

  // ---------------------------------------------------------------------------
  // Session and pages
  // ---------------------------------------------------------------------------

  datatype View = DashboardView | ReviewClustersView | ReviewMatchesView | CompareView | AdminView

  /** What the compare page shows. */
  datatype CompareOutcome =
    | NoSelection                                             // "No cluster selected", the page stops
    | ClusterNotFound                                         // the selected cluster has no row
    | CompareError                                            // a customer row is missing: the card cannot be drawn
    | Comparing(cluster: Candidate, first: Customer, second: Customer)

  class ClusterSession {
    var currentView: View
    var selectedCluster: Option<string>
    var agentName: string
    const sessionId: string

    /** A new session opens on the dashboard, nothing selected, agent name "Agent". */
    constructor (sessionId: string)
      ensures currentView == DashboardView && selectedCluster == None && agentName == "Agent"
      ensures this.sessionId == sessionId
    {
      currentView := DashboardView;
      selectedCluster := None;
      agentName := "Agent";
      this.sessionId := sessionId;
    }

    /** The "Your Name" box of the settings. */
    method SetAgentName(name: string)
      modifies this
      ensures agentName == name
      ensures currentView == old(currentView) && selectedCluster == old(selectedCluster)
    {
      if name != agentName {
        agentName := name;
      }
    }

    /** A dashboard or "← Back" button; the selection is kept. */
    method Navigate(target: View)
      modifies this
      ensures currentView == target
      ensures selectedCluster == old(selectedCluster) && agentName == old(agentName)
    {
      currentView := target;
    }

    /** "Review" or "Review →" on a cluster row: opens the compare page on it. */
    method OpenCluster(clusterId: string)
      modifies this
      ensures currentView == CompareView && selectedCluster == Some(clusterId)
      ensures agentName == old(agentName)
    {
      selectedCluster := Some(clusterId);
      currentView := CompareView;
    }

    /**
      Drawing the compare page. Unlike the other variant there is no
      fallback: with nothing selected the page stops. A selection without a
      row, or whose customers cannot be loaded, is cleared.
     */
    method EnterCompare(w: Warehouse) returns (outcome: CompareOutcome)
      modifies this
      ensures currentView == old(currentView) && agentName == old(agentName)
      ensures outcome == NoSelection <==> old(selectedCluster).None?
      ensures outcome == ClusterNotFound <==>
                old(selectedCluster).Some? && FindCandidate(w.candidates, old(selectedCluster).value).None?
      ensures outcome == NoSelection ==> selectedCluster == None
      ensures outcome == ClusterNotFound || outcome == CompareError ==> selectedCluster == None
      ensures outcome.Comparing? ==>
                && selectedCluster == old(selectedCluster) && selectedCluster.Some?
                && FindCandidate(w.candidates, selectedCluster.value) == Some(outcome.cluster)
                && HasCustomers(outcome.cluster, w.customers)
                && outcome.first == w.customers[outcome.cluster.customer1]
                && outcome.second == w.customers[outcome.cluster.customer2]
      ensures old(selectedCluster).Some? ==>
                var found := FindCandidate(w.candidates, old(selectedCluster).value);
                && (outcome == CompareError <==>
                      found.Some? && !HasCustomers(found.value, w.customers))
                && (found.Some? && HasCustomers(found.value, w.customers) ==>
                      outcome == Comparing(found.value, w.customers[found.value.customer1],
                                           w.customers[found.value.customer2]))
    {
      if selectedCluster.None? {
        return NoSelection;
      }
      var found := FindCandidate(w.candidates, selectedCluster.value);
      if found.None? {
        selectedCluster := None;
        return ClusterNotFound;
      }
      var c := found.value;
      if !HasCustomers(c, w.customers) {
        selectedCluster := None;
        return CompareError;
      }
      outcome := Comparing(c, w.customers[c.customer1], w.customers[c.customer2]);
    }

    /**
      "CONFIRM MATCH" / "REJECT - Not a Match": records the decision under
      the session's agent name and clears the selection; the page stays on
      compare, which then has nothing selected.
     */
    method Decide(w: Warehouse, decision: Status, reason: string, notes: string, decisionId: string, now: Instant)
      requires selectedCluster.Some?
      requires decision == Matched || decision == NotMatched
      modifies this, w
      ensures w.decisions == old(w.decisions) + [AgentDecision(decisionId, old(selectedCluster).value, agentName,
                                                              decision, reason, notes, sessionId, now)]
      ensures w.candidates == Decided(old(w.candidates), old(selectedCluster).value, decision, agentName)
      ensures Audited(old(w.candidates), old(w.decisions)) ==> Audited(w.candidates, w.decisions)
      ensures selectedCluster == None && currentView == old(currentView) && agentName == old(agentName)
    {
      var _ := RecordDecision(w, selectedCluster.value, agentName, decision, reason, notes,
                              decisionId, sessionId, now);
      selectedCluster := None;
    }

    /** "Skip": clears the selection and returns to the pending matches. */
    method Skip()
      modifies this
      ensures selectedCluster == None && currentView == ReviewMatchesView && agentName == old(agentName)
    {
      selectedCluster := None;
      currentView := ReviewMatchesView;
    }
  }
}
