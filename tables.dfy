/**
  The warehouse tables the review tool reads and writes: CUSTOMERS (read
  only here), DUPLICATE_CANDIDATES and AGENT_DECISIONS, and the two write
  statements every variant of `record_decision` issues.
 */
module Tables {
  import opened Wrappers

  /**
    A STATUS of DUPLICATE_CANDIDATES or a DECISION of AGENT_DECISIONS:
    'PENDING', 'MATCHED', 'NOT_MATCHED', or any other text the column holds.
    `OtherStatus` stands only for a text other than those three (see
    `KnownName`), so each status has one representation.
   */
  datatype Status = Pending | Matched | NotMatched | OtherStatus(text: string)

  /** The column text of the three statuses the code writes and tests for. */
  predicate KnownName(text: string) {
    text == "PENDING" || text == "MATCHED" || text == "NOT_MATCHED"
  }

  /** The status a STATUS or DECISION column text denotes. */
  function ParseStatus(text: string): (s: Status)
    ensures s.OtherStatus? <==> !KnownName(text)
    ensures s.OtherStatus? ==> s.text == text
    ensures s == Pending <==> text == "PENDING"
    ensures s == Matched <==> text == "MATCHED"
    ensures s == NotMatched <==> text == "NOT_MATCHED"
  {
    if text == "PENDING" then Pending
    else if text == "MATCHED" then Matched
    else if text == "NOT_MATCHED" then NotMatched
    else OtherStatus(text)
  }

  /** PRIORITY, assigned upstream. */
  datatype Priority = High | Medium | Low

  /** A column value: SQL NULL (Python `None`), or a value known by its `str()` rendering. */
  datatype Value = Null | Val(text: string)

  /** A CUSTOMERS row: its key, its COUNTRY and its other columns by name. */
  datatype Customer = Customer(id: string, country: Option<string>, fields: map<string, Value>)

  /** The value of column `key`, as `row.get(key)` gives it. */
  function Field(c: Customer, key: string): Value {
    if key in c.fields then c.fields[key] else Null
  }

  /** A DUPLICATE_CANDIDATES row; `created` is CREATED_DATE as a number that orders like it. */
  datatype Candidate = Candidate(
    id: string,
    customer1: string,
    customer2: string,
    score: real,
    reason: string,
    priority: Priority,
    status: Status,
    assignedTo: Option<string>,
    created: int)

  /** DECISION_TIMESTAMP: the day number of its date (see Calendar.DayNumber) and the second within that day. */
  datatype Instant = Instant(day: int, second: nat)

  /** `a` is at or after `b`. */
  predicate NotBefore(a: Instant, b: Instant) {
    a.day > b.day || (a.day == b.day && a.second >= b.second)
  }

  /** An AGENT_DECISIONS row. */
  datatype AgentDecision = AgentDecision(
    id: string,
    candidateId: string,
    agent: string,
    decision: Status,
    reason: string,
    notes: string,
    sessionId: string,
    at: Instant)

  /** Both customer rows of a candidate exist, so both sides of the `JOIN` (or lookup) find a row. */
  predicate HasCustomers(c: Candidate, customers: map<string, Customer>) {
    c.customer1 in customers && c.customer2 in customers
  }

  /** CANDIDATE_ID identifies a row of DUPLICATE_CANDIDATES. */
  predicate UniqueIds(rows: seq<Candidate>) {
    forall i, j :: 0 <= i < j < |rows| ==> rows[i].id != rows[j].id
  }

  /**
    `SELECT * FROM DUPLICATE_CANDIDATES WHERE CANDIDATE_ID = id`, then the first
    row or `None` when there is none (`get_candidate_details`, `get_cluster_details`).
   */
  function FindCandidate(rows: seq<Candidate>, id: string): (r: Option<Candidate>)
    ensures r.None? <==> forall i :: 0 <= i < |rows| ==> rows[i].id != id
    ensures r.Some? ==> exists i :: 0 <= i < |rows| && rows[i] == r.value && rows[i].id == id
                                    && forall j :: 0 <= j < i ==> rows[j].id != id
  {
    if rows == [] then None
    else if rows[0].id == id then Some(rows[0])
    else
      var r := FindCandidate(rows[1..], id);
      assert forall i :: 1 <= i < |rows| ==> rows[i] == rows[1..][i - 1];
      r
  }

  /** With unique keys, looking up a row's key finds that row. */
  lemma FindUnique(rows: seq<Candidate>, c: Candidate)
    requires UniqueIds(rows) && c in rows
    ensures FindCandidate(rows, c.id) == Some(c)
  {
    var k :| 0 <= k < |rows| && rows[k] == c;
  }

  /** The SET clause of the status update applied to one row. */
  function Assign(row: Candidate, status: Status, agent: string): Candidate {
    row.(status := status, assignedTo := Some(agent))
  }

  /**
    `UPDATE DUPLICATE_CANDIDATES SET STATUS = status, ASSIGNED_TO = agent
    WHERE CANDIDATE_ID = id`. There is no condition on the current STATUS:
    a row that is already MATCHED or NOT_MATCHED is overwritten too.
   */
  function Decided(rows: seq<Candidate>, id: string, status: Status, agent: string): (r: seq<Candidate>)
    ensures |r| == |rows|
    ensures forall i :: 0 <= i < |rows| && rows[i].id == id ==>
      r[i].status == status && r[i].assignedTo == Some(agent) && r[i] == Assign(rows[i], status, agent)
    ensures forall i :: 0 <= i < |rows| && rows[i].id != id ==> r[i] == rows[i]
    ensures forall i :: 0 <= i < |rows| ==> r[i].id == rows[i].id
  {
    if rows == [] then []
    else
      var rest := Decided(rows[1..], id, status, agent);
      [if rows[0].id == id then Assign(rows[0], status, agent) else rows[0]] + rest
  }

  /** Nothing restricts the update to PENDING rows: a decided row can be decided again, the other way. */
  lemma NoPendingGuard(c: Candidate, agent: string)
    requires c.status == Matched
    ensures Decided([c], c.id, NotMatched, agent) == [c.(status := NotMatched, assignedTo := Some(agent))]
  {
  }

  /** The update keeps the keys, so it keeps them unique. */
  lemma DecidedKeepsIds(rows: seq<Candidate>, id: string, status: Status, agent: string)
    requires UniqueIds(rows)
    ensures UniqueIds(Decided(rows, id, status, agent))
  {
  }

  /**
    The audit pairing: every candidate that is no longer PENDING has a
    decision row with its CANDIDATE_ID and its STATUS as DECISION.
   */
  ghost predicate Audited(candidates: seq<Candidate>, decisions: seq<AgentDecision>) {
    forall i :: 0 <= i < |candidates| && candidates[i].status != Pending ==>
      exists k :: 0 <= k < |decisions| && decisions[k].candidateId == candidates[i].id
                                       && decisions[k].decision == candidates[i].status
  }

  /**
    Recording a decision (the insert, then the update) keeps the audit
    pairing, and so does the insert alone when the update never runs.
   */
  lemma RecordingKeepsAudited(candidates: seq<Candidate>, decisions: seq<AgentDecision>, d: AgentDecision)
    requires Audited(candidates, decisions)
    ensures Audited(candidates, decisions + [d])
    ensures Audited(Decided(candidates, d.candidateId, d.decision, d.agent), decisions + [d])
  {
    var after := Decided(candidates, d.candidateId, d.decision, d.agent);
    var log := decisions + [d];
    forall i | 0 <= i < |candidates| && candidates[i].status != Pending
      ensures exists k :: 0 <= k < |log| && log[k].candidateId == candidates[i].id
                                         && log[k].decision == candidates[i].status
    {
      var k :| 0 <= k < |decisions| && decisions[k].candidateId == candidates[i].id
                                    && decisions[k].decision == candidates[i].status;
      assert log[k] == decisions[k];
    }
    forall i | 0 <= i < |after| && after[i].status != Pending
      ensures exists k :: 0 <= k < |log| && log[k].candidateId == after[i].id && log[k].decision == after[i].status
    {
      if candidates[i].id == d.candidateId {
        assert log[|decisions|] == d;
      } else {
        var k :| 0 <= k < |decisions| && decisions[k].candidateId == candidates[i].id
                                      && decisions[k].decision == candidates[i].status;
        assert log[k] == decisions[k];
      }
    }
  }

  /** The tables of the warehouse, as the running tool sees them. */
  class Warehouse {
    const customers: map<string, Customer>
    var candidates: seq<Candidate>
    var decisions: seq<AgentDecision>

    constructor (customers: map<string, Customer>, candidates: seq<Candidate>, decisions: seq<AgentDecision>)
      ensures this.customers == customers
      ensures this.candidates == candidates && this.decisions == decisions
    {
      this.customers := customers;
      this.candidates := candidates;
      this.decisions := decisions;
    }

    /** `INSERT INTO AGENT_DECISIONS ... VALUES (...)`: appends one row. */
    method InsertDecision(row: AgentDecision)
      modifies this
      ensures decisions == old(decisions) + [row]
      ensures candidates == old(candidates)
    {
      decisions := decisions + [row];
    }

    /** The status update of DUPLICATE_CANDIDATES (see Decided). */
    method UpdateCandidate(id: string, status: Status, agent: string)
      modifies this
      ensures candidates == Decided(old(candidates), id, status, agent)
      ensures decisions == old(decisions)
    {
      candidates := Decided(candidates, id, status, agent);
    }
  }
}
