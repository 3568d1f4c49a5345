# Duplicate-customer review workflow, modelled in Dafny

The system is a Streamlit front end over a Snowflake warehouse. Human
agents use it to review candidate pairs of customer records that may be
duplicates. The warehouse holds three tables: CUSTOMERS, DUPLICATE_CANDIDATES
(a pair of customer ids with a MATCH_SCORE, a PRIORITY, a STATUS of
PENDING / MATCHED / NOT_MATCHED and an ASSIGNED_TO agent) and
AGENT_DECISIONS (one audit row per decision). An agent works through the
pending queue, compares the two records field by field, and records
"match" or "not match". Recording a decision inserts an audit row and then
sets the candidate's STATUS and ASSIGNED_TO.

Three variants of the app share this core:

- `streamlit_app.py` (module `App`): dashboard counts, a work queue sorted
  by score, a review page with a fallback to the top of the queue, and
  decision history.
- `streamlit_app_v2.py` (module `AppV2`): the same workflow presented as
  "clusters". It adds a greeting, decision counts per day, week and month,
  per-country tiles, filters on the cluster list, and quote escaping in
  `record_decision`.
- `streamlit_app_local.py` (module `AppLocal`): the first variant run
  against a local connection. Its metrics lookup can return nothing, it
  escapes quotes, and it does not catch errors on the review page.

Layout of the model:

- `tables.dfy` (`Tables`) — the rows of the three tables, and the
  warehouse as a `class` whose sequences `InsertDecision` and
  `UpdateCandidate` reassign. It also defines `Audited`: every
  non-PENDING candidate has an AGENT_DECISIONS row with that outcome.
- `rows.dfy` (`Rows`) — the SQL clauses the queries use (`COUNT`/`SUM`
  over a condition, `ORDER BY`, `LIMIT`) as operations on sequences of rows.
- `queries.dfy` (`Queries`) — the queries shared by the variants, and the
  score tiers.
- `compare.dfy` (`Compare`) — `highlight_differences`, the ✅/⚠️ indicator
  and the text shown for a value.
- `escaping.dfy` (`Escaping`) — `replace("'", "''")`, and the reading of a
  SQL string literal back into text.
- `text.dfy` (`Text`) — `strip`, `lower`/`upper` and substring search over
  ASCII.
- `calendar.dfy` (`Calendar`) — proleptic Gregorian day numbers for the
  window starts that the v2 dashboard computes in Python on the app server's
  clock: `today = datetime.now().date()`, the Monday of today's week
  (`today - timedelta(days=today.weekday())`) and `today.replace(day=1)`.
  The query receives them as date literals.
- `app.dfy`, `app_v2.dfy`, `app_local.dfy` — `record_decision` and the page
  router held in `st.session_state`. The router is a `class` per variant,
  with one method per button or page draw.

Inputs that come from outside are parameters: the UUIDs (decision id,
session id), the current timestamp, the current date and hour, and the
text entered in widgets.

## Model

| member | source | states |
|---|---|---|
| Tables.FindCandidate | streamlit_app.py:496-503 | Returns None exactly when no candidate row has the id. Otherwise it returns a row of the table with that id. |
| Tables.FindUnique | streamlit_app_v2.py:687-694 | When ids are unique, looking up the id of any row returns that very row. |
| Tables.ParseStatus | streamlit_app_v2.py:655-656 | Each STATUS text has exactly one status: the three names the code tests for map to their own cases, and `OtherStatus` holds exactly the other texts. |
| Tables.Decided | streamlit_app.py:519-523 | The UPDATE sets STATUS and ASSIGNED_TO on every row with the id. Every other row is unchanged. The length and all ids are kept. |
| Tables.NoPendingGuard | streamlit_app.py:519-523 | The UPDATE has no `STATUS = 'PENDING'` guard: a MATCHED candidate decided again becomes NOT_MATCHED. |
| Tables.DecidedKeepsIds | streamlit_app.py:519-523 | Recording a decision keeps candidate ids unique. |
| Tables.RecordingKeepsAudited | streamlit_app.py:505-526 | An INSERT of a decision row, followed by the UPDATE it describes, keeps every decided candidate backed by an audit row with its outcome. |
| Tables.Warehouse.InsertDecision | streamlit_app.py:511-516 | Appends exactly one AGENT_DECISIONS row. Candidates are unchanged. |
| Tables.Warehouse.UpdateCandidate | streamlit_app.py:519-524 | The candidate table becomes `Decided` of the old table. The decision log is unchanged. |
| Rows.Count | streamlit_app.py:452-456 | `SUM(CASE WHEN p THEN 1 ELSE 0 END)` is at most the row count. It is 0 exactly when no row satisfies `p`, and the row count exactly when every row does. |
| Rows.CountSingle | streamlit_app.py:452-456 | One row adds 1 exactly when it meets the condition. |
| Rows.CountAppend | streamlit_app.py:452-456 | The count over two stretches of rows is the sum of their counts. With CountSingle, this fixes every count as one per qualifying row. |
| Rows.CountDisjoint | streamlit_app.py:453-455 | Counts of mutually exclusive conditions add up to at most the row count. |
| Rows.Take | streamlit_app.py:543 | `LIMIT n` returns exactly the first n rows, or every row when there are fewer, in order. |
| Rows.TakeSorted | streamlit_app.py:542-543 | The first n rows of a sorted result are rows of it, and each comes before or ties with every row left out. |
| Rows.SortBy | streamlit_app.py:483 | `ORDER BY` returns a permutation of its input, sorted by any total preorder. |
| Text.StripPadded | streamlit_app.py:551 | `strip()` removes any whitespace padding around a text. |
| Text.StripLower | streamlit_app.py:551 | `strip()` and `lower()` commute. |
| Calendar.WeekStart | streamlit_app_v2.py:553 | The Monday of today's week, `today - timedelta(days=today.weekday())`, is a Monday at most six days before today. |
| Calendar.MonthStart | streamlit_app_v2.py:554 | `today.replace(day=1)` is a valid date, day 1 of the same month, `today.day - 1` days before today. |
| Calendar.NextDayInMonth | streamlit_app_v2.py:552-554 | Consecutive days of one month have consecutive day numbers. |
| Calendar.NextDayInYear | streamlit_app_v2.py:552-554 | A month's last day and the next month's 1st, within one year, have consecutive day numbers. |
| Calendar.NextDayAcrossYear | streamlit_app_v2.py:552-554 | 31 December and the next 1 January have consecutive day numbers. |
| Calendar.WeekdayStep | streamlit_app_v2.py:553 | `weekday()` advances by one per day, wrapping from Sunday (6) to Monday (0). |
| Calendar.Anchors | streamlit_app_v2.py:553 | 1970-01-01 is day 0, a Thursday; 2024-01-01 is a Monday. |
| Queries.DashboardCounts | streamlit_app.py:448-460 | TOTAL is the row count. PENDING + MATCHED + NOT_MATCHED is at most TOTAL. HIGH_PRIORITY_PENDING is at most PENDING. |
| Queries.DashboardCountsAreCounts | streamlit_app.py:453-456 | PENDING, MATCHED, NOT_MATCHED and HIGH_PRIORITY_PENDING are each the number of candidates meeting their `CASE WHEN` condition. |
| Queries.DecidedElsewhere | streamlit_app.py:519-523 | Deciding an id that no row has leaves the table unchanged. |
| Queries.DecisionMovesOneRow | streamlit_app.py:448-460 | With unique ids, deciding a pending row moves exactly one count from PENDING to MATCHED or NOT_MATCHED. The total is kept. HIGH_PRIORITY_PENDING drops by one only for a HIGH row. |
| Queries.Select | streamlit_app.py:462-482 | The joined rows are exactly the candidates that have both customers and meet the selection (pending, priority, filters). There are never more of them than candidates. |
| Queries.PendingListBound | streamlit_app.py:478 | A pending list never has more rows than the dashboard's PENDING count. |
| Queries.PendingQueueComplete | streamlit_app.py:462-485 | When every candidate's customers exist, the unfiltered queue has exactly PENDING rows. |
| Queries.PendingCandidates | streamlit_app.py:462-485 | The work queue holds exactly the selected rows, as a permutation of the selection. It is sorted descending on the chosen column. |
| Queries.FirstPendingOutscores | streamlit_app.py:483 | If any candidate is eligible, the queue is non-empty and its head scores at least as high as that candidate. |
| Queries.FirstPendingIsTop | streamlit_app.py:846-851 | The queue is empty exactly when no candidate is eligible. Otherwise its head is an eligible candidate with the top score. |
| Queries.RowsFor | streamlit_app.py:541 | The join of one decision yields a row per candidate with its id, none when there is no such candidate, and at most one under unique ids. |
| Queries.DecisionJoin | streamlit_app.py:540-541 | With unique candidate ids, the join has at most one row per decision. |
| Queries.DecisionJoinComplete | streamlit_app.py:540-541 | Every decision whose CANDIDATE_ID has a candidate row yields a history row for that pair. |
| Queries.DecisionJoinRows | streamlit_app.py:531-541 | Every history row comes from a decision and the candidate with its CANDIDATE_ID. |
| Queries.DecisionHistory | streamlit_app.py:528-545 | Exactly `limit` rows, or the whole join when it is smaller. The rows come newest first and are drawn from the join. No row left out is newer than a row returned. |
| Queries.Summarize | streamlit_app.py:1006-1016 | Total is the number of history rows. Matched and not-matched are the numbers of MATCHED and NOT_MATCHED rows, and together at most the total. Matched is 0 exactly when no row is MATCHED. |
| Queries.HistorySummaryBound | streamlit_app.py:1000-1016 | The history screen's total is the number of joined decisions capped at `limit`. The two outcome counts never exceed it. |
| Queries.ScoreTier | streamlit_app.py:806 | High exactly at 85 and above, medium exactly from 70 up to 85, low exactly below 70. |
| Queries.TierMonotone | streamlit_app.py:871 | A higher score never gets a lower tier. |
| Compare.HighlightDifferences | streamlit_app.py:547-551 | No class exactly for two NULLs. `field-match` exactly for two values equal after `strip().lower()`. `field-diff` exactly for NULL against a value, or for values that differ. |
| Compare.HighlightSymmetric | streamlit_app.py:547-551 | The class does not depend on which record is on the left. |
| Compare.HighlightIgnoresPadding | streamlit_app.py:551 | Whitespace padding around a value does not change the class. |
| Compare.HighlightIgnoresCase | streamlit_app.py:551 | Values equal up to letter case get `field-match`. |
| Compare.MatchIndicator | streamlit_app.py:924 | ✅ exactly when `str()` of the two values is equal. Equal values always get ✅. |
| Compare.IndicatorSymmetric | streamlit_app_v2.py:1118 | Both cards show the same indicator for a field. |
| Compare.CheckImpliesMatch | streamlit_app.py:924 | Between non-NULL values, ✅ implies `field-match`. |
| Compare.CaseDifferenceDisagrees | streamlit_app.py:924 | "a" against "A" gets `field-match` but ⚠️: the indicator is case-sensitive and the class is not. |
| Compare.NullAgainstNoneDisagrees | streamlit_app.py:924 | NULL against the text "None" gets ✅ but `field-diff`. |
| Compare.MissingColumnBothSides | streamlit_app_v2.py:1115-1118 | A column that neither row has gets no class and ✅, taking the customer rows to answer `.get` like a dict (a missing column reads as None). |
| Compare.Shown | streamlit_app.py:927 | NULL and the empty string are shown as "—". Any other text value is shown as is. Numeric zeros are not modelled (see Left out). |
| Escaping.Escape | streamlit_app_v2.py:702-704 | The result grows by one character per quote. Text without quotes is unchanged. |
| Escaping.UnescapeEscape | streamlit_app_v2.py:702-709 | The warehouse reads an escaped literal back as exactly the original text. |
| Escaping.EscapePaired | streamlit_app_v2.py:706-710 | Escaped text never closes the literal it sits in: every quote is doubled. |
| Escaping.EscapeUnescape | streamlit_app_v2.py:706-710 | Every well-formed literal body is the escaping of the text it denotes. |
| Escaping.EscapeDoublesQuotes | streamlit_app_v2.py:702 | The escaped text has twice as many quotes. |
| App.RecordDecision | streamlit_app.py:505-526 | Appends one decision row with the given values, marks the candidate with the decision and the agent, returns the decision id, and keeps `Audited`. |
| App.ReviewSession.constructor | streamlit_app.py:556-561 | A session starts on the dashboard with nothing selected. |
| App.ReviewSession.Navigate | streamlit_app.py:611-640 | A navigation button switches the page and keeps the selection. |
| App.ReviewSession.StartHighPriorityReview | streamlit_app.py:742-759 | Starts exactly when a HIGH pending candidate with both customers exists. It then selects the queue's head, which has the top score among them, and opens review. Otherwise nothing changes. |
| App.ReviewSession.OpenReview | streamlit_app.py:827-830 | "Review →" selects the row and opens the review page. |
| App.ReviewSession.EnterReview | streamlit_app.py:842-995 | The page looks up the selection, or with nothing selected the head of the work queue. All caught up exactly when there is nothing to look up, which happens exactly when nothing is eligible. NotFound exactly when the id has no candidate row. LoadError exactly when a customer row is missing, and then the selection is cleared. Otherwise it shows the candidate and both customer rows and keeps the looked-up id selected. A fallback candidate is a top-scoring eligible one. |
| App.ReviewSession.Decide | streamlit_app.py:957-979 | Records the decision for the selected candidate (as RecordDecision) and clears the selection. The page is kept. |
| App.ReviewSession.Skip | streamlit_app.py:981-983 | Clears the selection without recording anything. |
| AppV2.Greeting | streamlit_app_v2.py:540-548 | Morning exactly before 12, afternoon exactly from 12 to 16, evening exactly from 17. |
| AppV2.OutcomesAreCounts | streamlit_app_v2.py:566-589 | Completed, confirmed and rejected are each the number of decisions meeting their condition in the window. |
| AppV2.Outcomes | streamlit_app_v2.py:566-589 | Confirmed + rejected is at most completed, which is at most the number of decisions. Completed is 0 exactly when no decision falls in the window. |
| AppV2.WiderWindowCountsMore | streamlit_app_v2.py:566-589 | A window containing another counts at least as many completed, confirmed and rejected decisions. |
| AppV2.DashboardMetrics | streamlit_app_v2.py:550-593 | Candidate counts as on the first variant. Today, week-to-date and month-to-date outcomes over their windows. Today's counts never exceed the week's or the month's. |
| AppV2.WeekCanReachBeforeMonth | streamlit_app_v2.py:552-554 | On Friday 1 March 2024 the week starts in February, before the month starts. |
| AppV2.SummedAsWritten | streamlit_app_v2.py:566-589 | The uncoalesced SUMs are NULL exactly when the window has no decisions. |
| AppV2.RenderWindow | streamlit_app_v2.py:821-841 | `int()` of the sums fails exactly when one of them is NULL. Otherwise it shows them. |
| AppV2.QuietWindowFailsToRender | streamlit_app_v2.py:566-589 | A window with no decisions cannot be rendered as the code stands. |
| AppV2.BusyWindowRendersOutcomes | streamlit_app_v2.py:821-841 | A window with a decision renders the same counts as `Outcomes`. |
| AppV2.QuietWindowShowsZero | streamlit_app_v2.py:566-589 | With the sums coalesced, a window with no decisions shows 0, 0, 0. |
| AppV2.CountryBreakdown | streamlit_app_v2.py:595-607 | At most one row per candidate, each counting 1. |
| AppV2.MatchingTotal | streamlit_app_v2.py:879-881 | The tile total is 0 when no breakdown row contains the code. |
| AppV2.PendingInCountry | streamlit_app_v2.py:595-607 | A country's pending count never exceeds the dashboard's PENDING. |
| AppV2.TallyCountsPending | streamlit_app_v2.py:872-881 | The tile for a code counts exactly the pending candidates whose first customer's country contains that code. |
| AppV2.CountryTallies | streamlit_app_v2.py:875-881 | One tally per Pacific country, in order, each equal to the matching total for its code. |
| AppV2.UnknownTileCountsMissingCountry | streamlit_app_v2.py:599 | A pending candidate whose first customer has no country is counted under "Unknown". |
| AppV2.BuildFilters | streamlit_app_v2.py:937-945 | A key is present exactly when its widget is non-empty, the country is not "All", and Clear was not pressed. A present key holds the widget's value. |
| AppV2.NoFiltersPassAll | streamlit_app_v2.py:631-638 | With no filters, every joined row passes. |
| AppV2.CodedCountryOnTile | streamlit_app_v2.py:879 | A pending candidate coded "FJ" counts on the Fiji tile. |
| AppV2.NamedCountryFilter | streamlit_app_v2.py:671 | The country filter compares COUNTRY with the country's name, so a row coded "FJ" fails the filter "Fiji". |
| AppV2.NamedFilterListsMissCode | streamlit_app_v2.py:931-948 | Choosing "Fiji" in the selectbox, which feeds the all-clusters list, lists none of the candidates coded "FJ". The pending list would drop them too under that filter, but the code never filters it. |
| AppV2.ClusterOrdersArePreorders | streamlit_app_v2.py:639 | Both cluster orderings are total preorders. |
| AppV2.PendingClusterList | streamlit_app_v2.py:609-640 | Exactly the pending joined rows that pass the filters (no consultant filter), as a permutation of the selection, by score descending then oldest first. |
| AppV2.AllClusterList | streamlit_app_v2.py:642-676 | Exactly the joined rows that pass the filters, of any status, as a permutation of the selection, newest first. |
| AppV2.Flags | streamlit_app_v2.py:655-656 | CONFIRMED exactly for MATCHED. REVIEWED exactly for non-PENDING. Confirmed implies reviewed. |
| AppV2.Action | streamlit_app_v2.py:973-982 | A confirmed badge exactly for MATCHED and a rejected badge exactly for NOT_MATCHED. Otherwise a Review button. |
| AppV2.EscapeOrEmpty | streamlit_app_v2.py:702-704 | The escaped text is a well-formed literal body that reads back as the input. |
| AppV2.RecordDecision | streamlit_app_v2.py:696-720 | Thanks to the escaping, the decision row and ASSIGNED_TO hold exactly the text typed. `Audited` is kept. |
| AppV2.ClusterSession.constructor | streamlit_app_v2.py:736-743 | Starts on the dashboard with nothing selected and the agent name "Agent". |
| AppV2.ClusterSession.SetAgentName | streamlit_app_v2.py:765-769 | Settings changes only the agent name. |
| AppV2.ClusterSession.Navigate | streamlit_app_v2.py:850-865 | A page button switches the page and keeps the selection and the name. |
| AppV2.ClusterSession.OpenCluster | streamlit_app_v2.py:979-982 | "Review" selects the cluster and opens the compare page. |
| AppV2.ClusterSession.EnterCompare | streamlit_app_v2.py:1056-1181 | No selection exactly when nothing is selected; there is no fallback. Not found exactly when the selected id has no row. The error outcome exactly when a customer row is missing. Both of those clear the selection. Otherwise it compares the cluster's two customer rows. |
| AppV2.ClusterSession.Decide | streamlit_app_v2.py:1162-1172 | Records the decision under the session's agent name and clears the selection. |
| AppV2.ClusterSession.Skip | streamlit_app_v2.py:1174-1177 | Clears the selection and returns to the match list. |
| AppLocal.LocalMetrics | streamlit_app_local.py:275-290 | None exactly when the query failed or returned no row. Otherwise the first row. |
| AppLocal.ConnectedMetrics | streamlit_app_local.py:287-290 | With the query answering, the sidebar shows the candidate counts. |
| AppLocal.RecordDecision | streamlit_app_local.py:337-361 | Reason, notes and agent are escaped, so the stored rows hold exactly the text given. `Audited` is kept. |
| AppLocal.EnterReview | streamlit_app_local.py:587-603 | The same lookup, fallback and outcomes as on the first variant. A missing customer row is an uncaught error that leaves the looked-up id selected. |
| AppLocal.Decide | streamlit_app_local.py:691-701 | Records the decision through the escaping RecordDecision and clears the selection. |

## Left out

- The Snowflake session and the local connection are not modelled: credentials, `st.stop()` when not connected, and `execute_query` returning None for any query other than the metrics query.
- Query exceptions are modelled only where a row is missing. Malformed SQL, network errors and the `except` banners they trigger are left out.
- No rollback exists between the INSERT and the UPDATE of `record_decision`, and the case where the UPDATE fails after the INSERT succeeded is not modelled. Both statements are modelled as succeeding.
- SQL injection is not modelled. In `streamlit_app.py`, a quote in the reason, notes or agent name breaks the statement. No variant escapes the candidate id. `App.RecordDecision` stores the values as given.
- Escaping.Unescape reads only doubled quotes. Snowflake's backslash escapes inside literals are not modelled. Under Snowflake's reading, text containing `\'` ends the literal early once escaped, and text ending in `\` never closes it. So Escaping.EscapePaired, AppV2.RecordDecision and AppLocal.RecordDecision hold only for text without backslashes, or under the doubled-quote reading.
- `LIKE '%…%'` is modelled as plain substring search. The `%` and `_` wildcards inside filter text are not given their special meaning.
- `AVG(MATCH_SCORE)` is not modelled, because it is real arithmetic over NULL-able rows and no property depends on it.
- AppV2.CountryBreakdown: yields one row per pending candidate instead of one row per `GROUP BY` country, and ignores `ORDER BY COUNT DESC`. Every tile sums the rows whose country contains its code, so the totals are the same.
- Queries.DashboardCounts: reads each SUM as 0. Over an empty DUPLICATE_CANDIDATES table the SUMs are NULL. The sidebar and dashboard then show `None` or fail in `int()`, the same NULL pattern as the finding below.
- Compare.Shown: a customer value is text or NULL, so a numeric or `Decimal` zero (for example a TOTAL_TRANSACTIONS of 0) shows as its text here. In Python it is falsy and shows as "—".
- A NULL MATCH_SCORE is not modelled: every candidate has a score, so `SortKey` never meets the NULLs that Snowflake places first under `ORDER BY … DESC`.
- Display-only columns are not modelled: NAME_1/NAME_2, CNTY truncation, MATCH_REASON, the formatting of POINTS, and all HTML/CSS markup.
- Text handles ASCII only: non-ASCII whitespace in `strip()` and Unicode case mapping in `lower()` are not modelled.
- A NULL value's text is "None", as Python's `str(None)`. pandas' NaN rendering is not modelled.
- No caller passes `sort_by`, so the work queue is always ordered by MATCH_SCORE. `SortColumn` also admits CREATED_DATE, which goes beyond what the code uses. The order of rows with equal keys is unspecified in SQL and left unspecified here.
- AppV2.ClusterSession.EnterCompare: assumes the customer row from `get_customer_details` (a Snowpark row from `collect()[0]`) answers `.get(field_key)` like a dict, with a missing column reading as None. If that row type has no `.get`, every compare draw raises at streamlit_app_v2.py:1116, the `except` clears the selection, and no v2 decision can be recorded. The model does not capture that case.
- CREATED_DATE and DECISION_TIMESTAMP are whole numbers (a day and a second in the day), not timestamps with time zones.
- AppV2.EscapeOrEmpty: the `if reason else ''` branch for a None reason is not modelled, because every caller passes text.
- `get_agent_name()` falls back to "Agent" only when the session has no name. The constructor always sets one, so the fallback is not modelled.
- The User Admin page and its consultant listing are not modelled, because they are static display.
- `st.rerun()`, success and info banners, and widget layout are not modelled. Each button press is one method call.
- Concurrent sessions working on the same candidate are not modelled. Each method runs alone against the warehouse.

## Findings

| source | as written | input that shows it | evidently intended | confidence | as-written member | corrected member |
|---|---|---|---|---|---|---|
| streamlit_app_v2.py:566-589 | `SUM(CASE …)` over the day, week or month window has no `COALESCE`, so it is NULL when no decision falls in the window. `int()` of it at lines 821-841 then raises. The `except` at 903-905 catches it, so the whole dashboard block that opens at 781 is replaced by the error. That block includes the navigation buttons (850-866), so the session cannot leave the dashboard. | AGENT_DECISIONS has no row dated today, for example any morning before the first decision. | The table shows 0 for a window with no decisions. | high; not executed | AppV2.QuietWindowFailsToRender | AppV2.QuietWindowShowsZero |
