/** The event tables and the three ways the log endpoints summarise one trace. */
module TraceTables {
  import opened Common
  import opened OrderedQuery
  import Text

  datatype Trace = Trace(id: int, traceId: string, startedAt: int, body: string)

  /** A span or an action; `at` is `started_at` of a span, `created_at` of an action. */
  datatype Row = Row(id: int, traceId: string, at: int, status: string, pluginKey: Option<string>, body: string)

  datatype Db = Db(traces: seq<Trace>, spans: seq<Row>, actions: seq<Row>)

  const SPAN_ERRORS := {"failed", "error", "warning", "warn"}
  const ACTION_ERRORS := {"failed", "error"}

  // ---- WHERE and ORDER BY clauses; `le` is the database's collation of trace ids ----

  function ByTime(): (Row, Row) -> bool {
    (a: Row, b: Row) => a.at < b.at || (a.at == b.at && a.id <= b.id)
  }

  function ByTraceThenTime(le: (string, string) -> bool): (Row, Row) -> bool {
    (a: Row, b: Row) => if a.traceId == b.traceId then ByTime()(a, b) else le(a.traceId, b.traceId)
  }

  function OfTrace(t: string): Row -> bool { (r: Row) => r.traceId == t }
  function OfTraces(ids: seq<string>): Row -> bool { (r: Row) => r.traceId in ids }
  function HasStatus(failed: set<string>): Row -> bool { (r: Row) => r.status in failed }
  function FailedOf(t: string, failed: set<string>): Row -> bool { (r: Row) => r.traceId == t && r.status in failed }

  ghost predicate Collation(le: (string, string) -> bool) {
    TotalOrder(le) && Antisymmetric(le)
  }

  /** The detail view's own query for one trace. */
  function RowsOf(table: seq<Row>, t: string): seq<Row> {
    OrderBy(Where(table, OfTrace(t)), ByTime())
  }

  // ---- batched grouping ----

  lemma {:induction false} OrdersAreTotal(le: (string, string) -> bool)
    requires Collation(le)
    ensures TotalOrder(ByTime()) && TotalOrder(ByTraceThenTime(le))
  {
    var o := ByTraceThenTime(le);
    forall a, b ensures o(a, b) || o(b, a) {
      assert le(a.traceId, b.traceId) || le(b.traceId, a.traceId);
    }
    forall a, b, c | o(a, b) && o(b, c) ensures o(a, c) {
      if a.traceId != b.traceId && b.traceId != c.traceId {
        assert le(a.traceId, b.traceId) && le(b.traceId, c.traceId);
        assert a.traceId != c.traceId;
      }
    }
  }

  /** Filtering one trace out of the batch query gives the detail view's query. */
  lemma {:induction false} BatchOfOneTrace(table: seq<Row>, ids: seq<string>, le: (string, string) -> bool, t: string)
    requires Collation(le) && t in ids
    ensures Where(OrderBy(Where(table, OfTraces(ids)), ByTraceThenTime(le)), OfTrace(t)) == RowsOf(table, t)
  {
    OrdersAreTotal(le);
    WhereOrderBy(Where(table, OfTraces(ids)), ByTraceThenTime(le), OfTrace(t));
    WhereTwice(table, OfTraces(ids), OfTrace(t), OfTrace(t));
    WhereMembers(table, OfTrace(t));
    OrderByAgrees(Where(table, OfTrace(t)), ByTraceThenTime(le), ByTime());
  }

  lemma {:induction false} RowsInBatch(table: seq<Row>, ids: seq<string>, le: (string, string) -> bool)
    requires Collation(le)
    ensures forall r | r in OrderBy(Where(table, OfTraces(ids)), ByTraceThenTime(le)) :: r.traceId in ids
  {
    OrdersAreTotal(le);
    OrderByKeeps(Where(table, OfTraces(ids)), ByTraceThenTime(le));
    WhereMembers(table, OfTraces(ids));
  }

  lemma {:induction false} WhereOneMore(rows: seq<Row>, row: Row, t: string)
    ensures Where(rows + [row], OfTrace(t)) ==
            if row.traceId == t then Where(rows, OfTrace(t)) + [row] else Where(rows, OfTrace(t))
  {
    WhereAppend(rows, [row], OfTrace(t));
    assert Where([row], OfTrace(t)) == if row.traceId == t then [row] else [];
  }

  function Grouped(rows: seq<Row>, ids: seq<string>): map<string, seq<Row>> {
    map t | t in ids :: Where(rows, OfTrace(t))
  }

  lemma {:induction false} GroupedOneMore(rows: seq<Row>, row: Row, ids: seq<string>)
    requires row.traceId in ids
    ensures var g := Grouped(rows, ids);
            Grouped(rows + [row], ids) == g[row.traceId := g[row.traceId] + [row]]
  {
    forall t | t in ids
      ensures Where(rows + [row], OfTrace(t)) ==
              if row.traceId == t then Where(rows, OfTrace(t)) + [row] else Where(rows, OfTrace(t))
    {
      WhereOneMore(rows, row, t);
    }
  }

  /**
    One half of `_span_action_groups`: one query, then one pass that appends every row to its
    trace's list.  Each group is exactly what the detail view reads for that trace.
  */
  method Group(table: seq<Row>, ids: seq<string>, le: (string, string) -> bool)
    returns (groups: map<string, seq<Row>>)
    requires Collation(le)
    ensures groups.Keys == set t | t in ids
    ensures forall t | t in ids :: groups[t] == RowsOf(table, t)
  {
    var rows := OrderBy(Where(table, OfTraces(ids)), ByTraceThenTime(le));
    groups := map t | t in ids :: [];
    OrdersAreTotal(le);
    RowsInBatch(table, ids, le);
    for i := 0 to |rows|
      invariant groups == Grouped(rows[..i], ids)
    {
      var row := rows[i];
      assert rows[..i + 1] == rows[..i] + [row];
      GroupedOneMore(rows[..i], row, ids);
      groups := groups[row.traceId := groups[row.traceId] + [row]];
    }
    assert rows[..|rows|] == rows;
    forall t | t in ids ensures groups[t] == RowsOf(table, t) {
      BatchOfOneTrace(table, ids, le, t);
    }
  }

  method SpanActionGroups(db: Db, ids: seq<string>, le: (string, string) -> bool)
    returns (spansBy: map<string, seq<Row>>, actionsBy: map<string, seq<Row>>)
    requires Collation(le)
    ensures spansBy.Keys == actionsBy.Keys == set t | t in ids
    ensures forall t | t in ids :: spansBy[t] == RowsOf(db.spans, t) && actionsBy[t] == RowsOf(db.actions, t)
  {
    if ids == [] {
      return map[], map[];
    }
    spansBy := Group(db.spans, ids, le);
    actionsBy := Group(db.actions, ids, le);
  }

  // ---- summaries ----

  datatype Summary = Summary(pluginKeys: set<string>, pluginCount: nat, actionCount: nat, errorCount: nat)

  function KeysIn(spans: seq<Row>): set<string> {
    set s | s in spans && s.pluginKey.Some? :: s.pluginKey.value
  }

  /** The counters the message stream and the detail view compute in memory. */
  function SummaryFrom(spans: seq<Row>, actions: seq<Row>): Summary {
    var keys := KeysIn(spans) - {""};
    Summary(keys, |keys|, |actions|,
            |Where(spans, HasStatus(SPAN_ERRORS))| + |Where(actions, HasStatus(ACTION_ERRORS))|)
  }

  function DetailSummary(db: Db, t: string): Summary {
    SummaryFrom(RowsOf(db.spans, t), RowsOf(db.actions, t))
  }

  /** The counters of the trace list: grouped queries over the whole tables. */
  function ListSummary(db: Db, t: string): Summary {
    var spans := Where(db.spans, OfTrace(t));
    Summary(KeysIn(spans) - {""},                       // `if key` drops the empty key from the list
            |KeysIn(spans)|,                            // COUNT(DISTINCT plugin_key) keeps it
            |Where(db.actions, OfTrace(t))|,
            |Where(db.spans, FailedOf(t, SPAN_ERRORS))| + |Where(db.actions, FailedOf(t, ACTION_ERRORS))|)
  }

  lemma TimeIsTotal()
    ensures TotalOrder(ByTime())
  {
  }

  lemma {:induction false} RowsOfKeeps(table: seq<Row>, t: string)
    ensures |RowsOf(table, t)| == |Where(table, OfTrace(t))|
    ensures forall r :: r in RowsOf(table, t) <==> r in table && r.traceId == t
  {
    TimeIsTotal();
    OrderByKeeps(Where(table, OfTrace(t)), ByTime());
    WhereMembers(table, OfTrace(t));
  }

  /** `rows` are the rows of trace `t`, each as often as `table` holds it, by time and then by id. */
  ghost predicate RowsInOrder(table: seq<Row>, t: string, rows: seq<Row>) {
    && (forall r :: multiset(rows)[r] == if r.traceId == t then multiset(table)[r] else 0)
    && forall i, j | 0 <= i < j < |rows| ::
         rows[i].at < rows[j].at || (rows[i].at == rows[j].at && rows[i].id <= rows[j].id)
  }

  /** The detail view's query returns a trace's rows, none missing or doubled, in time order. */
  lemma {:induction false} RowsOfMeans(table: seq<Row>, t: string)
    ensures RowsInOrder(table, t, RowsOf(table, t))
  {
    TimeIsTotal();
    OrderBySorts(Where(table, OfTrace(t)), ByTime());
    WhereCounts(table, OfTrace(t));
    var rows := RowsOf(table, t);
    forall i, j | 0 <= i < j < |rows|
      ensures rows[i].at < rows[j].at || (rows[i].at == rows[j].at && rows[i].id <= rows[j].id)
    {
      assert ByTime()(rows[i], rows[j]);
    }
  }

  /** Ordering a trace's rows does not change how many have a given status. */
  lemma {:induction false} FailuresCounted(table: seq<Row>, t: string, failed: set<string>)
    ensures |Where(RowsOf(table, t), HasStatus(failed))| == |Where(table, FailedOf(t, failed))|
  {
    TimeIsTotal();
    WhereOrderBy(Where(table, OfTrace(t)), ByTime(), HasStatus(failed));
    WhereTwice(table, OfTrace(t), HasStatus(failed), FailedOf(t, failed));
    OrderByKeeps(Where(table, FailedOf(t, failed)), ByTime());
  }

  lemma {:induction false} KeysOfTrace(table: seq<Row>, t: string)
    ensures KeysIn(RowsOf(table, t)) == KeysIn(Where(table, OfTrace(t)))
  {
    RowsOfKeeps(table, t);
    WhereMembers(table, OfTrace(t));
  }

  lemma {:induction false} NoEmptyKey(table: seq<Row>, t: string)
    ensures "" !in KeysIn(Where(table, OfTrace(t))) <==>
            forall s | s in table && s.traceId == t :: s.pluginKey != Some("")
  {
    WhereMembers(table, OfTrace(t));
  }

  lemma {:induction false} EmptyKeyCounts(keys: set<string>)
    ensures |keys| == |keys - {""}| <==> "" !in keys
  {
    if "" in keys {
      assert keys == (keys - {""}) + {""};
    } else {
      assert keys == keys - {""};
    }
  }

  /**
    The trace list and the detail view agree on plugin keys, action count and error count for
    every trace; they agree on the plugin count if and only if no span of the trace carries the
    empty plugin key.
  */
  lemma {:induction false} ListVersusDetail(db: Db, t: string)
    ensures var l, d := ListSummary(db, t), DetailSummary(db, t);
            && l.pluginKeys == d.pluginKeys
            && l.actionCount == d.actionCount
            && l.errorCount == d.errorCount
            && (l.pluginCount == d.pluginCount <==>
                forall s | s in db.spans && s.traceId == t :: s.pluginKey != Some(""))
  {
    FailuresCounted(db.spans, t, SPAN_ERRORS);
    FailuresCounted(db.actions, t, ACTION_ERRORS);
    RowsOfKeeps(db.actions, t);
    KeysOfTrace(db.spans, t);
    EmptyKeyCounts(KeysIn(Where(db.spans, OfTrace(t))));
    NoEmptyKey(db.spans, t);
  }

  /** What the four counters of a trace mean for its spans and actions. */
  ghost predicate Counts(s: Summary, spans: seq<Row>, actions: seq<Row>) {
    && s.pluginKeys == (set r | r in spans && r.pluginKey.Some? && r.pluginKey.value != "" :: r.pluginKey.value)
    && s.pluginCount == |s.pluginKeys|
    && s.actionCount == |actions|
    && s.errorCount == |set i: nat | i < |spans| && spans[i].status in {"failed", "error", "warning", "warn"}|
                       + |set i: nat | i < |actions| && actions[i].status in {"failed", "error"}|
  }

  lemma {:induction false} SummaryCounts(spans: seq<Row>, actions: seq<Row>)
    ensures Counts(SummaryFrom(spans, actions), spans, actions)
  {
    WhereHasPositions(spans, HasStatus(SPAN_ERRORS));
    WhereHasPositions(actions, HasStatus(ACTION_ERRORS));
    assert Positions(spans, HasStatus(SPAN_ERRORS)) ==
           set i: nat | i < |spans| && spans[i].status in {"failed", "error", "warning", "warn"};
    assert Positions(actions, HasStatus(ACTION_ERRORS)) ==
           set i: nat | i < |actions| && actions[i].status in {"failed", "error"};
  }

  // ---- how spans get into the table ----

  /** `_str_or_none` */
  function StrOrNone(value: Option<string>): (r: Option<string>)
    ensures r.None? <==> value.None? || Text.Blank(value.value)
    ensures r.Some? ==> value.Some? && r.value == Text.Strip(value.value) && Text.Trimmed(r.value) && r.value != ""
  {
    var text := Text.Strip(value.GetOr(""));
    Text.StripTrims(value.GetOr(""));
    Text.StripEmptyIffBlank(value.GetOr(""));
    if text == "" then None else Some(text)
  }

  /** Every span that names a plugin names it with a proper key. */
  ghost predicate Recorded(spans: seq<Row>) {
    forall s | s in spans && s.pluginKey.Some? :: Text.Trimmed(s.pluginKey.value) && s.pluginKey.value != ""
  }

  class SpanTable {
    var spans: seq<Row>

    ghost predicate Valid()
      reads this
    {
      Recorded(spans)
    }

    constructor ()
      ensures Valid() && spans == []
    {
      spans := [];
    }

    /** `record_span`, the only writer of spans; without a trace nothing is written. */
    method RecordSpan(id: int, trace: string, at: int, status: string, pluginKey: Option<string>, body: string)
      requires Valid()
      modifies this
      ensures Valid()
      ensures spans == old(spans) + if Text.Strip(trace) == "" then []
                                    else [Row(id, Text.Strip(trace), at, if status == "" then "ok" else status,
                                              StrOrNone(pluginKey), body)]
    {
      var traceId := Text.Strip(trace);
      if traceId == "" {
        return;
      }
      spans := spans + [Row(id, traceId, at, if status == "" then "ok" else status, StrOrNone(pluginKey), body)];
    }
  }

  /** On every table `record_span` has written, list and detail view agree on all four counters. */
  lemma {:induction false} RecordedSpansAgree(db: Db, t: string)
    requires Recorded(db.spans)
    ensures ListSummary(db, t) == DetailSummary(db, t)
  {
    ListVersusDetail(db, t);
  }
}
