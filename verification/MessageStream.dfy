/**
  The message stream: a keyset-paginated loop over traces with a filter on a verdict that only
  exists after the spans and actions of a page have been read.
*/
module MessageStream {
  import opened Common
  import opened OrderedQuery
  import opened TraceTables

  /** A line of the stream: the trace, its counters and the verdict derived from its rows. */
  datatype Item = Item(trace: Trace, summary: Summary, verdict: string)

  /** `build_message_funel(...).verdict`: some function of the trace and its ordered rows. */
  type Verdict = (Trace, seq<Row>, seq<Row>) -> string

  datatype Cursor = Start | Before(startedAt: int, id: int)

  /** ORDER BY started_at DESC, id DESC */
  function NewestFirst(): (Trace, Trace) -> bool {
    (a: Trace, b: Trace) => a.startedAt > b.startedAt || (a.startedAt == b.startedAt && a.id >= b.id)
  }

  function Below(c: Cursor): Trace -> bool {
    (t: Trace) => c.Start? || t.startedAt < c.startedAt || (t.startedAt == c.startedAt && t.id < c.id)
  }

  function KeptBelow(keep: Trace -> bool, c: Cursor): Trace -> bool {
    (t: Trace) => keep(t) && Below(c)(t)
  }

  /** `_event_trace_stmt`, executed; `keep` is the conjunction of the request's own filters. */
  function Page(db: Db, keep: Trace -> bool, c: Cursor, limit: nat): seq<Trace> {
    Take(OrderBy(Where(db.traces, KeptBelow(keep, c)), NewestFirst()), limit)
  }

  /** The whole filtered list, newest first. */
  function All(db: Db, keep: Trace -> bool): seq<Trace> {
    OrderBy(Where(db.traces, keep), NewestFirst())
  }

  /** What the stream shows for a trace, defined by the detail view's queries. */
  function ItemOf(db: Db, verdictOf: Verdict): Trace -> Item {
    (t: Trace) => MakeItem(t, RowsOf(db.spans, t.traceId), RowsOf(db.actions, t.traceId), verdictOf)
  }

  /** `_message_funel_item` */
  function MakeItem(t: Trace, spans: seq<Row>, actions: seq<Row>, verdictOf: Verdict): Item {
    Item(t, SummaryFrom(spans, actions), verdictOf(t, spans, actions))
  }

  function HasVerdict(v: Option<string>): Item -> bool {
    (i: Item) => v.None? || v.value == "" || i.verdict == v.value
  }

  predicate Filtering(v: Option<string>) {
    v.Some? && v.value != ""
  }

  /** The simple specification: order everything, filter everything, take the first `limit`. */
  function Expected(db: Db, keep: Trace -> bool, v: Option<string>, limit: nat, verdictOf: Verdict): seq<Item> {
    Take(Where(Map(All(db, keep), ItemOf(db, verdictOf)), HasVerdict(v)), limit)
  }

  /** Primary keys: no id twice. */
  ghost predicate UniqueIds(ts: seq<Trace>) {
    && (forall t | t in ts :: multiset(ts)[t] == 1)
    && (forall a, b | a in ts && b in ts && a.id == b.id :: a == b)
  }

  lemma NewestFirstIsTotal()
    ensures TotalOrder(NewestFirst())
  {
  }

  lemma {:induction false} AllUnique(db: Db, keep: Trace -> bool)
    requires UniqueIds(db.traces)
    ensures UniqueIds(All(db, keep))
  {
    NewestFirstIsTotal();
    WhereCounts(db.traces, keep);
    WhereMembers(db.traces, keep);
    OrderBySorts(Where(db.traces, keep), NewestFirst());
    OrderByKeeps(Where(db.traces, keep), NewestFirst());
  }

  lemma {:induction false} DistinctPositions(ts: seq<Trace>, i: nat, j: nat)
    requires UniqueIds(ts) && i < j < |ts|
    ensures ts[i].id != ts[j].id
  {
    assert ts == ts[..j] + [ts[j]] + ts[j + 1..];
    assert multiset(ts) == multiset(ts[..j]) + multiset{ts[j]} + multiset(ts[j + 1..]);
    assert ts[..j][i] == ts[i];
    assert ts[i] == ts[j] ==> multiset(ts)[ts[i]] >= 2;
  }

  function After(t: Trace): Cursor { Before(t.startedAt, t.id) }

  lemma {:induction false} SortedAll(db: Db, keep: Trace -> bool)
    ensures Sorted(All(db, keep), NewestFirst())
  {
    NewestFirstIsTotal();
    OrderBySorts(Where(db.traces, keep), NewestFirst());
  }

  /** A row is below the cursor of the p-th row exactly when it comes after it, ties in time included. */
  lemma {:induction false} BelowIsAfter(all: seq<Trace>, p: nat, i: nat)
    requires Sorted(all, NewestFirst()) && UniqueIds(all)
    requires 0 < p <= |all| && i < |all|
    ensures Below(After(all[p - 1]))(all[i]) <==> i >= p
  {
    if i < p - 1 {
      assert NewestFirst()(all[i], all[p - 1]);
    } else if i >= p {
      assert NewestFirst()(all[p - 1], all[i]);
      DistinctPositions(all, p - 1, i);
    }
  }

  /** The cursor of the p-th row splits the list exactly after it. */
  lemma {:induction false} CursorSplits(all: seq<Trace>, p: nat)
    requires Sorted(all, NewestFirst()) && UniqueIds(all)
    requires 0 < p <= |all|
    ensures Where(all, Below(After(all[p - 1]))) == all[p..]
  {
    var below := Below(After(all[p - 1]));
    forall i | 0 <= i < |all| ensures below(all[i]) <==> i >= p {
      BelowIsAfter(all, p, i);
    }
    WhereSuffix(all, below, p);
  }

  ghost predicate CursorAt(c: Cursor, all: seq<Trace>, p: nat) {
    p <= |all| && c == if p == 0 then Start else After(all[p - 1])
  }

  /** Every page is the next stretch of the whole list: no row is skipped or repeated. */
  lemma {:induction false} PageIsNextStretch(db: Db, keep: Trace -> bool, c: Cursor, p: nat, limit: nat)
    requires UniqueIds(db.traces) && CursorAt(c, All(db, keep), p)
    ensures Page(db, keep, c, limit) == Take(All(db, keep)[p..], limit)
  {
    NewestFirstIsTotal();
    WhereTwice(db.traces, keep, Below(c), KeptBelow(keep, c));
    WhereOrderBy(Where(db.traces, keep), NewestFirst(), Below(c));
    if p == 0 {
      WhereAll(All(db, keep), Below(c));
    } else {
      SortedAll(db, keep);
      AllUnique(db, keep);
      CursorSplits(All(db, keep), p);
    }
  }

  /** The rows a page puts in front of the verdict filter, via the batched groups. */
  method ItemsOfPage(db: Db, rows: seq<Trace>, le: (string, string) -> bool, verdictOf: Verdict)
    returns (items: seq<Item>)
    requires Collation(le)
    ensures items == Map(rows, ItemOf(db, verdictOf))
  {
    var ids := seq(|rows|, i requires 0 <= i < |rows| => rows[i].traceId);
    var spansBy, actionsBy := SpanActionGroups(db, ids, le);
    items := [];
    for i := 0 to |rows|
      invariant items == Map(rows[..i], ItemOf(db, verdictOf))
    {
      var t := rows[i];
      assert ids[i] == t.traceId;
      var item := MakeItem(t, spansBy[t.traceId], actionsBy[t.traceId], verdictOf);
      assert item == ItemOf(db, verdictOf)(t);
      MapOneMore(rows, i, ItemOf(db, verdictOf));
      items := items + [item];
    }
    assert rows[..|rows|] == rows;
  }

  lemma {:induction false} MapOneMore(rows: seq<Trace>, i: nat, f: Trace -> Item)
    requires i < |rows|
    ensures Map(rows[..i + 1], f) == Map(rows[..i], f) + [f(rows[i])]
  {
    assert rows[..i + 1] == rows[..i] + [rows[i]];
    MapAppend(rows[..i], [rows[i]], f);
  }

  method KeepVerdict(batch: seq<Item>, v: Option<string>) returns (kept: seq<Item>)
    ensures kept == Where(batch, HasVerdict(v))
  {
    if !Filtering(v) {
      WhereAll(batch, HasVerdict(v));
      return batch;
    }
    kept := [];
    for i := 0 to |batch|
      invariant kept == Where(batch[..i], HasVerdict(v))
    {
      assert batch[..i + 1] == batch[..i] + [batch[i]];
      WhereAppend(batch[..i], [batch[i]], HasVerdict(v));
      if batch[i].verdict == v.value {
        kept := kept + [batch[i]];
      }
    }
    assert batch[..|batch|] == batch;
  }

  function BatchSize(v: Option<string>, limit: nat): nat {
    if Filtering(v) then
      var wide := if limit * 3 > 3 then limit * 3 else 3;
      if wide < 500 then wide else 500
    else limit
  }

  /** The kept items of the first `p` rows. */
  ghost function FirstItems(db: Db, keep: Trace -> bool, v: Option<string>, verdictOf: Verdict, p: nat): seq<Item>
    requires p <= |All(db, keep)|
  {
    ItemsIn(All(db, keep)[..p], ItemOf(db, verdictOf), HasVerdict(v))
  }

  function ItemsIn(rows: seq<Trace>, f: Trace -> Item, wanted: Item -> bool): seq<Item> {
    Where(Map(rows, f), wanted)
  }

  /** The items of two stretches are the items of the first followed by those of the second. */
  lemma {:induction false} ItemsAppend(a: seq<Trace>, b: seq<Trace>, f: Trace -> Item, wanted: Item -> bool)
    ensures ItemsIn(a + b, f, wanted) == ItemsIn(a, f, wanted) + ItemsIn(b, f, wanted)
  {
    MapAppend(a, b, f);
    WhereAppend(Map(a, f), Map(b, f), wanted);
  }

  lemma {:induction false} AllItems(rows: seq<Trace>, f: Trace -> Item, v: Option<string>)
    requires !Filtering(v)
    ensures |ItemsIn(rows, f, HasVerdict(v))| == |rows|
  {
    MapLength(rows, f);
    WhereAll(Map(rows, f), HasVerdict(v));
  }

  /** One turn of the loop: the page's items extend the items so far, and its last row is the next cursor. */
  lemma {:induction false} PageStep(all: seq<Trace>, f: Trace -> Item, wanted: Item -> bool,
                                    p: nat, size: nat, rows: seq<Trace>)
    requires p <= |all| && rows == Take(all[p..], size) && size >= 1
    ensures var q := p + |rows|;
            && q <= |all|
            && ItemsIn(all[..q], f, wanted) == ItemsIn(all[..p], f, wanted) + ItemsIn(rows, f, wanted)
            && (rows != [] ==> CursorAt(After(rows[|rows| - 1]), all, q))
            && (|rows| < size ==> q == |all|)
  {
    var q := p + |rows|;
    assert rows == all[p..q];
    assert all[..q] == all[..p] + rows;
    ItemsAppend(all[..p], rows, f, wanted);
  }

  /** Where the loop stands: the first `p` rows are read, and their items are the ones so far. */
  ghost predicate Reading(db: Db, keep: Trace -> bool, v: Option<string>, verdictOf: Verdict,
                          cursor: Cursor, items: seq<Item>, p: nat) {
    CursorAt(cursor, All(db, keep), p) && items == FirstItems(db, keep, v, verdictOf, p)
  }

  lemma {:induction false} NothingRead(db: Db, keep: Trace -> bool, v: Option<string>, verdictOf: Verdict)
    ensures Reading(db, keep, v, verdictOf, Start, [], 0)
  {
    assert All(db, keep)[..0] == [];
  }

  /** Stopping after `p` rows is safe: there are enough items, or nothing is left. */
  ghost predicate Enough(db: Db, keep: Trace -> bool, v: Option<string>, verdictOf: Verdict, p: nat, limit: nat) {
    p <= |All(db, keep)| && (p == |All(db, keep)| || |FirstItems(db, keep, v, verdictOf, p)| >= limit)
  }

  /** One turn of the loop: query, batched groups, items, verdict filter, and whether to go on. */
  method ReadPage(db: Db, keep: Trace -> bool, v: Option<string>, limit: nat, cursor: Cursor, items: seq<Item>,
                  le: (string, string) -> bool, verdictOf: Verdict, ghost p: nat)
    returns (rows: seq<Trace>, longer: seq<Item>, next: Cursor, more: bool)
    requires limit >= 1 && UniqueIds(db.traces) && Collation(le)
    requires Reading(db, keep, v, verdictOf, cursor, items, p)
    ensures p + |rows| <= |All(db, keep)|
    ensures longer == FirstItems(db, keep, v, verdictOf, p + |rows|)
    ensures more ==> rows != [] && Reading(db, keep, v, verdictOf, next, longer, p + |rows|)
    ensures !more ==> Enough(db, keep, v, verdictOf, p + |rows|, limit)
  {
    var size := BatchSize(v, limit);
    rows := Page(db, keep, cursor, size);
    PageIsNextStretch(db, keep, cursor, p, size);
    var batch := ItemsOfPage(db, rows, le, verdictOf);
    batch := KeepVerdict(batch, v);
    longer := items + batch;
    next := if rows == [] then cursor else After(rows[|rows| - 1]);
    more := rows != [] && |longer| < limit && Filtering(v) && |rows| == size;
    ghost var all, f := All(db, keep), ItemOf(db, verdictOf);
    PageStep(all, f, HasVerdict(v), p, size, rows);
    if !Filtering(v) {
      AllItems(all[..p + |rows|], f, v);
    }
  }

  // ---- what the returned items hold ----

  /** `a` is shown before `b`. */
  predicate Newer(a: Trace, b: Trace) {
    a.startedAt > b.startedAt || (a.startedAt == b.startedAt && a.id > b.id)
  }

  predicate Wanted(v: Option<string>, verdict: string) {
    v == None || v == Some("") || v == Some(verdict)
  }

  /** The item's counters and verdict come from the trace's own spans and actions, each in time order. */
  ghost predicate Shows(db: Db, verdictOf: Verdict, item: Item) {
    exists spans, actions ::
      && RowsInOrder(db.spans, item.trace.traceId, spans)
      && RowsInOrder(db.actions, item.trace.traceId, actions)
      && Counts(item.summary, spans, actions)
      && item.verdict == verdictOf(item.trace, spans, actions)
  }

  /** Every item shows a trace of the table that passes both filters, newest first, none twice. */
  ghost predicate Truthful(db: Db, keep: Trace -> bool, v: Option<string>, verdictOf: Verdict, items: seq<Item>) {
    && (forall k | 0 <= k < |items| ::
          && items[k].trace in db.traces && keep(items[k].trace)
          && Shows(db, verdictOf, items[k]) && Wanted(v, items[k].verdict))
    && forall j, k | 0 <= j < k < |items| :: Newer(items[j].trace, items[k].trace)
  }

  /** A trace that passes both filters is shown, or the list is full of newer ones. */
  ghost predicate Complete(db: Db, keep: Trace -> bool, v: Option<string>, limit: nat, verdictOf: Verdict,
                           items: seq<Item>) {
    forall t | t in db.traces && keep(t)
               && Wanted(v, verdictOf(t, RowsOf(db.spans, t.traceId), RowsOf(db.actions, t.traceId))) ::
      || (exists k :: 0 <= k < |items| && items[k].trace == t)
      || (|items| == limit && forall k | 0 <= k < |items| :: Newer(items[k].trace, t))
  }

  lemma {:induction false} ItemShows(db: Db, verdictOf: Verdict, t: Trace)
    ensures var item := ItemOf(db, verdictOf)(t);
            && item.trace == t && Shows(db, verdictOf, item)
            && item.verdict == verdictOf(t, RowsOf(db.spans, t.traceId), RowsOf(db.actions, t.traceId))
  {
    var spans, actions := RowsOf(db.spans, t.traceId), RowsOf(db.actions, t.traceId);
    RowsOfMeans(db.spans, t.traceId);
    RowsOfMeans(db.actions, t.traceId);
    SummaryCounts(spans, actions);
  }

  lemma {:induction false} AllNewestFirst(db: Db, keep: Trace -> bool)
    requires UniqueIds(db.traces)
    ensures var all := All(db, keep);
            && (forall t :: t in all <==> t in db.traces && keep(t))
            && forall i, j | 0 <= i < j < |all| :: Newer(all[i], all[j])
  {
    var all := All(db, keep);
    NewestFirstIsTotal();
    WhereMembers(db.traces, keep);
    OrderByKeeps(Where(db.traces, keep), NewestFirst());
    SortedAll(db, keep);
    AllUnique(db, keep);
    forall i, j | 0 <= i < j < |all| ensures Newer(all[i], all[j]) {
      assert NewestFirst()(all[i], all[j]);
      DistinctPositions(all, i, j);
    }
  }

  /** The items of a list of traces are those wanted, in the order of the list. */
  lemma {:induction false} ItemsInOrder(rows: seq<Trace>, f: Trace -> Item, wanted: Item -> bool)
    requires forall t :: f(t).trace == t
    requires forall i, j | 0 <= i < j < |rows| :: Newer(rows[i], rows[j])
    ensures var items := ItemsIn(rows, f, wanted);
            && (forall item :: item in items <==> item.trace in rows && item == f(item.trace) && wanted(item))
            && forall i, j | 0 <= i < j < |items| :: Newer(items[i].trace, items[j].trace)
  {
    if rows != [] {
      var rest := rows[1..];
      ItemsInOrder(rest, f, wanted);
      assert rows == [rows[0]] + rest;
      assert Map(rows, f)[0] == f(rows[0]) && Map(rows, f)[1..] == Map(rest, f);
      forall item | item in ItemsIn(rest, f, wanted) ensures Newer(rows[0], item.trace) {
        var k :| 0 <= k < |rest| && rest[k] == item.trace;
        assert rows[k + 1] == rest[k];
      }
    }
  }

  /** All items before the limit cuts them, and what is known of each. */
  lemma {:induction false} FoundItems(db: Db, keep: Trace -> bool, v: Option<string>, verdictOf: Verdict)
    requires UniqueIds(db.traces)
    ensures var found := ItemsIn(All(db, keep), ItemOf(db, verdictOf), HasVerdict(v));
            && Truthful(db, keep, v, verdictOf, found)
            && forall t | t in db.traces && keep(t)
                          && Wanted(v, verdictOf(t, RowsOf(db.spans, t.traceId), RowsOf(db.actions, t.traceId))) ::
                 ItemOf(db, verdictOf)(t) in found
  {
    var all, f := All(db, keep), ItemOf(db, verdictOf);
    var found := ItemsIn(all, f, HasVerdict(v));
    AllNewestFirst(db, keep);
    ItemsInOrder(all, f, HasVerdict(v));
    forall k | 0 <= k < |found|
      ensures found[k].trace in db.traces && keep(found[k].trace)
      ensures Shows(db, verdictOf, found[k]) && Wanted(v, found[k].verdict)
    {
      assert found[k] in found;
      ItemShows(db, verdictOf, found[k].trace);
    }
  }

  /** An item is among the first `limit` of an ordered list, or those are newer. */
  lemma {:induction false} ShownOrCut(found: seq<Item>, item: Item, limit: nat)
    requires item in found && forall j, k | 0 <= j < k < |found| :: Newer(found[j].trace, found[k].trace)
    ensures || (exists k :: 0 <= k < |Take(found, limit)| && Take(found, limit)[k].trace == item.trace)
            || (|Take(found, limit)| == limit && forall k | 0 <= k < limit :: Newer(found[k].trace, item.trace))
  {
    var q :| 0 <= q < |found| && found[q] == item;
    if q < limit {
      assert Take(found, limit)[q].trace == item.trace;
    }
  }

  lemma {:induction false} CutIsTruthful(db: Db, keep: Trace -> bool, v: Option<string>, limit: nat,
                                         verdictOf: Verdict, found: seq<Item>)
    requires Truthful(db, keep, v, verdictOf, found)
    ensures Truthful(db, keep, v, verdictOf, Take(found, limit))
  {
    var items := Take(found, limit);
    assert forall k | 0 <= k < |items| :: items[k] == found[k];
  }

  lemma {:induction false} CutIsComplete(db: Db, keep: Trace -> bool, v: Option<string>, limit: nat,
                                         verdictOf: Verdict, found: seq<Item>)
    requires forall j, k | 0 <= j < k < |found| :: Newer(found[j].trace, found[k].trace)
    requires forall t | t in db.traces && keep(t)
                        && Wanted(v, verdictOf(t, RowsOf(db.spans, t.traceId), RowsOf(db.actions, t.traceId))) ::
               ItemOf(db, verdictOf)(t) in found
    ensures Complete(db, keep, v, limit, verdictOf, Take(found, limit))
  {
    forall t | t in db.traces && keep(t)
               && Wanted(v, verdictOf(t, RowsOf(db.spans, t.traceId), RowsOf(db.actions, t.traceId)))
      ensures || (exists k :: 0 <= k < |Take(found, limit)| && Take(found, limit)[k].trace == t)
              || (|Take(found, limit)| == limit && forall k | 0 <= k < limit :: Newer(found[k].trace, t))
    {
      ShownOrCut(found, ItemOf(db, verdictOf)(t), limit);
    }
  }

  /** What the simple specification returns, said of its items. */
  lemma {:induction false} ExpectedMeans(db: Db, keep: Trace -> bool, v: Option<string>, limit: nat,
                                         verdictOf: Verdict)
    requires UniqueIds(db.traces)
    ensures var items := Expected(db, keep, v, limit, verdictOf);
            && |items| <= limit
            && Truthful(db, keep, v, verdictOf, items) && Complete(db, keep, v, limit, verdictOf, items)
  {
    FoundItems(db, keep, v, verdictOf);
    var found := ItemsIn(All(db, keep), ItemOf(db, verdictOf), HasVerdict(v));
    CutIsTruthful(db, keep, v, limit, verdictOf, found);
    CutIsComplete(db, keep, v, limit, verdictOf, found);
  }

  /** The stream's counters are those of the trace list wherever `record_span` wrote the spans. */
  lemma {:induction false} CountersOfList(db: Db, keep: Trace -> bool, v: Option<string>, limit: nat,
                                          verdictOf: Verdict)
    requires Recorded(db.spans)
    ensures forall item | item in Expected(db, keep, v, limit, verdictOf) ::
              item.summary == ListSummary(db, item.trace.traceId)
  {
    var all, f := All(db, keep), ItemOf(db, verdictOf);
    forall item | item in Expected(db, keep, v, limit, verdictOf)
      ensures item.summary == ListSummary(db, item.trace.traceId)
    {
      WhereMembers(Map(all, f), HasVerdict(v));
      MapLength(all, f);
      assert item in Map(all, f);
      var k :| 0 <= k < |Map(all, f)| && Map(all, f)[k] == item;
      RecordedSpansAgree(db, all[k].traceId);
    }
  }

  /**
    `list_log_messages`.  The result does not depend on the page size: it is the first `limit`
    rows of the fully ordered, fully filtered list.  Said of the items themselves: they are
    truthful and complete, and their counters are the trace list's on recorded spans.
  */
  method ListLogMessages(db: Db, keep: Trace -> bool, v: Option<string>, limit: nat,
                         le: (string, string) -> bool, verdictOf: Verdict)
    returns (items: seq<Item>)
    requires limit >= 1
    requires UniqueIds(db.traces) && Collation(le)
    ensures items == Expected(db, keep, v, limit, verdictOf)
    ensures |items| <= limit
    ensures Truthful(db, keep, v, verdictOf, items) && Complete(db, keep, v, limit, verdictOf, items)
    ensures Recorded(db.spans) ==> forall item | item in items :: item.summary == ListSummary(db, item.trace.traceId)
  {
    var cursor, more := Start, true;
    items := [];
    ghost var p := 0;
    NothingRead(db, keep, v, verdictOf);
    while more
      invariant p <= |All(db, keep)|
      invariant if more then Reading(db, keep, v, verdictOf, cursor, items, p)
                else Enough(db, keep, v, verdictOf, p, limit) && items == FirstItems(db, keep, v, verdictOf, p)
      decreases |All(db, keep)| - p, more
    {
      var rows;
      rows, items, cursor, more := ReadPage(db, keep, v, limit, cursor, items, le, verdictOf, p);
      p := p + |rows|;
    }
    FirstOfAll(db, keep, p, v, limit, verdictOf);
    items := Take(items, limit);
    ExpectedMeans(db, keep, v, limit, verdictOf);
    if Recorded(db.spans) {
      CountersOfList(db, keep, v, limit, verdictOf);
    }
  }

  lemma {:induction false} TakeFirst<T>(a: seq<T>, rest: seq<T>, limit: nat)
    requires rest == [] || |a| >= limit
    ensures Take(a, limit) == Take(a + rest, limit)
  {
    if rest == [] {
      assert a + rest == a;
    }
  }

  /** Stopping early is harmless once enough items are there, or nothing is left. */
  lemma {:induction false} FirstOfAll(db: Db, keep: Trace -> bool, p: nat, v: Option<string>,
                                      limit: nat, verdictOf: Verdict)
    requires Enough(db, keep, v, verdictOf, p, limit)
    ensures Take(FirstItems(db, keep, v, verdictOf, p), limit) == Expected(db, keep, v, limit, verdictOf)
  {
    var all, f := All(db, keep), ItemOf(db, verdictOf);
    var rest := all[p..];
    assert all == all[..p] + rest;
    ItemsAppend(all[..p], rest, f, HasVerdict(v));
    assert rest == [] ==> ItemsIn(rest, f, HasVerdict(v)) == [];
    TakeFirst(FirstItems(db, keep, v, verdictOf, p), ItemsIn(rest, f, HasVerdict(v)), limit);
  }
}
