/**
  Migrations 0038 and 0039 on the action ledger: backfilling the payout key column from the
  JSON summary, then making countable rows unique, first globally, then per account.
*/
module PayoutMigrations {

  import opened Common

  datatype Dialect = Postgres | Sqlite

  datatype Status = Pending | Ok | Failed | DryRun | Compensated

  /** A JSON member: missing, null, or a value with the text the database reads from it. */
  datatype Field = Absent | Null | Text(text: string)
  datatype ResultPart = NoObject | Object(key: Field)
  /** The members of `params_summary` the migrations touch. */
  datatype Params = NotAnObject | Summary(key: Field, result: ResultPart)

  datatype Row = Row(
    id: int, account: int, actionType: string, status: Status,
    errorCode: Option<string>, errorSummary: Option<string>,
    key: Option<string>, params: Params)

  predicate Countable(r: Row) {
    r.actionType == "payout" && (r.status == Ok || r.status == Compensated)
  }

  // ---- the key a row's JSON names ----

  function TrimLeft(s: string): string {
    if s != "" && s[0] == ' ' then TrimLeft(s[1..]) else s
  }

  function TrimRight(s: string): string {
    if s != "" && s[|s| - 1] == ' ' then TrimRight(s[..|s| - 1]) else s
  }

  /** NULLIF(BTRIM(x), '') on PostgreSQL, NULLIF(x, '') on SQLite. */
  function NonEmpty(d: Dialect, f: Field): Option<string> {
    if !f.Text? then None
    else
      var t := if d == Postgres then TrimRight(TrimLeft(f.text)) else f.text;
      if t == "" then None else Some(t)
  }

  function FromTop(d: Dialect, p: Params): Option<string> {
    if p.Summary? then NonEmpty(d, p.key) else None
  }

  function FromResult(d: Dialect, p: Params): Option<string> {
    if p.Summary? && p.result.Object? then NonEmpty(d, p.result.key) else None
  }

  /** COALESCE(top-level key, result key) */
  function Derived(d: Dialect, p: Params): Option<string> {
    var top := FromTop(d, p);
    if top.Some? then top else FromResult(d, p)
  }

  // ---- which duplicates a statement marks ----

  datatype Scope = Global | PerAccount

  /** Both rows are countable and fall into the same partition. */
  predicate SamePartition(scope: Scope, a: Row, b: Row) {
    && Countable(a) && Countable(b)
    && a.key.Some? && a.key == b.key
    && (scope == PerAccount ==> a.account == b.account)
  }

  /** ROW_NUMBER() OVER (PARTITION BY … ORDER BY id ASC) */
  function RowNumber(rows: seq<Row>, scope: Scope, r: Row): nat {
    if rows == [] then 0
    else (if SamePartition(scope, rows[0], r) && rows[0].id <= r.id then 1 else 0) + RowNumber(rows[1..], scope, r)
  }

  /** SELECT MIN(id) … over the partition of `r`. */
  function MinId(rows: seq<Row>, scope: Scope, r: Row): Option<int> {
    if rows == [] then None
    else
      var rest := MinId(rows[1..], scope, r);
      if SamePartition(scope, rows[0], r) && (rest.None? || rows[0].id < rest.value) then Some(rows[0].id) else rest
  }

  predicate Marked(d: Dialect, rows: seq<Row>, scope: Scope, r: Row) {
    && Countable(r) && r.key.Some?
    && match d
       case Postgres => RowNumber(rows, scope, r) > 1
       case Sqlite => var m := MinId(rows, scope, r); m.Some? && r.id > m.value
  }

  /** The meaning of both forms: an older countable row holds the same key. */
  ghost predicate Superseded(rows: seq<Row>, scope: Scope, r: Row) {
    exists x | x in rows :: SamePartition(scope, x, r) && x.id < r.id
  }

  ghost predicate UniqueIds(rows: seq<Row>) {
    forall i, j | 0 <= i < j < |rows| :: rows[i].id != rows[j].id
  }

  lemma {:induction false} RowNumberZero(rows: seq<Row>, scope: Scope, r: Row)
    ensures RowNumber(rows, scope, r) > 0 <==> exists x | x in rows :: SamePartition(scope, x, r) && x.id <= r.id
  {
    if rows != [] {
      RowNumberZero(rows[1..], scope, r);
      assert rows == [rows[0]] + rows[1..];
    }
  }

  lemma {:induction false} OthersDiffer(rows: seq<Row>, i: nat)
    requires UniqueIds(rows) && i < |rows|
    ensures forall x | x in rows && x != rows[i] :: x.id != rows[i].id
    ensures i == 0 ==> forall x | x in rows[1..] :: x.id != rows[0].id
  {
    forall x | x in rows && x != rows[i] ensures x.id != rows[i].id {
      var j :| 0 <= j < |rows| && rows[j] == x;
    }
    forall x | i == 0 && x in rows[1..] ensures x.id != rows[0].id {
      var j :| 0 <= j < |rows[1..]| && rows[1..][j] == x;
      assert rows[j + 1] == x;
    }
  }

  lemma {:induction false} RowNumberMeaning(rows: seq<Row>, scope: Scope, r: Row)
    requires UniqueIds(rows) && r in rows && Countable(r) && r.key.Some?
    ensures RowNumber(rows, scope, r) > 1 <==> Superseded(rows, scope, r)
  {
    var rest := rows[1..];
    assert rows == [rows[0]] + rest;
    OthersDiffer(rows, 0);
    if rows[0] == r {
      RowNumberZero(rest, scope, r);
    } else {
      assert r in rest;
      RowNumberMeaning(rest, scope, r);
      RowNumberZero(rest, scope, r);
      assert SamePartition(scope, r, r);
    }
  }

  lemma {:induction false} MinIdMeaning(rows: seq<Row>, scope: Scope, r: Row)
    ensures var m := MinId(rows, scope, r);
            && (m.Some? ==> exists x | x in rows :: SamePartition(scope, x, r) && x.id == m.value)
            && (forall x | x in rows && SamePartition(scope, x, r) :: m.Some? && m.value <= x.id)
  {
    if rows != [] {
      MinIdMeaning(rows[1..], scope, r);
      assert rows == [rows[0]] + rows[1..];
    }
  }

  /**
    The window-function form and the correlated-minimum form mark the same rows, for either
    partition and any table with unique ids: those an older countable row supersedes.
  */
  lemma {:induction false} DialectsMarkAlike(d: Dialect, rows: seq<Row>, scope: Scope, r: Row)
    requires UniqueIds(rows) && r in rows
    ensures Marked(d, rows, scope, r) <==> Countable(r) && r.key.Some? && Superseded(rows, scope, r)
  {
    if Countable(r) && r.key.Some? {
      RowNumberMeaning(rows, scope, r);
      MinIdMeaning(rows, scope, r);
    }
  }

  // ---- the statements as functions of the table ----

  function Update(rows: seq<Row>, f: Row -> Row): seq<Row> {
    seq(|rows|, i requires 0 <= i < |rows| => f(rows[i]))
  }

  function FillFromTop(d: Dialect): Row -> Row {
    (r: Row) => if r.key.None? then r.(key := FromTop(d, r.params)) else r
  }

  function FillFromResult(d: Dialect): Row -> Row {
    (r: Row) => if r.key.None? then r.(key := FromResult(d, r.params)) else r
  }

  function ClearMarked(d: Dialect, rows: seq<Row>): Row -> Row {
    (r: Row) => if Marked(d, rows, Global, r) then r.(key := None) else r
  }

  function Upgraded38(d: Dialect, rows: seq<Row>): seq<Row> {
    var filled := Update(Update(rows, FillFromTop(d)), FillFromResult(d));
    Update(filled, ClearMarked(d, filled))
  }

  function FillCountable(d: Dialect): Row -> Row {
    (r: Row) => if r.key.None? && Countable(r) then r.(key := Derived(d, r.params)) else r
  }

  function Demoted(r: Row): Row {
    r.(status := Failed,
       errorCode := if r.errorCode.Some? then r.errorCode else Some("historical_duplicate"),
       errorSummary := if r.errorSummary.Some? then r.errorSummary else Some("0039 canonicalized duplicate payout"))
  }

  function DemoteMarked(d: Dialect, rows: seq<Row>): Row -> Row {
    (r: Row) => if Marked(d, rows, PerAccount, r) then Demoted(r) else r
  }

  function Upgraded39(d: Dialect, rows: seq<Row>): seq<Row> {
    var filled := Update(rows, FillCountable(d));
    Update(filled, DemoteMarked(d, filled))
  }

  /** What the partial unique index demands; `scope` is the index's. */
  ghost predicate IndexHolds(scope: Scope, rows: seq<Row>) {
    forall i, j | 0 <= i < j < |rows| :: !SamePartition(scope, rows[i], rows[j])
  }

  // ---- the tables under the statements, in place ----

  class ActionEventTable {
    var rows: seq<Row>

    constructor (rows: seq<Row>)
      ensures this.rows == rows
    {
      this.rows := rows;
    }

    /** One UPDATE statement: every row is computed from the table as it was before the statement. */
    method Execute(f: Row -> Row)
      modifies this
      ensures rows == Update(old(rows), f)
    {
      var next: seq<Row> := [];
      for i := 0 to |rows|
        invariant |next| == i && rows == old(rows)
        invariant forall k | 0 <= k < i :: next[k] == f(old(rows)[k])
      {
        next := next + [f(rows[i])];
      }
      rows := next;
    }

    /** `upgrade` of 0038; the unique index it creates last always fits. */
    method Upgrade38(d: Dialect)
      requires UniqueIds(rows)
      modifies this
      ensures rows == Upgraded38(d, old(rows))
      ensures IndexHolds(Global, rows)
    {
      Execute(FillFromTop(d));
      Execute(FillFromResult(d));
      var snapshot := rows;
      Execute(ClearMarked(d, snapshot));
      ClearingMakesUnique(d, snapshot);
    }

    /** `_backfill_and_canonicalize_payouts` of 0039; its unique index always fits. */
    method Upgrade39(d: Dialect)
      requires UniqueIds(rows)
      modifies this
      ensures rows == Upgraded39(d, old(rows))
      ensures IndexHolds(PerAccount, rows)
    {
      Execute(FillCountable(d));
      var snapshot := rows;
      Execute(DemoteMarked(d, snapshot));
      DemotingMakesUnique(d, snapshot);
    }
  }

  lemma {:induction false} ClearingMakesUnique(d: Dialect, rows: seq<Row>)
    requires UniqueIds(rows)
    ensures IndexHolds(Global, Update(rows, ClearMarked(d, rows)))
  {
    var after := Update(rows, ClearMarked(d, rows));
    forall i, j | 0 <= i < j < |after| ensures !SamePartition(Global, after[i], after[j]) {
      DialectsMarkAlike(d, rows, Global, rows[i]);
      DialectsMarkAlike(d, rows, Global, rows[j]);
    }
  }

  lemma {:induction false} DemotingMakesUnique(d: Dialect, rows: seq<Row>)
    requires UniqueIds(rows)
    ensures IndexHolds(PerAccount, Update(rows, DemoteMarked(d, rows)))
  {
    var after := Update(rows, DemoteMarked(d, rows));
    forall i, j | 0 <= i < j < |after| ensures !SamePartition(PerAccount, after[i], after[j]) {
      DialectsMarkAlike(d, rows, PerAccount, rows[i]);
      DialectsMarkAlike(d, rows, PerAccount, rows[j]);
    }
  }

  // ---- 0038 then 0039 is one direct canonicalization ----

  /** The column has just been added: no row has a key yet. */
  ghost predicate Legacy(rows: seq<Row>) {
    UniqueIds(rows) && forall i | 0 <= i < |rows| :: rows[i].key.None?
  }

  /** An older countable row of the same account names the same key in its JSON. */
  ghost predicate OlderTwin(d: Dialect, rows: seq<Row>, r: Row) {
    exists x | x in rows ::
      && Countable(x) && x.account == r.account && x.id < r.id
      && Derived(d, x.params).Some? && Derived(d, x.params) == Derived(d, r.params)
  }

  /** The direct form: every row gets the key its JSON names; younger twins are demoted. */
  ghost predicate DirectlyCanonical(d: Dialect, rows: seq<Row>, after: seq<Row>) {
    && |after| == |rows|
    && forall i | 0 <= i < |rows| ::
         var keyed := rows[i].(key := Derived(d, rows[i].params));
         after[i] == if Countable(rows[i]) && OlderTwin(d, rows, rows[i]) then Demoted(keyed) else keyed
  }

  function WithDerived(d: Dialect): Row -> Row {
    (r: Row) => r.(key := Derived(d, r.params))
  }

  /** 0039's backfill undoes 0038's global clearing: every row has its own key again. */
  lemma {:induction false} ClearingLosesNothing(d: Dialect, rows: seq<Row>)
    requires Legacy(rows)
    ensures Update(Upgraded38(d, rows), FillCountable(d)) ==
            Update(rows, WithDerived(d))
  {
    var keyed := Update(rows, WithDerived(d));
    assert Update(Update(rows, FillFromTop(d)), FillFromResult(d)) == keyed;
    var cleared := Update(keyed, ClearMarked(d, keyed));
    forall i | 0 <= i < |rows| ensures FillCountable(d)(cleared[i]) == keyed[i] {
    }
  }

  lemma {:induction false} TwinSupersedes(d: Dialect, rows: seq<Row>, i: nat)
    requires i < |rows| && Countable(rows[i])
    ensures var keyed := Update(rows, WithDerived(d));
            OlderTwin(d, rows, rows[i]) <==> keyed[i].key.Some? && Superseded(keyed, PerAccount, keyed[i])
  {
    var keyed := Update(rows, WithDerived(d));
    if OlderTwin(d, rows, rows[i]) {
      var x :| x in rows && Countable(x) && x.account == rows[i].account && x.id < rows[i].id
               && Derived(d, x.params).Some? && Derived(d, x.params) == Derived(d, rows[i].params);
      var k :| 0 <= k < |rows| && rows[k] == x;
      assert SamePartition(PerAccount, keyed[k], keyed[i]) && keyed[k] in keyed;
    }
    if Superseded(keyed, PerAccount, keyed[i]) {
      var y :| y in keyed && SamePartition(PerAccount, y, keyed[i]) && y.id < keyed[i].id;
      var k :| 0 <= k < |keyed| && keyed[k] == y;
      assert rows[k] in rows;
    }
  }

  /** Once every row has its derived key, the rows that are marked are those with an older twin. */
  lemma {:induction false} MarkedHaveTwins(d: Dialect, rows: seq<Row>, i: nat)
    requires UniqueIds(rows) && i < |rows|
    ensures var keyed := Update(rows, WithDerived(d));
            Marked(d, keyed, PerAccount, keyed[i]) <==> Countable(rows[i]) && OlderTwin(d, rows, rows[i])
  {
    var keyed := Update(rows, WithDerived(d));
    assert UniqueIds(keyed);
    DialectsMarkAlike(d, keyed, PerAccount, keyed[i]);
    if Countable(rows[i]) {
      TwinSupersedes(d, rows, i);
    }
  }

  /**
    Running 0038 and then 0039 on legacy rows is the direct per-account canonicalization, on
    both dialects: no key is lost to the global clearing in between.
  */
  lemma {:induction false} TwoStepsAreOne(d: Dialect, rows: seq<Row>)
    requires Legacy(rows)
    ensures DirectlyCanonical(d, rows, Upgraded39(d, Upgraded38(d, rows)))
  {
    ClearingLosesNothing(d, rows);
    var keyed := Update(rows, WithDerived(d));
    forall i | 0 <= i < |rows|
      ensures Marked(d, keyed, PerAccount, keyed[i]) <==> Countable(rows[i]) && OlderTwin(d, rows, rows[i])
    {
      MarkedHaveTwins(d, rows, i);
    }
  }

  lemma {:induction false} OldestTwin(d: Dialect, rows: seq<Row>, r: Row) returns (first: Row)
    requires r in rows && Countable(r) && Derived(d, r.params).Some?
    ensures first in rows && Countable(first) && first.account == r.account
    ensures Derived(d, first.params) == Derived(d, r.params) && !OlderTwin(d, rows, first)
    decreases |set x | x in rows && x.id < r.id|
  {
    if OlderTwin(d, rows, r) {
      var x :| x in rows && Countable(x) && x.account == r.account && x.id < r.id
               && Derived(d, x.params).Some? && Derived(d, x.params) == Derived(d, r.params);
      var olderThanX, olderThanR := set y | y in rows && y.id < x.id, set y | y in rows && y.id < r.id;
      assert olderThanX <= olderThanR && x in olderThanR && x !in olderThanX;
      SmallerSet(olderThanX, olderThanR);
      first := OldestTwin(d, rows, x);
    } else {
      first := r;
    }
  }

  lemma {:induction false} SmallerSet(a: set<Row>, b: set<Row>)
    requires a < b
    ensures |a| < |b|
  {
    assert b == a + (b - a);
  }

  /** Row `k` is the one countable row left for the account and key of row `i`, and the oldest there was. */
  ghost predicate SoleSurvivor(d: Dialect, rows: seq<Row>, after: seq<Row>, i: nat, k: nat)
    requires |after| == |rows| && i < |rows|
  {
    && k < |rows|
    && Countable(after[k]) && after[k].account == rows[i].account && after[k].key == after[i].key
    && forall j: nat | j < |rows| && Countable(rows[j]) && rows[j].account == rows[i].account
         && after[j].key == after[i].key ::
         rows[k].id <= rows[j].id && (Countable(after[j]) ==> j == k)
  }

  /** A countable row with the key of a row that has no older twin is that row, or younger and demoted. */
  lemma {:induction false} OthersAreYounger(d: Dialect, rows: seq<Row>, after: seq<Row>, k: nat, j: nat)
    requires UniqueIds(rows) && DirectlyCanonical(d, rows, after) && k < |rows| && j < |rows|
    requires Countable(rows[k]) && !OlderTwin(d, rows, rows[k]) && Countable(rows[j])
    requires rows[j].account == rows[k].account && after[j].key == after[k].key && after[k].key.Some?
    ensures rows[k].id <= rows[j].id && (Countable(after[j]) ==> j == k)
  {
    assert rows[j] in rows && rows[k] in rows;
    assert j < k ==> rows[j].id != rows[k].id;
    if j != k {
      assert OlderTwin(d, rows, rows[j]);
    }
  }

  lemma {:induction false} SurvivorExists(d: Dialect, rows: seq<Row>, after: seq<Row>, i: nat) returns (k: nat)
    requires Legacy(rows) && DirectlyCanonical(d, rows, after)
    requires i < |rows| && Countable(rows[i]) && after[i].key.Some?
    ensures SoleSurvivor(d, rows, after, i, k)
  {
    var first := OldestTwin(d, rows, rows[i]);
    k :| k < |rows| && rows[k] == first;
    forall j: nat | j < |rows| && Countable(rows[j]) && rows[j].account == rows[i].account
                    && after[j].key == after[i].key
      ensures rows[k].id <= rows[j].id && (Countable(after[j]) ==> j == k)
    {
      OthersAreYounger(d, rows, after, k, j);
    }
  }

  /**
    After both upgrades every row has the key its JSON names, for every account and key exactly
    one countable row remains, the one with the smallest id, and a status changes only on a
    countable row, and only to FAILED.
  */
  lemma {:induction false} OldestStaysCountable(d: Dialect, rows: seq<Row>, i: nat)
    requires Legacy(rows) && i < |rows|
    ensures var after := Upgraded39(d, Upgraded38(d, rows));
            && |after| == |rows|
            && after[i].key == Derived(d, rows[i].params)
            && (after[i].status != rows[i].status ==> Countable(rows[i]) && after[i].status == Failed)
            && (Countable(rows[i]) && after[i].key.Some? ==> exists k: nat :: SoleSurvivor(d, rows, after, i, k))
  {
    TwoStepsAreOne(d, rows);
    var after := Upgraded39(d, Upgraded38(d, rows));
    if Countable(rows[i]) && after[i].key.Some? {
      var k := SurvivorExists(d, rows, after, i);
    }
  }

  // ---- 0039 alone ----

  /** What 0039 leaves behind: nothing to backfill, nothing to demote. */
  ghost predicate Settled(d: Dialect, rows: seq<Row>) {
    && IndexHolds(PerAccount, rows)
    && forall i | 0 <= i < |rows| && Countable(rows[i]) && rows[i].key.None? :: Derived(d, rows[i].params).None?
  }

  lemma {:induction false} UpgradeSettles(d: Dialect, rows: seq<Row>)
    requires UniqueIds(rows)
    ensures Settled(d, Upgraded39(d, rows)) && UniqueIds(Upgraded39(d, rows))
  {
    var filled := Update(rows, FillCountable(d));
    assert UniqueIds(filled);
    DemotingMakesUnique(d, filled);
  }

  lemma {:induction false} SettledIsFixed(d: Dialect, rows: seq<Row>)
    requires UniqueIds(rows) && Settled(d, rows)
    ensures Upgraded39(d, rows) == rows
  {
    assert Update(rows, FillCountable(d)) == rows;
    forall i | 0 <= i < |rows| ensures !Marked(d, rows, PerAccount, rows[i]) {
      DialectsMarkAlike(d, rows, PerAccount, rows[i]);
    }
  }

  /** Running 0039 on any table twice is running it once. */
  lemma {:induction false} UpgradeIdempotent(d: Dialect, rows: seq<Row>)
    requires UniqueIds(rows)
    ensures Upgraded39(d, Upgraded39(d, rows)) == Upgraded39(d, rows)
  {
    UpgradeSettles(d, rows);
    SettledIsFixed(d, Upgraded39(d, rows));
  }
}
