/**
 * The account's direct-passthrough order: `reorder_account_direct_passthrough` of
 * `backend/app/api/features.py` writes priorities 0, 10, 20, … key by key, committing each, and
 * the worker (`backend/app/worker/plugins/loader.py`) calls plugins by (priority, key).
 */
module PassthroughOrder {
  import opened Common
  import opened OrderedQuery
  import Text

  /** The `direct_passthrough` block; `legacy` holds the retired sub-fields still stored in it. */
  datatype Block = Block(enabled: bool, priority: Option<int>, legacy: set<string>)

  /** A row of `account_feature`; `rest` is the configuration outside the block. */
  datatype Row = Row(enabled: bool, direct: Option<Block>, rest: string)

  type Rows = map<string, Row>

  datatype Reason =
    | AccountNotFound | EmptyOrder | RepeatedKey
    | FeatureNotFound | NotDeclared | NotEnabled | NotOptedIn

  datatype Outcome = Reordered(keys: seq<string>) | Rejected(reason: Reason)

  /** `_merge_direct_passthrough_config(config, priority=…)` on a row that is on and opted in. */
  function Ranked(row: Row, priority: int): Row {
    var enabled := row.direct.Some? && row.direct.value.enabled;
    row.(enabled := true, direct := Some(Block(enabled, Some(if priority < 0 then 0 else priority), {})))
  }

  function Stripped(): string -> string {
    s => Text.Strip(s)
  }

  function NonEmpty(): string -> bool {
    s => s != ""
  }

  /** The cleaned list of requested keys. */
  function Requested(order: seq<string>): seq<string> {
    Where(Map(order, Stripped()), NonEmpty())
  }

  /**
   * Cleaning the request: a blank key is dropped, any other is stripped and keeps its place.
   * Together with the empty request this says what every request is cleaned to.
   */
  lemma {:induction false} RequestedOneMore(order: seq<string>, key: string)
    ensures Requested([]) == []
    ensures Requested(order + [key]) == Requested(order) + if Text.Blank(key) then [] else [Text.Strip(key)]
  {
    MapAppend(order, [key], Stripped());
    WhereAppend(Map(order, Stripped()), [Text.Strip(key)], NonEmpty());
    Text.StripEmptyIffBlank(key);
    assert Map([key], Stripped()) == [Text.Strip(key)];
  }

  /** Why a key may not take part; `features` says which registered plugins declare passthrough. */
  function Objection(features: map<string, bool>, rows: Rows, key: string): Option<Reason> {
    if key !in features then Some(FeatureNotFound)
    else if !features[key] then Some(NotDeclared)
    else if key !in rows || !rows[key].enabled then Some(NotEnabled)
    else if !(rows[key].direct.Some? && rows[key].direct.value.enabled) then Some(NotOptedIn)
    else None
  }

  /** How many keys come before the first one objected to. */
  function Leading(features: map<string, bool>, rows: Rows, keys: seq<string>): (n: nat)
    ensures n <= |keys| && (n < |keys| ==> Objection(features, rows, keys[n]).Some?)
    ensures forall i :: 0 <= i < n ==> Objection(features, rows, keys[i]).None?
  {
    if keys == [] || Objection(features, rows, keys[0]).Some? then 0
    else 1 + Leading(features, rows, keys[1..])
  }

  /** The table once the given keys have their places. */
  ghost predicate Placed(before: Rows, after: Rows, keys: seq<string>) {
    && after.Keys == before.Keys
    && (forall i :: 0 <= i < |keys| ==> keys[i] in before && after[keys[i]] == Ranked(before[keys[i]], 10 * i))
    && (forall k :: k in before && k !in keys ==> after[k] == before[k])
  }

  /**
   * A key that takes its place: it stays enabled and opted in, its priority is ten times its
   * position, the retired sub-fields are gone, and the rest of its configuration is untouched.
   */
  lemma {:induction false} PlacedMeans(features: map<string, bool>, before: Rows, after: Rows,
                                       keys: seq<string>, i: nat)
    requires i < |keys| && Placed(before, after, keys) && Objection(features, before, keys[i]).None?
    ensures var was, now := before[keys[i]], after[keys[i]];
      && was.enabled && was.direct.Some? && was.direct.value.enabled && keys[i] in features && features[keys[i]]
      && now.enabled && now.rest == was.rest
      && now.direct.Some? && now.direct.value.enabled
      && now.direct.value.priority == Some(10 * i) && now.direct.value.legacy == {}
  {
  }

  lemma {:induction false} LeadingStops(features: map<string, bool>, rows: Rows, keys: seq<string>, n: nat)
    requires n <= |keys| && forall i :: 0 <= i < n ==> Objection(features, rows, keys[i]).None?
    requires n < |keys| ==> Objection(features, rows, keys[n]).Some?
    ensures Leading(features, rows, keys) == n
  {
    if n > 0 {
      LeadingStops(features, rows, keys[1..], n - 1);
    }
  }

  /** Placing keys changes the table if and only if some key was not in its place already. */
  lemma {:induction false} PlacingChanges(before: Rows, after: Rows, keys: seq<string>)
    requires Placed(before, after, keys)
    ensures after != before <==>
      exists i :: 0 <= i < |keys| && before[keys[i]] != Ranked(before[keys[i]], 10 * i)
  {
    if after != before {
      var k :| k in before && after[k] != before[k];
      var i :| 0 <= i < |keys| && keys[i] == k;
      assert before[keys[i]] != Ranked(before[keys[i]], 10 * i);
    }
  }

  /**
   * A refused request changes the table if and only if some key before the offending one was not
   * in its place already.
   */
  lemma {:induction false} RefusalChangesTable(features: map<string, bool>, before: Rows, after: Rows,
                                               keys: seq<string>)
    requires var n := Leading(features, before, keys); n < |keys| && Placed(before, after, keys[..n])
    ensures after != before <==>
      exists i :: 0 <= i < Leading(features, before, keys) && before[keys[i]] != Ranked(before[keys[i]], 10 * i)
  {
    var placed := keys[..Leading(features, before, keys)];
    PlacingChanges(before, after, placed);
    assert forall i :: 0 <= i < |placed| ==> placed[i] == keys[i];
  }

  class AccountFeatures {
    var rows: Rows

    constructor (rows: Rows)
      ensures this.rows == rows
    {
      this.rows := rows;
    }

    /**
     * All keys are placed when none is objected to.  Otherwise the request is refused, but the
     * keys before the offending one have been committed already.
     */
    method Reorder(features: map<string, bool>, accountExists: bool, order: seq<string>)
      returns (outcome: Outcome)
      modifies this
      ensures var keys := Requested(order);
        var accepted := accountExists && keys != [] && Distinct(keys);
        var n := Leading(features, old(rows), keys);
        && (!accepted ==> outcome.Rejected? && rows == old(rows))
        && (accepted ==>
              && Placed(old(rows), rows, keys[..n])
              && (outcome == if n == |keys| then Reordered(keys)
                             else Rejected(Objection(features, old(rows), keys[n]).value)))
    {
      if !accountExists {
        return Rejected(AccountNotFound);
      }
      var keys := Requested(order);
      if keys == [] {
        return Rejected(EmptyOrder);
      }
      if !Distinct(keys) {
        return Rejected(RepeatedKey);
      }
      for index := 0 to |keys|
        invariant Placed(old(rows), rows, keys[..index])
        invariant forall i :: 0 <= i < index ==> Objection(features, old(rows), keys[i]).None?
      {
        var key := keys[index];
        assert key !in keys[..index];
        assert Objection(features, rows, key) == Objection(features, old(rows), key);
        var objection := Objection(features, rows, key);
        if objection.Some? {
          LeadingStops(features, old(rows), keys, index);
          return Rejected(objection.value);
        }
        rows := rows[key := Ranked(rows[key], 10 * index)];
        assert keys[..index + 1] == keys[..index] + [key];
      }
      LeadingStops(features, old(rows), keys, |keys|);
      assert keys[..|keys|] == keys;
      outcome := Reordered(keys);
    }
  }

  // ---- a refused request that changes the table ----

  const DECLARES: map<string, bool> := map["a" := true, "b" := false]
  const BEFORE: Rows := map["a" := Row(true, Some(Block(true, None, {})), "")]

  lemma {:induction false} CleanOrder()
    ensures Requested(["a", "b"]) == ["a", "b"] && Leading(DECLARES, BEFORE, ["a", "b"]) == 1
  {
    var order := ["a", "b"];
    Text.StripFixpoint("a");
    Text.StripFixpoint("b");
    MapLength(order, Stripped());
    assert Map(order, Stripped()) == order;
    WhereAll(order, NonEmpty());
    LeadingStops(DECLARES, BEFORE, order, 1);
  }

  /** The second key does not declare passthrough; the first one has been given its place by then. */
  method RefusedReorder() returns (table: AccountFeatures, outcome: Outcome)
    ensures outcome == Rejected(NotDeclared) && table.rows != BEFORE
  {
    table := new AccountFeatures(BEFORE);
    CleanOrder();
    outcome := table.Reorder(DECLARES, true, ["a", "b"]);
    assert table.rows["a"] == Ranked(BEFORE["a"], 0) by {
      assert ["a", "b"][..1][0] == "a";
    }
  }

  // ---- Dispatch ----

  /** Text order by code point. */
  predicate KeyLeq(a: string, b: string) {
    a == "" || (b != "" && (a[0] < b[0] || (a[0] == b[0] && KeyLeq(a[1..], b[1..]))))
  }

  lemma {:induction false} KeyTotal(a: string, b: string)
    ensures KeyLeq(a, b) || KeyLeq(b, a)
    ensures KeyLeq(a, b) && KeyLeq(b, a) ==> a == b
  {
    if a != "" && b != "" {
      KeyTotal(a[1..], b[1..]);
      assert a == [a[0]] + a[1..] && b == [b[0]] + b[1..];
    }
  }

  lemma {:induction false} KeyTransitive(a: string, b: string, c: string)
    requires KeyLeq(a, b) && KeyLeq(b, c)
    ensures KeyLeq(a, c)
  {
    if a != "" && b != "" && c != "" && a[0] == b[0] == c[0] {
      KeyTransitive(a[1..], b[1..], c[1..]);
    }
  }

  /** A plugin waiting to be called. */
  datatype Candidate = Candidate(priority: int, key: string)

  function ByPriority(): (Candidate, Candidate) -> bool {
    (a: Candidate, b: Candidate) =>
      a.priority < b.priority || (a.priority == b.priority && KeyLeq(a.key, b.key))
  }

  lemma {:induction false} ByPriorityOrders()
    ensures TotalOrder(ByPriority()) && Antisymmetric(ByPriority())
  {
    forall a: Candidate, b: Candidate
      ensures ByPriority()(a, b) || ByPriority()(b, a)
      ensures ByPriority()(a, b) && ByPriority()(b, a) ==> a == b
    {
      KeyTotal(a.key, b.key);
    }
    forall a: Candidate, b: Candidate, c: Candidate | ByPriority()(a, b) && ByPriority()(b, c)
      ensures ByPriority()(a, c)
    {
      if a.priority == b.priority == c.priority {
        KeyTransitive(a.key, b.key, c.key);
      }
    }
  }

  /** `_plugin_direct_passthrough_priority` */
  function Priority(row: Row): int {
    if row.direct.Some? && row.direct.value.priority.Some?
    then (if row.direct.value.priority.value < 0 then 0 else row.direct.value.priority.value)
    else 1000
  }

  predicate OptedIn(rows: Rows, key: string) {
    key in rows && rows[key].direct.Some? && rows[key].direct.value.enabled
  }

  function IsOptedIn(rows: Rows): string -> bool {
    key => OptedIn(rows, key)
  }

  function AsCandidate(rows: Rows): string -> Candidate {
    key => Candidate(if key in rows then Priority(rows[key]) else 1000, key)
  }

  /** The waiting plugins, in the order the worker happens to hold them. */
  function Waiting(rows: Rows, loaded: seq<string>): seq<Candidate> {
    Map(Where(loaded, IsOptedIn(rows)), AsCandidate(rows))
  }

  /** The order in which the worker calls the loaded plugins that take the event. */
  function Dispatched(rows: Rows, loaded: seq<string>): seq<Candidate> {
    OrderBy(Waiting(rows, loaded), ByPriority())
  }

  /** A row without a priority ranks at 1000, and a negative priority ranks at 0. */
  ghost predicate Ranks(row: Row, rank: int) {
    match row.direct
    case None => rank == 1000
    case Some(block) =>
      match block.priority
      case None => rank == 1000
      case Some(p) => if p < 0 then rank == 0 else rank == p
  }

  lemma {:induction false} CalledAtRank(rows: Rows, loaded: seq<string>, i: nat, rank: int)
    requires Distinct(loaded) && i < |Dispatched(rows, loaded)|
    requires Dispatched(rows, loaded)[i].key in rows && Ranks(rows[Dispatched(rows, loaded)[i].key], rank)
    ensures Dispatched(rows, loaded)[i].priority == rank
  {
    ByPriorityOrders();
    WaitingDiffers(rows, loaded);
    OrderByKeeps(Waiting(rows, loaded), ByPriority());
    assert Dispatched(rows, loaded)[i] in Dispatched(rows, loaded);
  }

  lemma {:induction false} CalledInOrder(rows: Rows, loaded: seq<string>)
    ensures Sorted(Dispatched(rows, loaded), ByPriority())
  {
    ByPriorityOrders();
    OrderBySorts(Waiting(rows, loaded), ByPriority());
  }

  /** Of two loaded plugins that have opted in, the one that ranks lower, or has the smaller key, is called first. */
  lemma {:induction false} CalledFirst(rows: Rows, loaded: seq<string>, a: string, b: string, i: nat, j: nat,
                                       first: int, second: int)
    requires Distinct(loaded) && i < |Dispatched(rows, loaded)| && j < |Dispatched(rows, loaded)|
    requires Dispatched(rows, loaded)[i].key == a && Dispatched(rows, loaded)[j].key == b && a != b
    requires a in rows && b in rows && Ranks(rows[a], first) && Ranks(rows[b], second)
    ensures i < j <==> first < second || (first == second && KeyLeq(a, b))
  {
    CalledAtRank(rows, loaded, i, first);
    CalledAtRank(rows, loaded, j, second);
    CalledInOrder(rows, loaded);
    KeyTotal(a, b);
    var called := Dispatched(rows, loaded);
    if i < j {
      assert ByPriority()(called[i], called[j]);
    } else {
      assert ByPriority()(called[j], called[i]);
    }
  }

  /** Exactly the loaded plugins that have opted in are called, each once. */
  lemma {:induction false} AllAreCalled(rows: Rows, loaded: seq<string>)
    requires Distinct(loaded)
    ensures forall key :: (exists c :: c in Dispatched(rows, loaded) && c.key == key) <==>
              key in loaded && key in rows && rows[key].direct.Some? && rows[key].direct.value.enabled
    ensures Distinct(Dispatched(rows, loaded))
  {
    ByPriorityOrders();
    WaitingDiffers(rows, loaded);
    OrderBySorts(Waiting(rows, loaded), ByPriority());
    OrderByKeeps(Waiting(rows, loaded), ByPriority());
    CountsOne(Waiting(rows, loaded));
    DistinctFromCounts(Dispatched(rows, loaded));
    forall key | OptedIn(rows, key) && key in loaded
      ensures exists c :: c in Dispatched(rows, loaded) && c.key == key
    {
      assert Candidate(Priority(rows[key]), key) in Waiting(rows, loaded);
    }
  }

  lemma {:induction false} DistinctFromCounts<T>(s: seq<T>)
    requires forall x :: multiset(s)[x] <= 1
    ensures Distinct(s)
  {
    forall i, j | 0 <= i < j < |s|
      ensures s[i] != s[j]
    {
      assert s == s[..j] + [s[j]] + s[j + 1..];
      var front := s[..j];
      assert front[i] == s[i] && s[i] in front;
      assert multiset(s) == multiset(front) + multiset{s[j]} + multiset(s[j + 1..]);
      assert multiset(s)[s[j]] == multiset(front)[s[j]] + 1 + multiset(s[j + 1..])[s[j]];
    }
  }

  function Named(keys: seq<string>): Candidate -> bool {
    (c: Candidate) => c.key in keys
  }

  /** The requested order with the priorities it is given. */
  function Places(keys: seq<string>): seq<Candidate> {
    seq(|keys|, i requires 0 <= i < |keys| => Candidate(10 * i, keys[i]))
  }

  lemma {:induction false} CountsOne<T>(s: seq<T>)
    requires Distinct(s)
    ensures forall x :: multiset(s)[x] == if x in s then 1 else 0
  {
    if s != [] {
      CountsOne(s[1..]);
      assert s == [s[0]] + s[1..];
      assert s[0] !in s[1..];
    }
  }

  lemma {:induction false} WhereDiffers<T>(s: seq<T>, p: T -> bool)
    requires Distinct(s)
    ensures Distinct(Where(s, p))
  {
    if s != [] {
      WhereDiffers(s[1..], p);
      WhereMembers(s[1..], p);
      assert s[0] !in s[1..];
    }
  }

  lemma {:induction false} WaitingDiffers(rows: Rows, loaded: seq<string>)
    requires Distinct(loaded)
    ensures Distinct(Waiting(rows, loaded))
    ensures forall c :: c in Waiting(rows, loaded) <==>
      c.key in loaded && OptedIn(rows, c.key) && c.priority == Priority(rows[c.key])
  {
    var kept := Where(loaded, IsOptedIn(rows));
    WhereDiffers(loaded, IsOptedIn(rows));
    WhereMembers(loaded, IsOptedIn(rows));
    MapLength(kept, AsCandidate(rows));
    forall c: Candidate | c.key in kept && c.priority == Priority(rows[c.key])
      ensures c in Waiting(rows, loaded)
    {
      var i :| 0 <= i < |kept| && kept[i] == c.key;
      assert Waiting(rows, loaded)[i] == c;
    }
  }

  /** The requested plugins, placed, are waiting with exactly the places they were given. */
  lemma {:induction false} SameBag(before: Rows, after: Rows, keys: seq<string>, loaded: seq<string>)
    requires Placed(before, after, keys) && Distinct(keys) && Distinct(loaded)
    requires forall k :: k in keys ==> OptedIn(before, k)
    ensures multiset(Where(Waiting(after, loaded), Named(keys)))
         == multiset(Where(Places(keys), Named(loaded)))
  {
    var a, b := Where(Waiting(after, loaded), Named(keys)), Where(Places(keys), Named(loaded));
    WaitingDiffers(after, loaded);
    WhereDiffers(Waiting(after, loaded), Named(keys));
    assert Distinct(Places(keys)) by {
      forall i, j | 0 <= i < j < |keys| ensures Places(keys)[i] != Places(keys)[j] {}
    }
    WhereDiffers(Places(keys), Named(loaded));
    CountsOne(a);
    CountsOne(b);
    WhereMembers(Waiting(after, loaded), Named(keys));
    WhereMembers(Places(keys), Named(loaded));
    forall c: Candidate
      ensures c in a <==> c in b
    {
      SameMembers(before, after, keys, c);
    }
    assert forall c: Candidate :: multiset(a)[c] == multiset(b)[c];
  }

  lemma {:induction false} SameMembers(before: Rows, after: Rows, keys: seq<string>, c: Candidate)
    requires Placed(before, after, keys) && Distinct(keys)
    requires forall k :: k in keys ==> OptedIn(before, k)
    ensures c in Places(keys) <==> c.key in keys && OptedIn(after, c.key) && c.priority == Priority(after[c.key])
  {
    if c.key in keys {
      var i :| 0 <= i < |keys| && keys[i] == c.key;
      assert Places(keys)[i] == Candidate(10 * i, c.key);
      assert Priority(after[c.key]) == 10 * i;
    }
  }

  /**
   * After a successful reorder the worker calls the requested plugins it has loaded in the
   * requested order, whatever order it holds them in and whatever else is loaded.
   */
  lemma {:induction false} DispatchFollowsOrder(features: map<string, bool>, before: Rows, after: Rows,
                             keys: seq<string>, loaded: seq<string>)
    requires Placed(before, after, keys) && Distinct(keys) && Distinct(loaded)
    requires Leading(features, before, keys) == |keys|
    ensures Where(Dispatched(after, loaded), Named(keys)) == Where(Places(keys), Named(loaded))
  {
    var le := ByPriority();
    ByPriorityOrders();
    WhereOrderBy(Waiting(after, loaded), le, Named(keys));
    SameBag(before, after, keys, loaded);
    OrderBySameBag(Where(Waiting(after, loaded), Named(keys)), Where(Places(keys), Named(loaded)), le);
    WhereOrderBy(Places(keys), le, Named(loaded));
    OrderBySorts(Places(keys), le);
    SortedUnique(OrderBy(Places(keys), le), Places(keys), le);
  }

  // ---- the preview of the dispatch ----

  /** The preview reads a priority of 0 as "not set". */
  function Shown(c: Candidate): int {
    if c.priority == 0 then 1000 else c.priority
  }

  function ByPreview(): (Candidate, Candidate) -> bool {
    (a: Candidate, b: Candidate) => Shown(a) < Shown(b) || (Shown(a) == Shown(b) && KeyLeq(a.key, b.key))
  }

  /** The order in which `_evaluate_direct_passthrough_stage` lists the same plugins. */
  function Previewed(rows: Rows, loaded: seq<string>): seq<Candidate> {
    OrderBy(Waiting(rows, loaded), ByPreview())
  }

  lemma {:induction false} ByPreviewOrders()
    ensures TotalOrder(ByPreview())
  {
    forall a: Candidate, b: Candidate
      ensures ByPreview()(a, b) || ByPreview()(b, a)
    {
      KeyTotal(a.key, b.key);
    }
    forall a: Candidate, b: Candidate, c: Candidate | ByPreview()(a, b) && ByPreview()(b, c)
      ensures ByPreview()(a, c)
    {
      if Shown(a) == Shown(b) == Shown(c) {
        KeyTransitive(a.key, b.key, c.key);
      }
    }
  }

  /** A plugin of priority 0 keeps its place before this one in the preview, too. */
  predicate StaysBefore(z: Candidate, c: Candidate) {
    c.priority > 1000 || (c.priority == 1000 && KeyLeq(z.key, c.key))
  }

  ghost predicate ZerosStayFirst(cs: seq<Candidate>) {
    forall z, c :: z in cs && c in cs && z.priority == 0 && c.priority > 0 ==> StaysBefore(z, c)
  }

  /**
   * The preview lists the plugins in the order of the dispatch if and only if every plugin of
   * priority 0 would come before all others at priority 1000 as well.
   */
  lemma {:induction false} PreviewAgrees(rows: Rows, loaded: seq<string>)
    requires Distinct(loaded)
    ensures Previewed(rows, loaded) == Dispatched(rows, loaded) <==> ZerosStayFirst(Waiting(rows, loaded))
  {
    var cs := Waiting(rows, loaded);
    ByPriorityOrders();
    ByPreviewOrders();
    WaitingDiffers(rows, loaded);
    if ZerosStayFirst(cs) {
      forall a, b | a in cs && b in cs
        ensures ByPriority()(a, b) == ByPreview()(a, b)
      {
        KeyTotal(a.key, b.key);
        assert a.priority >= 0 && b.priority >= 0;
      }
      OrderByAgrees(cs, ByPriority(), ByPreview());
    }
    if Previewed(rows, loaded) == Dispatched(rows, loaded) {
      forall z, c | z in cs && c in cs && z.priority == 0 && c.priority > 0
        ensures StaysBefore(z, c)
      {
        SortedBothWays(cs, z, c);
      }
    }
  }

  lemma {:induction false} SortedBothWays(cs: seq<Candidate>, z: Candidate, c: Candidate)
    requires OrderBy(cs, ByPreview()) == OrderBy(cs, ByPriority())
    requires z in cs && c in cs && z.priority == 0 && c.priority > 0
    ensures StaysBefore(z, c)
  {
    ByPriorityOrders();
    ByPreviewOrders();
    OrderBySorts(cs, ByPriority());
    OrderBySorts(cs, ByPreview());
    OrderByKeeps(cs, ByPriority());
    var order := OrderBy(cs, ByPriority());
    var p :| 0 <= p < |order| && order[p] == z;
    var q :| 0 <= q < |order| && order[q] == c;
    assert q < p ==> ByPriority()(c, z);
    assert ByPreview()(z, c);
  }

  /** So after every reorder of two loaded plugins or more, the preview contradicts the dispatch. */
  lemma {:induction false} PreviewContradictsReorder(features: map<string, bool>, before: Rows, after: Rows,
                                                     keys: seq<string>, loaded: seq<string>)
    requires Placed(before, after, keys) && Distinct(keys) && Distinct(loaded)
    requires Leading(features, before, keys) == |keys| && |keys| >= 2
    requires keys[0] in loaded && keys[1] in loaded
    ensures Previewed(after, loaded) != Dispatched(after, loaded)
  {
    PreviewAgrees(after, loaded);
    WaitingDiffers(after, loaded);
    var z, c := Candidate(0, keys[0]), Candidate(10, keys[1]);
    assert Objection(features, before, keys[0]).None? && Objection(features, before, keys[1]).None?;
    assert z in Waiting(after, loaded) && c in Waiting(after, loaded);
    assert !StaysBefore(z, c);
  }
}
