/**
  Refreshing a provider's model list: the upstream list is fetched without the lock, then merged
  into the committed models under it, provided the connection settings are still the ones the
  list was fetched with.
*/
module ModelRefresh {

  import opened Common

  /** One candidate model; `extra` holds the fields the merge only carries along. */
  datatype Entry = Entry(id: string, enabled: bool, custom: bool, caption: Option<string>, extra: map<string, string>)

  function Ids(ms: seq<Entry>): seq<string> {
    seq(|ms|, i requires 0 <= i < |ms| => ms[i].id)
  }

  /** The entry a lookup by id finds: the last one with that id. */
  function Lookup(ms: seq<Entry>, id: string): Option<Entry> {
    if ms == [] then None
    else if ms[|ms| - 1].id == id then Some(ms[|ms| - 1])
    else Lookup(ms[..|ms| - 1], id)
  }

  /** The distinct ids in the order they first occur: the key order of the lookup dictionary. */
  function Keys(ms: seq<Entry>): seq<string> {
    if ms == [] then []
    else
      var before := Keys(ms[..|ms| - 1]);
      if ms[|ms| - 1].id in before then before else before + [ms[|ms| - 1].id]
  }

  /** How one fetched id enters the merged list. */
  function FetchedEntry(ms: seq<Entry>, id: string): Entry {
    match Lookup(ms, id)
    case Some(stored) => stored.(custom := false)
    case None => Entry(id, false, false, None, map[])
  }

  predicate KeptCustom(ms: seq<Entry>, fetched: seq<string>, id: string) {
    id !in fetched && Lookup(ms, id).Some? && Lookup(ms, id).value.custom
  }

  function CustomTail(ms: seq<Entry>, fetched: seq<string>, keys: seq<string>): seq<Entry> {
    if keys == [] then []
    else
      (if KeptCustom(ms, fetched, keys[0]) then [Lookup(ms, keys[0]).value] else []) +
      CustomTail(ms, fetched, keys[1..])
  }

  /** The fetched part of the merged list. */
  function Head(fetched: seq<string>, ms: seq<Entry>): seq<Entry> {
    seq(|fetched|, i requires 0 <= i < |fetched| => FetchedEntry(ms, fetched[i]))
  }

  /** The merged list: every fetched id in upstream order, then the user's own entries nobody fetched. */
  function Merged(fetched: seq<string>, ms: seq<Entry>): seq<Entry> {
    Head(fetched, ms) + CustomTail(ms, fetched, Keys(ms))
  }

  // ---- lookups ----

  lemma {:induction false} LookupHasId(ms: seq<Entry>, id: string)
    ensures Lookup(ms, id).Some? ==> Lookup(ms, id).value.id == id && Lookup(ms, id).value in ms
    ensures Lookup(ms, id).Some? <==> id in Ids(ms)
    ensures id in Keys(ms) <==> id in Ids(ms)
  {
    if ms != [] {
      LookupHasId(ms[..|ms| - 1], id);
      assert Ids(ms) == Ids(ms[..|ms| - 1]) + [ms[|ms| - 1].id];
    }
  }

  lemma {:induction false} LookupAppend(a: seq<Entry>, b: seq<Entry>, id: string)
    ensures Lookup(a + b, id) == if id in Ids(b) then Lookup(b, id) else Lookup(a, id)
    decreases |b|
  {
    if b == [] {
      assert a + b == a;
    } else {
      LookupAppend(a, b[..|b| - 1], id);
      assert (a + b)[..|a + b| - 1] == a + b[..|b| - 1];
      assert Ids(b) == Ids(b[..|b| - 1]) + [b[|b| - 1].id];
    }
  }

  /** When all entries with an id are equal, a lookup finds that entry. */
  lemma {:induction false} LookupUniform(ms: seq<Entry>, id: string, e: Entry)
    requires e in ms && e.id == id && forall x | x in ms && x.id == id :: x == e
    ensures Lookup(ms, id) == Some(e)
  {
    LookupHasId(ms, id);
    var k :| 0 <= k < |ms| && ms[k] == e;
    assert Ids(ms)[k] == id;
  }

  lemma {:induction false} KeysDistinct(ms: seq<Entry>)
    ensures Distinct(Keys(ms))
  {
    if ms != [] {
      KeysDistinct(ms[..|ms| - 1]);
    }
  }

  // ---- the tail of user entries ----

  function Filtered(ms: seq<Entry>, fetched: seq<string>, keys: seq<string>): seq<string> {
    if keys == [] then []
    else if KeptCustom(ms, fetched, keys[0]) then [keys[0]] + Filtered(ms, fetched, keys[1..])
    else Filtered(ms, fetched, keys[1..])
  }

  lemma {:induction false} TailIds(ms: seq<Entry>, fetched: seq<string>, keys: seq<string>)
    ensures Ids(CustomTail(ms, fetched, keys)) == Filtered(ms, fetched, keys)
    ensures forall e :: e in CustomTail(ms, fetched, keys) <==>
              (e.id in keys && KeptCustom(ms, fetched, e.id) && e == Lookup(ms, e.id).value)
  {
    if keys != [] {
      TailIds(ms, fetched, keys[1..]);
      LookupHasId(ms, keys[0]);
      var rest := CustomTail(ms, fetched, keys[1..]);
      if KeptCustom(ms, fetched, keys[0]) {
        assert Ids(CustomTail(ms, fetched, keys)) == [keys[0]] + Ids(rest);
      }
    }
  }

  lemma {:induction false} FilteredDistinct(ms: seq<Entry>, fetched: seq<string>, keys: seq<string>)
    requires Distinct(keys)
    ensures Distinct(Filtered(ms, fetched, keys))
    ensures forall id :: id in Filtered(ms, fetched, keys) <==> id in keys && KeptCustom(ms, fetched, id)
  {
    if keys != [] {
      var rest := Filtered(ms, fetched, keys[1..]);
      FilteredDistinct(ms, fetched, keys[1..]);
      assert keys == [keys[0]] + keys[1..];
      assert keys[0] !in keys[1..] && keys[0] !in rest;
      assert forall id :: id in [keys[0]] + rest <==> id == keys[0] || id in rest;
    }
  }

  /** Ids of the merged list: the fetched ids, then the unfetched custom ids. */
  lemma {:induction false} MergedIds(fetched: seq<string>, ms: seq<Entry>)
    ensures Ids(Merged(fetched, ms)) == fetched + Filtered(ms, fetched, Keys(ms))
  {
    TailIds(ms, fetched, Keys(ms));
    HeadIds(fetched, ms);
    assert Ids(Merged(fetched, ms)) == Ids(Head(fetched, ms)) + Ids(CustomTail(ms, fetched, Keys(ms)));
  }

  /** What a lookup in the merged list finds, for every id. */
  lemma {:induction false} MergedLookup(fetched: seq<string>, ms: seq<Entry>, id: string)
    ensures Lookup(Merged(fetched, ms), id) ==
            if id in fetched then Some(FetchedEntry(ms, id))
            else if KeptCustom(ms, fetched, id) then Lookup(ms, id)
            else None
  {
    var head := Head(fetched, ms);
    var tail := CustomTail(ms, fetched, Keys(ms));
    LookupAppend(head, tail, id);
    TailIds(ms, fetched, Keys(ms));
    KeysDistinct(ms);
    FilteredDistinct(ms, fetched, Keys(ms));
    LookupHasId(ms, id);
    LookupHasId(head, id);
    LookupHasId(tail, id);
    HeadIds(fetched, ms);
    forall i | 0 <= i < |fetched| ensures head[i].id == fetched[i] { assert Ids(head)[i] == fetched[i]; }
    if id in fetched {
      var k :| 0 <= k < |fetched| && fetched[k] == id;
      assert head[k] in head;
      LookupUniform(head, id, FetchedEntry(ms, id));
    } else if KeptCustom(ms, fetched, id) {
      LookupUniform(tail, id, Lookup(ms, id).value);
    }
  }

  // ---- what the user is promised ----

  /**
    Nothing becomes enabled by a refresh, and every model that is fetched or was added by the
    user keeps its state: no enable or disable committed before the merge is lost.
  */
  lemma {:induction false} EnabledStateKept(fetched: seq<string>, ms: seq<Entry>, id: string)
    ensures var after := Lookup(Merged(fetched, ms), id);
            var before := Lookup(ms, id);
            && (after.Some? && after.value.enabled ==> before.Some? && before.value.enabled)
            && (before.Some? && (id in fetched || before.value.custom) ==>
                  after.Some? && after.value.enabled == before.value.enabled
                  && after.value.caption == before.value.caption && after.value.extra == before.value.extra)
            && (after.None? <==> id !in fetched && !(before.Some? && before.value.custom))
  {
    MergedLookup(fetched, ms, id);
  }

  /** No entry after position `p` has its id: it is the one the dictionary keeps. */
  ghost predicate LastOfItsId(ms: seq<Entry>, p: nat) {
    p < |ms| && forall q | p < q < |ms| :: ms[q].id != ms[p].id
  }

  lemma {:induction false} LookupIsLast(ms: seq<Entry>, p: nat)
    requires LastOfItsId(ms, p)
    ensures Lookup(ms, ms[p].id) == Some(ms[p])
  {
    if p < |ms| - 1 {
      assert LastOfItsId(ms[..|ms| - 1], p);
      LookupIsLast(ms[..|ms| - 1], p);
    }
  }

  /**
    The merged list, entry by entry.  A fetched id stored before keeps its last entry's state and
    is no longer the user's own; a new one is off, without caption or further fields; and after
    the fetched ids stand the user's own entries nobody fetched, as they were.
  */
  lemma {:induction false} MergedContents(fetched: seq<string>, ms: seq<Entry>, i: nat)
    requires i < |Merged(fetched, ms)|
    ensures |Merged(fetched, ms)| >= |fetched|
    ensures i < |fetched| ==>
              var e := Merged(fetched, ms)[i];
              && e.id == fetched[i] && !e.custom
              && (forall p: nat | LastOfItsId(ms, p) && ms[p].id == e.id ::
                    e.enabled == ms[p].enabled && e.caption == ms[p].caption && e.extra == ms[p].extra)
              && (e.id !in Ids(ms) ==> !e.enabled && e.caption == None && e.extra == map[])
    ensures i >= |fetched| ==>
              var e := Merged(fetched, ms)[i];
              e.custom && e.id !in fetched && exists p: nat :: LastOfItsId(ms, p) && e == ms[p]
  {
    if i < |fetched| {
      LookupHasId(ms, fetched[i]);
      forall p: nat | LastOfItsId(ms, p) && ms[p].id == fetched[i] ensures Lookup(ms, fetched[i]) == Some(ms[p]) {
        LookupIsLast(ms, p);
      }
    } else {
      TailIds(ms, fetched, Keys(ms));
      var e := Merged(fetched, ms)[i];
      assert e == CustomTail(ms, fetched, Keys(ms))[i - |fetched|];
      assert e in CustomTail(ms, fetched, Keys(ms));
      var p := LookupPlace(ms, e.id);
    }
  }

  lemma {:induction false} LookupPlace(ms: seq<Entry>, id: string) returns (p: nat)
    requires Lookup(ms, id).Some?
    ensures LastOfItsId(ms, p) && Lookup(ms, id) == Some(ms[p])
  {
    p := |ms| - 1;
    if ms[p].id != id {
      LookupHasId(ms[..p], id);
      p := LookupPlace(ms[..p], id);
    }
  }

  lemma {:induction false} TailAgrees(a: seq<Entry>, b: seq<Entry>, fetched: seq<string>, keys: seq<string>)
    requires forall k | k in keys :: KeptCustom(a, fetched, k) == KeptCustom(b, fetched, k)
    requires forall k | k in keys && KeptCustom(a, fetched, k) :: Lookup(a, k) == Lookup(b, k)
    ensures CustomTail(a, fetched, keys) == CustomTail(b, fetched, keys)
  {
    if keys != [] {
      TailAgrees(a, b, fetched, keys[1..]);
    }
  }

  lemma {:induction false} TailSkips(ms: seq<Entry>, fetched: seq<string>, front: seq<string>, keys: seq<string>)
    requires forall k | k in front :: !KeptCustom(ms, fetched, k)
    ensures CustomTail(ms, fetched, front + keys) == CustomTail(ms, fetched, keys)
  {
    if front == [] {
      assert front + keys == keys;
    } else {
      TailSkips(ms, fetched, front[1..], keys);
      assert (front + keys)[1..] == front[1..] + keys;
    }
  }

  lemma {:induction false} TailOfFiltered(ms: seq<Entry>, fetched: seq<string>, keys: seq<string>)
    ensures CustomTail(ms, fetched, Filtered(ms, fetched, keys)) == CustomTail(ms, fetched, keys)
  {
    if keys != [] {
      TailOfFiltered(ms, fetched, keys[1..]);
      if KeptCustom(ms, fetched, keys[0]) {
        assert Filtered(ms, fetched, keys)[1..] == Filtered(ms, fetched, keys[1..]);
      } else {
        assert Filtered(ms, fetched, keys) == Filtered(ms, fetched, keys[1..]);
        assert CustomTail(ms, fetched, keys) == CustomTail(ms, fetched, keys[1..]);
      }
    }
  }

  /** The dictionary keys of a list whose last entries are new and distinct. */
  lemma {:induction false} KeysAppend(a: seq<Entry>, b: seq<Entry>)
    requires forall i | 0 <= i < |b| :: b[i].id !in Ids(a)
    requires forall i, j | 0 <= i < j < |b| :: b[i].id != b[j].id
    ensures Keys(a + b) == Keys(a) + Ids(b)
    decreases |b|
  {
    if b == [] {
      assert a + b == a;
    } else {
      var b' := b[..|b| - 1];
      KeysAppend(a, b');
      assert a + b == (a + b') + [b[|b| - 1]];
      assert (a + b)[..|a + b| - 1] == a + b';
      assert Ids(b) == Ids(b') + [b[|b| - 1].id];
      LookupHasId(a, b[|b| - 1].id);
    }
  }

  lemma {:induction false} HeadIds(fetched: seq<string>, ms: seq<Entry>)
    ensures Ids(Head(fetched, ms)) == fetched
  {
    forall i | 0 <= i < |fetched| ensures FetchedEntry(ms, fetched[i]).id == fetched[i] {
      LookupHasId(ms, fetched[i]);
    }
  }

  /** The dictionary keys of a merged list: the distinct fetched ids, then the kept ones. */
  lemma {:induction false} KeysOfMerged(fetched: seq<string>, ms: seq<Entry>)
    ensures Keys(Merged(fetched, ms)) == Keys(Head(fetched, ms)) + Filtered(ms, fetched, Keys(ms))
    ensures forall k | k in Keys(Head(fetched, ms)) :: k in fetched
  {
    var head, tail := Head(fetched, ms), CustomTail(ms, fetched, Keys(ms));
    var kept := Filtered(ms, fetched, Keys(ms));
    HeadIds(fetched, ms);
    TailIds(ms, fetched, Keys(ms));
    KeysDistinct(ms);
    FilteredDistinct(ms, fetched, Keys(ms));
    forall i | 0 <= i < |tail| ensures tail[i].id == kept[i] { assert Ids(tail)[i] == kept[i]; }
    KeysAppend(head, tail);
    forall k | k in Keys(head) ensures k in fetched { LookupHasId(head, k); }
  }

  lemma {:induction false} TailOfMerged(fetched: seq<string>, ms: seq<Entry>)
    ensures var m := Merged(fetched, ms);
            CustomTail(m, fetched, Keys(m)) == CustomTail(ms, fetched, Keys(ms))
  {
    var m := Merged(fetched, ms);
    var kept := Filtered(ms, fetched, Keys(ms));
    KeysOfMerged(fetched, ms);
    KeysDistinct(ms);
    FilteredDistinct(ms, fetched, Keys(ms));
    TailSkips(m, fetched, Keys(Head(fetched, ms)), kept);
    forall k | k in kept
      ensures KeptCustom(m, fetched, k) && KeptCustom(ms, fetched, k) && Lookup(m, k) == Lookup(ms, k)
    {
      MergedLookup(fetched, ms, k);
    }
    TailAgrees(m, ms, fetched, kept);
    TailOfFiltered(ms, fetched, Keys(ms));
  }

  /** Refreshing twice with the same upstream list is refreshing once. */
  lemma {:induction false} MergeIdempotent(fetched: seq<string>, ms: seq<Entry>)
    ensures Merged(fetched, Merged(fetched, ms)) == Merged(fetched, ms)
  {
    var m := Merged(fetched, ms);
    TailOfMerged(fetched, ms);
    forall i | 0 <= i < |fetched| ensures FetchedEntry(m, fetched[i]) == FetchedEntry(ms, fetched[i]) {
      MergedLookup(fetched, ms, fetched[i]);
    }
    assert Head(fetched, m) == Head(fetched, ms);
  }

  // ---- the handler's locked part ----

  lemma {:induction false} TailAppend(ms: seq<Entry>, fetched: seq<string>, keys: seq<string>, k: string)
    ensures CustomTail(ms, fetched, keys + [k]) ==
            CustomTail(ms, fetched, keys) + (if KeptCustom(ms, fetched, k) then [Lookup(ms, k).value] else [])
  {
    if keys != [] {
      TailAppend(ms, fetched, keys[1..], k);
      assert (keys + [k])[1..] == keys[1..] + [k];
    }
  }

  /** What the dictionary holds, and in which order its keys came. */
  ghost predicate Indexes(existing: map<string, Entry>, order: seq<string>, ms: seq<Entry>) {
    && order == Keys(ms)
    && (forall id :: id in existing <==> Lookup(ms, id).Some?)
    && (forall id | id in existing :: Lookup(ms, id) == Some(existing[id]))
  }

  /** The dictionary comprehension over the stored entries. */
  method Index(ms: seq<Entry>) returns (existing: map<string, Entry>, order: seq<string>)
    ensures Indexes(existing, order, ms)
  {
    existing, order := map[], [];
    for i := 0 to |ms|
      invariant Indexes(existing, order, ms[..i])
    {
      assert ms[..i + 1][..i] == ms[..i];
      LookupHasId(ms[..i], ms[i].id);
      if ms[i].id !in existing {
        order := order + [ms[i].id];
      }
      existing := existing[ms[i].id := ms[i]];
    }
    assert ms[..|ms|] == ms;
  }

  /** The loop over the fetched ids. */
  method MergeFetched(fetched: seq<string>, existing: map<string, Entry>,
                      ghost order: seq<string>, ghost ms: seq<Entry>)
    returns (merged: seq<Entry>)
    requires Indexes(existing, order, ms)
    ensures merged == Head(fetched, ms)
  {
    merged := [];
    for i := 0 to |fetched|
      invariant merged == seq(i, j requires 0 <= j < i => FetchedEntry(ms, fetched[j]))
    {
      var mid := fetched[i];
      if mid in existing {
        LookupHasId(ms, mid);
        merged := merged + [existing[mid].(id := mid, custom := false)];
      } else {
        merged := merged + [Entry(mid, false, false, None, map[])];
      }
    }
  }

  /** The dictionary comprehension over the stored entries, and the two loops that fill `merged`. */
  method Merge(fetched: seq<string>, ms: seq<Entry>) returns (merged: seq<Entry>)
    ensures merged == Merged(fetched, ms)
  {
    var existing, order := Index(ms);
    merged := MergeFetched(fetched, existing, order, ms);
    ghost var head := merged;
    for i := 0 to |order|
      invariant merged == head + CustomTail(ms, fetched, order[..i])
    {
      var mid := order[i];
      LookupHasId(ms, mid);
      assert order[..i + 1] == order[..i] + [mid];
      TailAppend(ms, fetched, order[..i], mid);
      if mid !in fetched && existing[mid].custom {
        merged := merged + [existing[mid].(id := mid)];
      }
    }
    assert order[..|order|] == order;
  }

  /** The connection settings an upstream list was fetched with. */
  type Signature = seq<string>

  class ProviderRow {
    var signature: Signature
    var models: seq<Entry>

    constructor (signature: Signature, models: seq<Entry>)
      ensures this.signature == signature && this.models == models
    {
      this.signature, this.models := signature, models;
    }

    /**
      Runs under the lock on the refreshed row.  A list fetched over a connection that has been
      edited since is refused and writes nothing; otherwise the merge starts from the models as
      they are now, so edits made while the upstream was being asked survive.
    */
    method WriteFetched(fetchedWith: Signature, fetched: seq<string>) returns (written: bool)
      modifies this
      ensures signature == old(signature)
      ensures written <==> old(signature) == fetchedWith
      ensures models == if written then Merged(fetched, old(models)) else old(models)
    {
      written := signature == fetchedWith;
      if written {
        models := Merge(fetched, models);
      }
    }
  }
}
