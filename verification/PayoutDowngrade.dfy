/**
  The downgrade of 0039: account-scoped payout keys are rendered into one global namespace, row
  by row, on the compensation table and the action ledger, and into their JSON copies.
  `digest` stands for the first 32 hex digits of SHA-256.
*/
module PayoutDowngrade {
  import opened Common
  import opened PayoutMigrations
  import opened Text

  // ---- the rendering ----

  ghost predicate Digest(digest: string -> string) {
    forall k :: |digest(k)| == 32 && Hex(digest(k))
  }

  /** `_legacy_global_payout_key` */
  function LegacyKey(digest: string -> string, account: int, key: string): string {
    "legacy_" + Decimal(account) + "_" + digest(key)
  }

  /** The rendering determines the account and the digest. */
  lemma {:induction false} LegacyKeyInjective(digest: string -> string, a: int, k: string, b: int, l: string)
    requires Digest(digest) && LegacyKey(digest, a, k) == LegacyKey(digest, b, l)
    ensures a == b && digest(k) == digest(l)
  {
    var s, t := LegacyKey(digest, a, k), LegacyKey(digest, b, l);
    assert |digest(k)| == 32 && |digest(l)| == 32;
    assert s[|s| - 32..] == digest(k) && t[|t| - 32..] == digest(l);
    assert s[7..|s| - 33] == Decimal(a) && t[7..|t| - 33] == Decimal(b);
    DecimalInjective(a, b);
  }

  /** For every BIGINT account id the rendered key fits the 80-character column. */
  lemma {:induction false} LegacyKeyFits(digest: string -> string, account: int, key: string)
    requires Digest(digest) && -0x8000_0000_0000_0000 <= account < 0x8000_0000_0000_0000
    ensures |LegacyKey(digest, account, key)| <= 80
  {
    var n: nat := if account < 0 then -account else account;
    assert Pow10(1) == 10 && Pow10(4) == 10_000 && Pow10(8) == 1_0000_0000 by {
      assert Pow10(2) == 100 && Pow10(3) == 1000;
      assert Pow10(5) == 10_0000 && Pow10(6) == 100_0000 && Pow10(7) == 1000_0000;
    }
    assert Pow10(12) == 1_0000_0000_0000 by {
      assert Pow10(9) == 10_0000_0000 && Pow10(10) == 100_0000_0000 && Pow10(11) == 1000_0000_0000;
    }
    assert Pow10(16) == 1_0000_0000_0000_0000 by {
      assert Pow10(13) == 10_0000_0000_0000 && Pow10(14) == 100_0000_0000_0000 && Pow10(15) == 1000_0000_0000_0000;
    }
    assert Pow10(19) == 1000_0000_0000_0000_0000 by {
      assert Pow10(17) == 10_0000_0000_0000_0000 && Pow10(18) == 100_0000_0000_0000_0000;
    }
    DigitsShort(n, 19);
    assert |digest(key)| == 32;
  }

  // ---- the two tables ----

  datatype Payload = NoDict | Dict(key: Field)
  datatype Compensation = Compensation(id: int, account: int, key: string, payload: Payload)

  function RestoredCompensation(digest: string -> string, c: Compensation): Compensation {
    var k := LegacyKey(digest, c.account, c.key);
    c.(key := k, payload := Dict(Text(k)))
  }

  function RestoredParams(p: Params, k: string): Params {
    Summary(Text(k),
            if p.Summary? && p.result.Object? && !p.result.key.Absent? then Object(Text(k))
            else if p.Summary? then p.result
            else NoObject)
  }

  function RestoredRow(digest: string -> string, r: Row): Row {
    match r.key
    case None => r
    case Some(key) =>
      var k := LegacyKey(digest, r.account, key);
      r.(key := Some(k), params := RestoredParams(r.params, k))
  }

  function RestoredCompensations(digest: string -> string, cs: seq<Compensation>): seq<Compensation> {
    seq(|cs|, i requires 0 <= i < |cs| => RestoredCompensation(digest, cs[i]))
  }

  function RestoredRows(digest: string -> string, rs: seq<Row>): seq<Row> {
    seq(|rs|, i requires 0 <= i < |rs| => RestoredRow(digest, rs[i]))
  }

  /** uq_payout_compensation_account_key */
  ghost predicate CompensationIndex(cs: seq<Compensation>) {
    forall i, j | 0 <= i < j < |cs| :: !(cs[i].account == cs[j].account && cs[i].key == cs[j].key)
  }

  /** The digest tells apart every two keys stored in either table. */
  ghost predicate Distinguishes(digest: string -> string, cs: seq<Compensation>, rs: seq<Row>) {
    && Digest(digest)
    && forall k, l | Stored(k, cs, rs) && Stored(l, cs, rs) && digest(k) == digest(l) :: k == l
  }

  predicate Stored(k: string, cs: seq<Compensation>, rs: seq<Row>) {
    || (exists i | 0 <= i < |cs| :: cs[i].key == k)
    || (exists i | 0 <= i < |rs| :: rs[i].key == Some(k))
  }

  lemma StoredKeys(cs: seq<Compensation>, rs: seq<Row>)
    ensures forall i | 0 <= i < |cs| :: Stored(cs[i].key, cs, rs)
    ensures forall i | 0 <= i < |rs| && rs[i].key.Some? :: Stored(rs[i].key.value, cs, rs)
  {
  }

  // ---- the row loop, under the account-scoped indexes ----

  /** No row's new key is the present key of a row of its account that is still to come. */
  ghost predicate CompensationOrderSafe(digest: string -> string, cs: seq<Compensation>) {
    forall i, j | 0 <= i < j < |cs| ::
      !(cs[i].account == cs[j].account && LegacyKey(digest, cs[i].account, cs[i].key) == cs[j].key)
  }

  ghost predicate RowOrderSafe(digest: string -> string, rs: seq<Row>) {
    forall i, j | 0 <= i < j < |rs| && rs[i].key.Some? ::
      !SamePartition(PerAccount, RestoredRow(digest, rs[i]), rs[j])
  }

  /** A clash in the middle of the loop is with a row still to come. */
  lemma {:induction false} ClashIsUnsafe(digest: string -> string, before: seq<Row>, now: seq<Row>, i: nat)
    requires |now| == |before| && i < |before| && before[i].key.Some?
    requires forall k | i < k < |before| :: now[k] == before[k]
    requires forall k | 0 <= k < i :: !SamePartition(PerAccount, RestoredRow(digest, before[i]), now[k])
    requires exists j | 0 <= j < |now| && j != i :: SamePartition(PerAccount, RestoredRow(digest, before[i]), now[j])
    ensures !RowOrderSafe(digest, before)
  {
    var j :| 0 <= j < |now| && j != i && SamePartition(PerAccount, RestoredRow(digest, before[i]), now[j]);
    assert now[j] == before[j];
  }

  class Tables {
    var compensations: seq<Compensation>
    var actions: seq<Row>

    constructor (cs: seq<Compensation>, rs: seq<Row>)
      ensures compensations == cs && actions == rs
    {
      compensations, actions := cs, rs;
    }

    /** UPDATE of one compensation row, refused when the unique index would break. */
    method WriteCompensation(i: nat, c: Compensation) returns (ok: bool)
      requires i < |compensations|
      modifies this`compensations
      ensures ok <==> forall j | 0 <= j < |old(compensations)| && j != i ::
                        !(old(compensations)[j].account == c.account && old(compensations)[j].key == c.key)
      ensures compensations == if ok then old(compensations)[i := c] else old(compensations)
    {
      ok := true;
      for j := 0 to |compensations|
        invariant compensations == old(compensations)
        invariant ok <==> forall k | 0 <= k < j && k != i ::
                            !(compensations[k].account == c.account && compensations[k].key == c.key)
      {
        if j != i && compensations[j].account == c.account && compensations[j].key == c.key {
          ok := false;
        }
      }
      if ok {
        compensations := compensations[i := c];
      }
    }

    method WriteAction(i: nat, r: Row) returns (ok: bool)
      requires i < |actions|
      modifies this`actions
      ensures ok <==> forall j | 0 <= j < |old(actions)| && j != i :: !SamePartition(PerAccount, r, old(actions)[j])
      ensures actions == if ok then old(actions)[i := r] else old(actions)
    {
      ok := true;
      for j := 0 to |actions|
        invariant actions == old(actions)
        invariant ok <==> forall k | 0 <= k < j && k != i :: !SamePartition(PerAccount, r, actions[k])
      {
        if j != i && SamePartition(PerAccount, r, actions[j]) {
          ok := false;
        }
      }
      if ok {
        actions := actions[i := r];
      }
    }

    /** The first loop of `_restore_global_payout_keys`. */
    method RestoreCompensations(digest: string -> string) returns (ok: bool)
      requires CompensationIndex(compensations) && Distinguishes(digest, compensations, actions)
      modifies this`compensations
      ensures ok <==> CompensationOrderSafe(digest, old(compensations))
      ensures ok ==> compensations == RestoredCompensations(digest, old(compensations))
    {
      ghost var before := compensations;
      var selected := compensations;
      StoredKeys(before, actions);
      for i := 0 to |selected|
        invariant |compensations| == |before| && selected == before
        invariant forall k | 0 <= k < |before| ::
                    compensations[k] == if k < i then RestoredCompensation(digest, before[k]) else before[k]
        invariant forall k, j | 0 <= k < i && k < j < |before| ::
                    !(before[k].account == before[j].account
                      && LegacyKey(digest, before[k].account, before[k].key) == before[j].key)
      {
        var c := RestoredCompensation(digest, selected[i]);
        forall k | 0 <= k < i
          ensures !(compensations[k].account == c.account && compensations[k].key == c.key)
        {
          if compensations[k].key == c.key {
            LegacyKeyInjective(digest, before[k].account, before[k].key, before[i].account, before[i].key);
          }
        }
        var written := WriteCompensation(i, c);
        if !written {
          return false;
        }
      }
      return true;
    }

    /** The second loop; rows without a key are not selected. */
    method RestoreActions(digest: string -> string, ghost cs: seq<Compensation>) returns (ok: bool)
      requires IndexHolds(PerAccount, actions) && Distinguishes(digest, cs, actions)
      modifies this`actions
      ensures ok <==> RowOrderSafe(digest, old(actions))
      ensures ok ==> actions == RestoredRows(digest, old(actions))
    {
      ghost var before := actions;
      var selected := actions;
      StoredKeys(cs, before);
      for i := 0 to |selected|
        invariant |actions| == |before| && selected == before
        invariant forall k | 0 <= k < |before| ::
                    actions[k] == if k < i then RestoredRow(digest, before[k]) else before[k]
        invariant forall k, j | 0 <= k < i && k < j < |before| && before[k].key.Some? ::
                    !SamePartition(PerAccount, RestoredRow(digest, before[k]), before[j])
      {
        if selected[i].key.Some? {
          var r := RestoredRow(digest, selected[i]);
          forall k | 0 <= k < i ensures !SamePartition(PerAccount, r, actions[k]) {
            RestoredApart(digest, cs, before, k, i);
          }
          var written := WriteAction(i, r);
          if !written {
            ClashIsUnsafe(digest, before, actions, i);
            return false;
          }
        }
      }
      return true;
    }

    /**
      `_restore_global_payout_keys`.  It succeeds if and only if no row, in the order the SELECT
      returned them, renders to the present key of a later row of its account; a violation aborts
      the migration's transaction and leaves both tables as they were.
    */
    method RestoreGlobalKeys(digest: string -> string) returns (ok: bool)
      requires CompensationIndex(compensations) && IndexHolds(PerAccount, actions)
      requires Distinguishes(digest, compensations, actions)
      modifies this
      ensures ok <==> CompensationOrderSafe(digest, old(compensations)) && RowOrderSafe(digest, old(actions))
      ensures compensations == if ok then RestoredCompensations(digest, old(compensations)) else old(compensations)
      ensures actions == if ok then RestoredRows(digest, old(actions)) else old(actions)
    {
      var cs, rs := compensations, actions;
      ok := RestoreCompensations(digest);
      if ok {
        ok := RestoreActions(digest, cs);
      }
      if !ok {
        compensations, actions := cs, rs;
      }
    }
  }

  /** Two rows the account index keeps apart stay apart after both have been rendered. */
  lemma {:induction false} RestoredApart(digest: string -> string, cs: seq<Compensation>, rs: seq<Row>, i: nat, j: nat)
    requires i < j < |rs| && IndexHolds(PerAccount, rs) && Distinguishes(digest, cs, rs)
    ensures !SamePartition(Global, RestoredRow(digest, rs[j]), RestoredRow(digest, rs[i]))
    ensures !SamePartition(Global, RestoredRow(digest, rs[i]), RestoredRow(digest, rs[j]))
  {
    StoredKeys(cs, rs);
    if rs[i].key.Some? && rs[j].key.Some?
       && RestoredRow(digest, rs[i]).key == RestoredRow(digest, rs[j]).key {
      LegacyKeyInjective(digest, rs[i].account, rs[i].key.value, rs[j].account, rs[j].key.value);
      assert !SamePartition(PerAccount, rs[i], rs[j]);
    }
  }

  // ---- when the order of the SELECT matters ----

  /** A row's account and key, as either table holds them. */
  datatype Keyed = Keyed(account: int, key: Option<string>)

  function TicketKeys(cs: seq<Compensation>): seq<Keyed> {
    seq(|cs|, i requires 0 <= i < |cs| => Keyed(cs[i].account, Some(cs[i].key)))
  }

  function RowKeys(rs: seq<Row>): seq<Keyed> {
    seq(|rs|, i requires 0 <= i < |rs| => Keyed(rs[i].account, rs[i].key))
  }

  /** No row renders to the present key of a later row of its account. */
  ghost predicate OrderSafe(digest: string -> string, ks: seq<Keyed>) {
    forall i, j | 0 <= i < j < |ks| && ks[i].key.Some? && ks[i].account == ks[j].account ::
      ks[j].key != Some(LegacyKey(digest, ks[i].account, ks[i].key.value))
  }

  lemma {:induction false} OrderSafeMeans(digest: string -> string, cs: seq<Compensation>, rs: seq<Row>)
    ensures OrderSafe(digest, TicketKeys(cs)) <==> CompensationOrderSafe(digest, cs)
    ensures OrderSafe(digest, RowKeys(rs)) ==> RowOrderSafe(digest, rs)
  {
    if OrderSafe(digest, TicketKeys(cs)) {
      forall i, j | 0 <= i < j < |cs|
        ensures !(cs[i].account == cs[j].account && LegacyKey(digest, cs[i].account, cs[i].key) == cs[j].key)
      {
        assert TicketKeys(cs)[i].account == cs[i].account && TicketKeys(cs)[j].key == Some(cs[j].key);
      }
    }
    if OrderSafe(digest, RowKeys(rs)) {
      forall i, j | 0 <= i < j < |rs| && rs[i].key.Some?
        ensures !SamePartition(PerAccount, RestoredRow(digest, rs[i]), rs[j])
      {
        assert RowKeys(rs)[i].account == rs[i].account && RowKeys(rs)[j].key == rs[j].key;
      }
    }
  }

  /** A key the application made up itself. */
  predicate Plain(key: string) {
    !("legacy_" <= key)
  }

  lemma {:induction false} RenderingIsNotPlain(digest: string -> string, account: int, key: string)
    ensures !Plain(LegacyKey(digest, account, key))
  {
    var prefix := "legacy_";
    assert LegacyKey(digest, account, key) == prefix + (Decimal(account) + "_" + digest(key));
  }

  /** A first downgrade, of plain keys only, cannot fail, whatever order the SELECT returns. */
  lemma {:induction false} FirstDowngradeIsSafe(digest: string -> string, cs: seq<Compensation>, rs: seq<Row>)
    requires forall i | 0 <= i < |cs| :: Plain(cs[i].key)
    requires forall i | 0 <= i < |rs| && rs[i].key.Some? :: Plain(rs[i].key.value)
    ensures CompensationOrderSafe(digest, cs) && RowOrderSafe(digest, rs)
  {
    forall i | 0 <= i < |cs|
      ensures !Plain(LegacyKey(digest, cs[i].account, cs[i].key))
    {
      RenderingIsNotPlain(digest, cs[i].account, cs[i].key);
    }
    forall i | 0 <= i < |rs| && rs[i].key.Some?
      ensures !Plain(LegacyKey(digest, rs[i].account, rs[i].key.value))
    {
      RenderingIsNotPlain(digest, rs[i].account, rs[i].key.value);
    }
  }

  /** What `n` downgrades make of a key. */
  function Rendered(digest: string -> string, account: int, key: string, n: nat): string {
    if n == 0 then key else LegacyKey(digest, account, Rendered(digest, account, key, n - 1))
  }

  /** The key a row was inserted with, and how many downgrades it has been through. */
  datatype Origin = Origin(key: string, downgrades: nat)

  /**
    A table in id order after any number of insertions, downgrades and upgrades: keys come in
    plain, and an older row has been through every downgrade a younger one has.
  */
  ghost predicate Grown(digest: string -> string, ks: seq<Keyed>, os: seq<Origin>) {
    && |ks| == |os|
    && (forall i | 0 <= i < |ks| && ks[i].key.Some? ::
          Plain(os[i].key) && ks[i].key.value == Rendered(digest, ks[i].account, os[i].key, os[i].downgrades))
    && (forall i, j | 0 <= i < j < |os| :: os[i].downgrades >= os[j].downgrades)
  }

  /** The digest tells apart every key any of these rows has ever had. */
  ghost predicate Tells(digest: string -> string, ks: seq<Keyed>, os: seq<Origin>, ever: set<string>)
    requires |ks| == |os|
  {
    && Digest(digest)
    && (forall i, n: nat | 0 <= i < |ks| && n <= os[i].downgrades ::
          Rendered(digest, ks[i].account, os[i].key, n) in ever)
    && (forall k, l | k in ever && l in ever && digest(k) == digest(l) :: k == l)
  }

  function Downgraded(digest: string -> string, ks: seq<Keyed>): seq<Keyed> {
    seq(|ks|, i requires 0 <= i < |ks| =>
      if ks[i].key.Some? then ks[i].(key := Some(LegacyKey(digest, ks[i].account, ks[i].key.value))) else ks[i])
  }

  function Older(os: seq<Origin>): seq<Origin> {
    seq(|os|, i requires 0 <= i < |os| => os[i].(downgrades := os[i].downgrades + 1))
  }

  /** Inserting a row with a plain key and downgrading the tables both keep a grown table grown. */
  lemma {:induction false} StaysGrown(digest: string -> string, ks: seq<Keyed>, os: seq<Origin>, k: Keyed)
    requires Grown(digest, ks, os) && (k.key.Some? ==> Plain(k.key.value))
    ensures Grown(digest, ks + [k], os + [Origin(k.key.GetOr(""), 0)])
    ensures Grown(digest, Downgraded(digest, ks), Older(os))
  {
  }

  lemma {:induction false} RestoreDowngrades(digest: string -> string, cs: seq<Compensation>, rs: seq<Row>)
    ensures TicketKeys(RestoredCompensations(digest, cs)) == Downgraded(digest, TicketKeys(cs))
    ensures RowKeys(RestoredRows(digest, rs)) == Downgraded(digest, RowKeys(rs))
  {
  }

  /** So does the downgrade as the two loops carry it out. */
  lemma {:induction false} DowngradeKeepsGrown(digest: string -> string, cs: seq<Compensation>, rs: seq<Row>,
                                               cos: seq<Origin>, ros: seq<Origin>)
    requires Grown(digest, TicketKeys(cs), cos) && Grown(digest, RowKeys(rs), ros)
    ensures Grown(digest, TicketKeys(RestoredCompensations(digest, cs)), Older(cos))
    ensures Grown(digest, RowKeys(RestoredRows(digest, rs)), Older(ros))
  {
    RestoreDowngrades(digest, cs, rs);
    StaysGrown(digest, TicketKeys(cs), cos, Keyed(0, None));
    StaysGrown(digest, RowKeys(rs), ros, Keyed(0, None));
  }

  /** Two keys of one account that have become equal have been through equally many downgrades. */
  lemma {:induction false} SameAge(digest: string -> string, account: int, k: string, n: nat,
                                   l: string, m: nat, ever: set<string>)
    requires Plain(l) && Digest(digest)
    requires forall i: nat | i <= n :: Rendered(digest, account, k, i) in ever
    requires forall i: nat | i <= m :: Rendered(digest, account, l, i) in ever
    requires forall x, y | x in ever && y in ever && digest(x) == digest(y) :: x == y
    requires Rendered(digest, account, k, n) == Rendered(digest, account, l, m)
    ensures n <= m
  {
    if n > 0 {
      var before := Rendered(digest, account, k, n - 1);
      RenderingIsNotPlain(digest, account, before);
      if m > 0 {
        LegacyKeyInjective(digest, account, before, account, Rendered(digest, account, l, m - 1));
        assert before in ever && Rendered(digest, account, l, m - 1) in ever;
        SameAge(digest, account, k, n - 1, l, m - 1, ever);
      }
    }
  }

  /**
    In id order the loop never fails, however often the database has been downgraded and upgraded
    and keys have been paid again: a row that holds a rendering is older than one that could
    render to it.
  */
  lemma {:induction false} IdOrderIsSafe(digest: string -> string, ks: seq<Keyed>, os: seq<Origin>, ever: set<string>)
    requires Grown(digest, ks, os) && Tells(digest, ks, os, ever)
    ensures OrderSafe(digest, ks)
  {
    forall i, j | 0 <= i < j < |ks| && ks[i].key.Some? && ks[i].account == ks[j].account
      ensures ks[j].key != Some(LegacyKey(digest, ks[i].account, ks[i].key.value))
    {
      if ks[j].key == Some(LegacyKey(digest, ks[i].account, ks[i].key.value)) {
        YoungerIsNoRendering(digest, ks[i].account, os[i], os[j], ever);
      }
    }
  }

  /** So both loops of `RestoreGlobalKeys` succeed in id order, on tables that have grown that way. */
  lemma {:induction false} DowngradeInIdOrder(digest: string -> string, cs: seq<Compensation>, rs: seq<Row>,
                                              cos: seq<Origin>, ros: seq<Origin>, ever: set<string>)
    requires Grown(digest, TicketKeys(cs), cos) && Tells(digest, TicketKeys(cs), cos, ever)
    requires Grown(digest, RowKeys(rs), ros) && Tells(digest, RowKeys(rs), ros, ever)
    ensures CompensationOrderSafe(digest, cs) && RowOrderSafe(digest, rs)
  {
    IdOrderIsSafe(digest, TicketKeys(cs), cos, ever);
    IdOrderIsSafe(digest, RowKeys(rs), ros, ever);
    OrderSafeMeans(digest, cs, rs);
  }

  lemma {:induction false} YoungerIsNoRendering(digest: string -> string, account: int,
                                                elder: Origin, young: Origin, ever: set<string>)
    requires Digest(digest) && Plain(young.key) && elder.downgrades >= young.downgrades
    requires forall n: nat | n <= elder.downgrades :: Rendered(digest, account, elder.key, n) in ever
    requires forall n: nat | n <= young.downgrades :: Rendered(digest, account, young.key, n) in ever
    requires forall x, y | x in ever && y in ever && digest(x) == digest(y) :: x == y
    ensures LegacyKey(digest, account, Rendered(digest, account, elder.key, elder.downgrades))
         != Rendered(digest, account, young.key, young.downgrades)
  {
    var present := Rendered(digest, account, elder.key, elder.downgrades);
    RenderingIsNotPlain(digest, account, present);
    var m := young.downgrades;
    if m > 0 && LegacyKey(digest, account, present) == Rendered(digest, account, young.key, m) {
      LegacyKeyInjective(digest, account, present, account, Rendered(digest, account, young.key, m - 1));
      assert present in ever && Rendered(digest, account, young.key, m - 1) in ever;
      SameAge(digest, account, elder.key, elder.downgrades, young.key, m - 1, ever);
    }
  }

  /**
    The SELECT names no order.  A ticket is paid, the database is downgraded and upgraded, and the
    same key is paid again: the index accepts both rows, and the next downgrade succeeds in id
    order and fails when the younger row comes first.
  */
  lemma {:induction false} RenderedKeyWitness(digest: string -> string, account: int, key: string)
    requires Digest(digest) && Plain(key)
    ensures var first := Compensation(1, account, key, Dict(Text(key)));
            var again := Compensation(2, account, key, Dict(Text(key)));
            var table := RestoredCompensations(digest, [first]) + [again];
            && CompensationIndex(table)
            && CompensationOrderSafe(digest, table)
            && !CompensationOrderSafe(digest, [table[1], table[0]])
  {
    var first := Compensation(1, account, key, Dict(Text(key)));
    var again := Compensation(2, account, key, Dict(Text(key)));
    var table := RestoredCompensations(digest, [first]) + [again];
    RenderingIsNotPlain(digest, account, key);
    RenderingIsNotPlain(digest, account, LegacyKey(digest, account, key));
    assert table == [RestoredCompensation(digest, first), again];
    var reversed := [table[1], table[0]];
    assert reversed[0].account == reversed[1].account;
    assert LegacyKey(digest, reversed[0].account, reversed[0].key) == reversed[1].key;
  }

  // ---- what a successful downgrade leaves behind ----

  /** Both global unique indexes of 0038 fit afterwards. */
  lemma {:induction false} RestoredKeysGloballyUnique(digest: string -> string, cs: seq<Compensation>, rs: seq<Row>)
    requires CompensationIndex(cs) && IndexHolds(PerAccount, rs) && Distinguishes(digest, cs, rs)
    ensures forall i, j | 0 <= i < j < |cs| ::
              RestoredCompensations(digest, cs)[i].key != RestoredCompensations(digest, cs)[j].key
    ensures IndexHolds(Global, RestoredRows(digest, rs))
  {
    StoredKeys(cs, rs);
    forall i, j | 0 <= i < j < |cs|
      ensures RestoredCompensations(digest, cs)[i].key != RestoredCompensations(digest, cs)[j].key
    {
      if LegacyKey(digest, cs[i].account, cs[i].key) == LegacyKey(digest, cs[j].account, cs[j].key) {
        LegacyKeyInjective(digest, cs[i].account, cs[i].key, cs[j].account, cs[j].key);
      }
    }
    forall i, j | 0 <= i < j < |rs|
      ensures !SamePartition(Global, RestoredRows(digest, rs)[i], RestoredRows(digest, rs)[j])
    {
      RestoredApart(digest, cs, rs, i, j);
    }
  }

  /** A ticket and a ledger row share a key afterwards if and only if they shared account and key before. */
  lemma {:induction false} LinksSurvive(digest: string -> string, cs: seq<Compensation>, rs: seq<Row>, i: nat, j: nat)
    requires Distinguishes(digest, cs, rs) && i < |cs| && j < |rs|
    ensures RestoredRows(digest, rs)[j].key == Some(RestoredCompensations(digest, cs)[i].key) <==>
            rs[j].key == Some(cs[i].key) && rs[j].account == cs[i].account
  {
    StoredKeys(cs, rs);
    if rs[j].key.Some? && RestoredRows(digest, rs)[j].key == Some(RestoredCompensations(digest, cs)[i].key) {
      LegacyKeyInjective(digest, rs[j].account, rs[j].key.value, cs[i].account, cs[i].key);
    }
  }

  predicate Agrees(f: Field, key: string) {
    f == Text(key)
  }

  /** Every JSON copy of a key says what the column says; a result that named no key still names none. */
  lemma CopiesAgree(digest: string -> string, cs: seq<Compensation>, rs: seq<Row>, i: nat)
    ensures i < |cs| ==> var c := RestoredCompensations(digest, cs)[i];
                         c.payload.Dict? && Agrees(c.payload.key, c.key)
    ensures i < |rs| && rs[i].key.Some? ==>
              var r := RestoredRows(digest, rs)[i];
              && r.params.Summary? && Agrees(r.params.key, r.key.value)
              && (r.params.result.Object? && !r.params.result.key.Absent? ==> Agrees(r.params.result.key, r.key.value))
              && (rs[i].params.Summary? ==>
                    (r.params.result.Object? <==> rs[i].params.result.Object?)
                    && (r.params.result.Object? ==> (r.params.result.key.Absent? <==> rs[i].params.result.key.Absent?)))
  {
  }

  /** Upgrading again finds nothing to backfill and demotes no row. */
  lemma {:induction false} ReupgradeChangesNothing(d: Dialect, digest: string -> string,
                                                   cs: seq<Compensation>, rs: seq<Row>)
    requires UniqueIds(rs) && Settled(d, rs) && Distinguishes(digest, cs, rs)
    ensures Upgraded39(d, RestoredRows(digest, rs)) == RestoredRows(digest, rs)
  {
    var after := RestoredRows(digest, rs);
    forall i, j | 0 <= i < j < |after| ensures !SamePartition(PerAccount, after[i], after[j]) {
      RestoredApart(digest, cs, rs, i, j);
    }
    SettledIsFixed(d, after);
  }

  /** The whole way: 0038, 0039, back over 0039, and 0039 again. */
  lemma {:induction false} UpDownUp(d: Dialect, digest: string -> string, cs: seq<Compensation>, rows: seq<Row>)
    requires UniqueIds(rows)
    requires Distinguishes(digest, cs, Upgraded39(d, Upgraded38(d, rows)))
    ensures var down := RestoredRows(digest, Upgraded39(d, Upgraded38(d, rows)));
            IndexHolds(Global, down) && Upgraded39(d, down) == down
  {
    assert UniqueIds(Upgraded38(d, rows));
    UpgradeSettles(d, Upgraded38(d, rows));
    var up := Upgraded39(d, Upgraded38(d, rows));
    ReupgradeChangesNothing(d, digest, cs, up);
    var down := RestoredRows(digest, up);
    forall i, j | 0 <= i < j < |down| ensures !SamePartition(Global, down[i], down[j]) {
      RestoredApart(digest, cs, up, i, j);
    }
  }

  // ---- all the way down, and up again ----

  function DropKey(): Row -> Row {
    (r: Row) => r.(key := None)
  }

  /** A rendered key is read back from its JSON copy as it is. */
  lemma {:induction false} DerivedFromCopy(d: Dialect, digest: string -> string, r: Row)
    requires Digest(digest) && r.key.Some?
    ensures Derived(d, RestoredRow(digest, r).params) == RestoredRow(digest, r).key
  {
    var k := LegacyKey(digest, r.account, r.key.value);
    assert |digest(r.key.value)| == 32 && Hex(digest(r.key.value));
    assert k[0] == 'l' && k[|k| - 1] == digest(r.key.value)[31];
  }

  lemma {:induction false} NoTwinBelow(d: Dialect, digest: string -> string, cs: seq<Compensation>,
                                       rs: seq<Row>, i: nat)
    requires UniqueIds(rs) && Settled(d, rs) && Distinguishes(digest, cs, rs) && i < |rs|
    ensures var bare := Update(RestoredRows(digest, rs), DropKey());
            Countable(bare[i]) ==> !OlderTwin(d, bare, bare[i])
  {
    var down := RestoredRows(digest, rs);
    var bare := Update(down, DropKey());
    if Countable(bare[i]) && OlderTwin(d, bare, bare[i]) {
      var x :| x in bare && Countable(x) && x.account == bare[i].account && x.id < bare[i].id
               && Derived(d, x.params).Some? && Derived(d, x.params) == Derived(d, bare[i].params);
      var k :| 0 <= k < |bare| && bare[k] == x;
      assert rs[k].key.Some? && rs[i].key.Some?;
      DerivedFromCopy(d, digest, rs[k]);
      DerivedFromCopy(d, digest, rs[i]);
      NoSharedRendering(digest, cs, rs, k, i);
    }
  }

  lemma {:induction false} NoSharedRendering(digest: string -> string, cs: seq<Compensation>,
                                             rs: seq<Row>, k: nat, i: nat)
    requires IndexHolds(PerAccount, rs) && Distinguishes(digest, cs, rs)
    requires k < |rs| && i < |rs| && k != i && Countable(rs[k]) && Countable(rs[i])
    requires rs[k].key.Some? && rs[i].key.Some?
    ensures RestoredRow(digest, rs[k]).key != RestoredRow(digest, rs[i]).key
  {
    if k < i {
      RestoredApart(digest, cs, rs, k, i);
    } else {
      RestoredApart(digest, cs, rs, i, k);
    }
  }

  /**
    Downgrading past 0038 drops the key column.  Upgrading from there gives every row that had a
    key its key back, out of the JSON copies the downgrade wrote, and demotes no row.
  */
  lemma {:induction false} ColumnComesBack(d: Dialect, digest: string -> string, cs: seq<Compensation>, rs: seq<Row>)
    requires UniqueIds(rs) && Settled(d, rs) && Distinguishes(digest, cs, rs)
    ensures var down := RestoredRows(digest, rs);
            var up := Upgraded39(d, Upgraded38(d, Update(down, DropKey())));
            && |up| == |down|
            && forall i | 0 <= i < |down| ::
                 && up[i] == down[i].(key := up[i].key)
                 && (down[i].key.Some? ==> up[i].key == down[i].key)
  {
    var down := RestoredRows(digest, rs);
    var bare := Update(down, DropKey());
    TwoStepsAreOne(d, bare);
    forall i | 0 <= i < |down|
      ensures Countable(bare[i]) ==> !OlderTwin(d, bare, bare[i])
      ensures down[i].key.Some? ==> Derived(d, bare[i].params) == down[i].key
    {
      NoTwinBelow(d, digest, cs, rs, i);
      if rs[i].key.Some? {
        DerivedFromCopy(d, digest, rs[i]);
      }
    }
  }

  // ---- what a repeated key still finds ----

  /** `find_payout_ledger_event`: a countable row of the account holds the key. */
  predicate Paid(rs: seq<Row>, account: int, key: string) {
    exists i | 0 <= i < |rs| :: Countable(rs[i]) && rs[i].account == account && rs[i].key == Some(key)
  }

  /** The look-up of a delivery claim among the tickets. */
  predicate Ticketed(cs: seq<Compensation>, account: int, key: string) {
    exists i | 0 <= i < |cs| :: cs[i].account == account && cs[i].key == key
  }

  /**
    After a downgrade and an upgrade a key is recognised as paid if and only if it is the
    rendering, for that account, of a key that was: no plain key is, whether or not it was paid.
  */
  lemma {:induction false} RecognisedAfterwards(d: Dialect, digest: string -> string, cs: seq<Compensation>,
                                                rs: seq<Row>, account: int, key: string)
    requires UniqueIds(rs) && Settled(d, rs) && Distinguishes(digest, cs, rs)
    ensures var after := Upgraded39(d, RestoredRows(digest, rs));
            && (Paid(after, account, key) <==>
                  exists l :: Paid(rs, account, l) && key == LegacyKey(digest, account, l))
            && (Plain(key) ==> !Paid(after, account, key))
    ensures var after := RestoredCompensations(digest, cs);
            && (Ticketed(after, account, key) <==>
                  exists l :: Ticketed(cs, account, l) && key == LegacyKey(digest, account, l))
            && (Plain(key) ==> !Ticketed(after, account, key))
  {
    ReupgradeChangesNothing(d, digest, cs, rs);
    PaidAfterwards(digest, rs, account, key);
    TicketedAfterwards(digest, cs, account, key);
    forall l ensures key == LegacyKey(digest, account, l) ==> !Plain(key) {
      RenderingIsNotPlain(digest, account, l);
    }
  }

  lemma {:induction false} PaidAfterwards(digest: string -> string, rs: seq<Row>, account: int, key: string)
    ensures Paid(RestoredRows(digest, rs), account, key) <==>
            exists l :: Paid(rs, account, l) && key == LegacyKey(digest, account, l)
  {
    var after := RestoredRows(digest, rs);
    if Paid(after, account, key) {
      var i :| 0 <= i < |after| && Countable(after[i]) && after[i].account == account && after[i].key == Some(key);
      assert Countable(rs[i]);
      assert Paid(rs, account, rs[i].key.value);
    }
    if l :| Paid(rs, account, l) && key == LegacyKey(digest, account, l) {
      var i :| 0 <= i < |rs| && Countable(rs[i]) && rs[i].account == account && rs[i].key == Some(l);
      assert Countable(after[i]) && after[i].key == Some(key);
    }
  }

  lemma {:induction false} TicketedAfterwards(digest: string -> string, cs: seq<Compensation>,
                                              account: int, key: string)
    ensures Ticketed(RestoredCompensations(digest, cs), account, key) <==>
            exists l :: Ticketed(cs, account, l) && key == LegacyKey(digest, account, l)
  {
    var after := RestoredCompensations(digest, cs);
    if Ticketed(after, account, key) {
      var i :| 0 <= i < |after| && after[i].account == account && after[i].key == key;
      assert Ticketed(cs, account, cs[i].key);
    }
    if l :| Ticketed(cs, account, l) && key == LegacyKey(digest, account, l) {
      var i :| 0 <= i < |cs| && cs[i].account == account && cs[i].key == l;
      assert after[i].key == key;
    }
  }
}
