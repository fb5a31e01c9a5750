/**
  What migrations 0038 and 0039 write, read off the rows' JSON: which key each row ends up
  with and which rows stay countable, without the functions the statements are built from.
*/
module PayoutContents {

  import opened Common
  import opened PayoutMigrations

  /** Text a dialect takes for no key: spaces only on PostgreSQL, nothing at all on SQLite. */
  predicate Blank(d: Dialect, text: string) {
    if d == Postgres then forall c | c in text :: c == ' ' else text == ""
  }

  /** `key` is `text` from its first to its last character that is not a space. */
  ghost predicate Core(text: string, key: string, from: nat, to: nat) {
    && from < to <= |text| && key == text[from..to]
    && text[from] != ' ' && text[to - 1] != ' '
    && forall i | 0 <= i < |text| && (i < from || to <= i) :: text[i] == ' '
  }

  /** The key a dialect reads from a text: PostgreSQL drops outer spaces, SQLite keeps every character. */
  ghost predicate Reads(d: Dialect, text: string, key: string) {
    match d
    case Postgres => exists from: nat, to: nat :: Core(text, key, from, to)
    case Sqlite => key == text && key != ""
  }

  /** The top-level member holds a text that is not blank. */
  predicate TopSpeaks(d: Dialect, p: Params) {
    p.Summary? && p.key.Text? && !Blank(d, p.key.text)
  }

  /** The key a row's JSON names: that of the top-level member if it speaks, else that of `result`. */
  ghost predicate Names(d: Dialect, p: Params, key: string) {
    if TopSpeaks(d, p) then Reads(d, p.key.text, key)
    else p.Summary? && p.result.Object? && p.result.key.Text? && Reads(d, p.result.key.text, key)
  }

  // ---- trimming ----

  lemma {:induction false} TrimLeftDrops(s: string, from: nat)
    requires from <= |s| && (forall i | 0 <= i < from :: s[i] == ' ') && (from < |s| ==> s[from] != ' ')
    ensures TrimLeft(s) == s[from..]
  {
    if from > 0 {
      TrimLeftDrops(s[1..], from - 1);
      assert s[1..][from - 1..] == s[from..];
    }
  }

  lemma {:induction false} TrimRightDrops(s: string, to: nat)
    requires to <= |s| && (forall i | to <= i < |s| :: s[i] == ' ') && (to > 0 ==> s[to - 1] != ' ')
    ensures TrimRight(s) == s[..to]
  {
    if to < |s| {
      TrimRightDrops(s[..|s| - 1], to);
      assert s[..|s| - 1][..to] == s[..to];
    }
  }

  /** Every text that is not blank has a core. */
  lemma {:induction false} CoreOf(text: string) returns (from: nat, to: nat)
    requires !Blank(Postgres, text)
    ensures from < to <= |text| && Core(text, text[from..to], from, to)
  {
    if text[0] == ' ' {
      assert text == [' '] + text[1..];
      from, to := CoreOf(text[1..]);
      from, to := from + 1, to + 1;
    } else if text[|text| - 1] == ' ' {
      var rest := text[..|text| - 1];
      assert text == rest + [' '] && rest[0] == text[0] && text[0] in rest;
      from, to := CoreOf(rest);
    } else {
      from, to := 0, |text|;
    }
  }

  lemma {:induction false} CoreIsTrimmed(text: string, key: string, from: nat, to: nat)
    requires Core(text, key, from, to)
    ensures !Blank(Postgres, text) && TrimRight(TrimLeft(text)) == key
  {
    assert text[from] in text;
    TrimLeftDrops(text, from);
    TrimRightDrops(text[from..], to - from);
    assert text[from..][..to - from] == text[from..to];
  }

  /** NULLIF(BTRIM(x), '') and NULLIF(x, '') give a key exactly where the text is not blank. */
  lemma {:induction false} TextMeans(d: Dialect, text: string)
    ensures NonEmpty(d, Text(text)).None? <==> Blank(d, text)
    ensures forall key :: NonEmpty(d, Text(text)) == Some(key) <==> Reads(d, text, key)
  {
    if d == Postgres {
      if Blank(d, text) {
        assert forall i | 0 <= i < |text| :: text[i] in text;
        TrimLeftDrops(text, |text|);
      } else {
        var from, to := CoreOf(text);
        CoreIsTrimmed(text, text[from..to], from, to);
      }
      forall key, from: nat, to: nat | Core(text, key, from, to)
        ensures TrimRight(TrimLeft(text)) == key && key != ""
      {
        CoreIsTrimmed(text, key, from, to);
      }
    }
  }

  /** The key both migrations derive is the one the JSON names, and there is none exactly if it names none. */
  lemma {:induction false} DerivedIsNamed(d: Dialect, p: Params)
    ensures forall key :: Derived(d, p) == Some(key) <==> Names(d, p, key)
    ensures Derived(d, p).None? <==> forall key :: !Names(d, p, key)
  {
    if p.Summary? {
      if p.key.Text? {
        TextMeans(d, p.key.text);
      }
      if p.result.Object? && p.result.key.Text? {
        TextMeans(d, p.result.key.text);
      }
    }
  }

  // ---- the tables after each upgrade ----

  /** An older countable row, of the same account unless the scope is global, names `key` too. */
  ghost predicate OlderNames(d: Dialect, rows: seq<Row>, scope: Scope, r: Row, key: string) {
    exists x | x in rows ::
      && Countable(x) && x.id < r.id && Names(d, x.params, key)
      && (scope == PerAccount ==> x.account == r.account)
  }

  /**
    After 0038: a row's key is the one its JSON names, unless the row is countable and an older
    countable row of any account names it too; no other column has changed.
  */
  lemma {:induction false} FirstUpgradeMeans(d: Dialect, rows: seq<Row>, i: nat)
    requires Legacy(rows) && i < |rows|
    ensures var after := Upgraded38(d, rows);
            && |after| == |rows| && after[i] == rows[i].(key := after[i].key)
            && forall key :: after[i].key == Some(key) <==>
                 Names(d, rows[i].params, key)
                 && !(Countable(rows[i]) && OlderNames(d, rows, Global, rows[i], key))
  {
    var keyed := Update(rows, WithDerived(d));
    assert Update(Update(rows, FillFromTop(d)), FillFromResult(d)) == keyed;
    assert UniqueIds(keyed);
    DialectsMarkAlike(d, keyed, Global, keyed[i]);
    DerivedIsNamed(d, rows[i].params);
    if Countable(rows[i]) && keyed[i].key.Some? {
      SupersededMeans(d, rows, Global, i);
    }
  }

  lemma {:induction false} SupersededMeans(d: Dialect, rows: seq<Row>, scope: Scope, i: nat)
    requires i < |rows| && Countable(rows[i]) && Derived(d, rows[i].params).Some?
    ensures var keyed := Update(rows, WithDerived(d));
            Superseded(keyed, scope, keyed[i]) <==>
            OlderNames(d, rows, scope, rows[i], Derived(d, rows[i].params).value)
  {
    var keyed, key := Update(rows, WithDerived(d)), Derived(d, rows[i].params).value;
    if Superseded(keyed, scope, keyed[i]) {
      var y :| y in keyed && SamePartition(scope, y, keyed[i]) && y.id < keyed[i].id;
      var k :| 0 <= k < |keyed| && keyed[k] == y;
      DerivedIsNamed(d, rows[k].params);
      assert rows[k] in rows;
    }
    if OlderNames(d, rows, scope, rows[i], key) {
      var x :| x in rows && Countable(x) && x.id < rows[i].id && Names(d, x.params, key)
               && (scope == PerAccount ==> x.account == rows[i].account);
      var k :| 0 <= k < |rows| && rows[k] == x;
      DerivedIsNamed(d, x.params);
      assert SamePartition(scope, keyed[k], keyed[i]) && keyed[k] in keyed;
    }
  }

  /** What stands in the ledger for row `r` once both migrations have run. */
  ghost predicate Canonical(d: Dialect, rows: seq<Row>, r: Row, after: Row) {
    && (forall key :: after.key == Some(key) <==> Names(d, r.params, key))
    && after.id == r.id && after.account == r.account
    && after.actionType == r.actionType && after.params == r.params
    && if Countable(r) && exists key :: Names(d, r.params, key) && OlderNames(d, rows, PerAccount, r, key) then
         && after.status == Failed
         && after.errorCode == Some(if r.errorCode.Some? then r.errorCode.value else "historical_duplicate")
         && after.errorSummary ==
            Some(if r.errorSummary.Some? then r.errorSummary.value else "0039 canonicalized duplicate payout")
       else
         after.status == r.status && after.errorCode == r.errorCode && after.errorSummary == r.errorSummary
  }

  /**
    After 0038 and 0039, on every legacy table: each row holds exactly the key its JSON names,
    and a countable row is demoted exactly if an older countable row of its account names that
    key, with its error columns filled where they were empty and kept where they were not.
  */
  lemma {:induction false} BothUpgradesMean(d: Dialect, rows: seq<Row>, i: nat)
    requires Legacy(rows) && i < |rows|
    ensures var after := Upgraded39(d, Upgraded38(d, rows));
            |after| == |rows| && Canonical(d, rows, rows[i], after[i])
  {
    TwoStepsAreOne(d, rows);
    DerivedIsNamed(d, rows[i].params);
    if Countable(rows[i]) {
      TwinMeans(d, rows, i);
    }
  }

  lemma {:induction false} TwinMeans(d: Dialect, rows: seq<Row>, i: nat)
    requires i < |rows| && Countable(rows[i])
    ensures OlderTwin(d, rows, rows[i]) <==>
            exists key :: Names(d, rows[i].params, key) && OlderNames(d, rows, PerAccount, rows[i], key)
  {
    DerivedIsNamed(d, rows[i].params);
    if Derived(d, rows[i].params).Some? {
      TwinSupersedes(d, rows, i);
      SupersededMeans(d, rows, PerAccount, i);
    }
  }

  /**
    Two paid rows of one account whose `result` objects name the same key, with nothing to read
    at the top level: both get the key, and the younger stops being countable.  The older stays
    so exactly if no countable row of the account before it names the key.
  */
  lemma {:induction false} ResultTwins(d: Dialect, rows: seq<Row>, i: nat, j: nat, key: string)
    requires Legacy(rows) && i < |rows| && j < |rows| && rows[i].id < rows[j].id
    requires rows[i].actionType == rows[j].actionType == "payout" && rows[i].account == rows[j].account
    requires rows[i].status in {Ok, Compensated} && rows[j].status in {Ok, Compensated}
    requires !TopSpeaks(d, rows[i].params) && !TopSpeaks(d, rows[j].params)
    requires Names(d, rows[i].params, key) && Names(d, rows[j].params, key)
    ensures var after := Upgraded39(d, Upgraded38(d, rows));
            && |after| == |rows| && after[i].key == after[j].key == Some(key)
            && after[j].status == Failed
            && (after[i].status == rows[i].status <==> !OlderNames(d, rows, PerAccount, rows[i], key))
  {
    BothUpgradesMean(d, rows, i);
    BothUpgradesMean(d, rows, j);
    DerivedIsNamed(d, rows[i].params);
    assert OlderNames(d, rows, PerAccount, rows[j], key);
  }

  /** A row that is no payout, or one that never went through, keeps its status and causes no demotion. */
  lemma {:induction false} UnpaidRowsStay(d: Dialect, rows: seq<Row>, i: nat, j: nat)
    requires Legacy(rows) && i < |rows| && j < |rows|
    requires rows[i].actionType != "payout" || rows[i].status in {Pending, Failed, DryRun}
    ensures var after := Upgraded39(d, Upgraded38(d, rows));
            && |after| == |rows| && after[i].status == rows[i].status
            && (after[j].status != rows[j].status ==>
                  exists x | x in rows ::
                    x != rows[i] && Countable(x) && x.id < rows[j].id && x.account == rows[j].account)
  {
    BothUpgradesMean(d, rows, i);
    BothUpgradesMean(d, rows, j);
    if Upgraded39(d, Upgraded38(d, rows))[j].status != rows[j].status {
      var key :| Names(d, rows[j].params, key) && OlderNames(d, rows, PerAccount, rows[j], key);
    }
  }

  /**
    0039 on any table with unique ids: a key that stands is kept, a countable row without one
    gets the key its JSON names, and the ids and accounts stay.
  */
  lemma {:induction false} SecondUpgradeKeys(d: Dialect, rows: seq<Row>, i: nat)
    requires UniqueIds(rows) && i < |rows|
    ensures var after := Upgraded39(d, rows);
            && |after| == |rows| && after[i].id == rows[i].id && after[i].account == rows[i].account
            && (rows[i].key.Some? || !Countable(rows[i]) ==> after[i].key == rows[i].key)
            && (rows[i].key.None? && Countable(rows[i]) ==>
                  forall key :: after[i].key == Some(key) <==> Names(d, rows[i].params, key))
  {
    DerivedIsNamed(d, rows[i].params);
  }
}
