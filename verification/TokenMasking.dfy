/**
 * The image plugin's token list in `backend/app/api/features.py`: reading it from a stored
 * configuration, showing it masked, and merging what the client sends back.
 *
 * A field that is absent, `None` or empty is "" here.  The truncated SHA-256 digest is a
 * parameter of which only the shape (ten hex digits) is known.
 */
module TokenMasking {
  import opened Common
  import Text

  /** An element of a `tokens` list: a bare string or an object. */
  datatype Item =
    | Plain(value: string)
    | Fields(token: string, accessToken: string, snakeAccessToken: string,
             note: string, remark: string, source: string, tokenId: string)

  datatype TokenList = NotAList | Items(items: seq<Item>)

  /** The `tokens` and legacy `token` fields of a configuration. */
  datatype Config = Config(tokens: TokenList, legacy: string)

  datatype Entry = Entry(token: string, note: string)

  type Digest = string -> string

  predicate IsHex(s: string) {
    |s| == 10 && Text.Hex(s)
  }

  ghost predicate WellFormed(digest: Digest) {
    forall s: string :: IsHex(digest(s))
  }

  /** Python's `a or b`. */
  function Or(a: string, b: string): string {
    if a != "" then a else b
  }

  // ---- Reading the stored tokens ----

  /** What an element of a stored list says. */
  function Read(item: Item): Entry {
    match item
    case Plain(value) => Entry(Text.Strip(value), "")
    case Fields(token, camel, snake, note, remark, source, _) =>
      Entry(Text.Strip(Or(Or(token, camel), snake)), Text.Strip(Or(Or(note, remark), source)))
  }

  predicate BreaksLine(c: char) {
    || c == ',' || '\n' <= c <= '\r' || '\U{1C}' <= c <= '\U{1E}'
    || c in {'\U{85}', '\U{2028}', '\U{2029}'}
  }

  /** The pieces of the legacy field; blank ones are dropped later. */
  function Pieces(s: string): (r: seq<string>)
    ensures r != []
  {
    if s == "" then [""]
    else
      var rest := Pieces(s[1..]);
      if BreaksLine(s[0]) then [""] + rest else [[s[0]] + rest[0]] + rest[1..]
  }

  function ReadAll(items: seq<Item>): seq<Entry> {
    seq(|items|, i requires 0 <= i < |items| => Read(items[i]))
  }

  function ReadPieces(pieces: seq<string>): seq<Entry> {
    seq(|pieces|, i requires 0 <= i < |pieces| => Entry(Text.Strip(pieces[i]), ""))
  }

  function Candidates(config: Config): seq<Entry> {
    (if config.tokens.Items? then ReadAll(config.tokens.items) else []) + ReadPieces(Pieces(config.legacy))
  }

  predicate Holds(entries: seq<Entry>, token: string) {
    exists i :: 0 <= i < |entries| && entries[i].token == token
  }

  /** Keeps the first entry of each token that is not refused, in order. */
  function Collect(candidates: seq<Entry>, refused: set<string>): seq<Entry> {
    if candidates == [] then []
    else
      var kept := Collect(candidates[..|candidates| - 1], refused);
      var c := candidates[|candidates| - 1];
      if c.token in refused || Holds(kept, c.token) then kept else kept + [c]
  }

  function Entries(config: Config): seq<Entry> {
    Collect(Candidates(config), {""})
  }

  /** The list and set that `add` and the merge loop grow together. */
  class Collector {
    var entries: seq<Entry>
    var seen: set<string>
    ghost var offered: seq<Entry>
    const refused: set<string>

    ghost predicate Valid()
      reads this
    {
      && entries == Collect(offered, refused)
      && forall t :: t in seen <==> Holds(entries, t)
    }

    constructor (refused: set<string>)
      ensures Valid() && offered == [] && this.refused == refused
    {
      this.refused := refused;
      entries, seen, offered := [], {}, [];
    }

    method Add(candidate: Entry)
      requires Valid()
      modifies this
      ensures Valid() && offered == old(offered) + [candidate]
    {
      assert (offered + [candidate])[..|offered|] == offered;
      offered := offered + [candidate];
      if candidate.token in refused || candidate.token in seen {
        return;
      }
      ghost var was := entries;
      seen := seen + {candidate.token};
      entries := entries + [candidate];
      assert forall t :: Holds(was, t) ==> Holds(entries, t) by {
        forall t, i | 0 <= i < |was| && was[i].token == t
          ensures Holds(entries, t)
        {
          assert entries[i].token == t;
        }
      }
      assert entries[|was|].token == candidate.token;
    }
  }

  /** The two loops of `_chatgpt_token_entries`: the list, then the legacy field. */
  method AddAll(found: Collector, candidates: seq<Entry>)
    requires found.Valid()
    modifies found
    ensures found.Valid() && found.offered == old(found.offered) + candidates
  {
    for i := 0 to |candidates|
      invariant found.Valid()
      invariant found.offered == old(found.offered) + candidates[..i]
    {
      found.Add(candidates[i]);
      assert candidates[..i + 1] == candidates[..i] + [candidates[i]];
    }
    assert candidates[..|candidates|] == candidates;
  }

  method TokenEntries(config: Config) returns (entries: seq<Entry>)
    ensures entries == Entries(config)
  {
    var found := new Collector({""});
    ghost var listed := if config.tokens.Items? then ReadAll(config.tokens.items) else [];
    if config.tokens.Items? {
      AddAll(found, ReadAll(config.tokens.items));
    }
    assert found.offered == listed;
    AddAll(found, ReadPieces(Pieces(config.legacy)));
    entries := found.entries;
  }

  // ---- Masking ----

  function TokenId(digest: Digest, token: string): string {
    if Text.Strip(token) == "" then "token:empty" else "token:" + digest(Text.Strip(token))
  }

  const DOTS := "\U{B7}\U{B7}\U{B7}"

  function Mask(token: string): string {
    var value := Text.Strip(token);
    if value == "" then ""
    else if |value| <= 24 then Take(value, 4) + DOTS + Last(value, 4)
    else Take(value, 10) + DOTS + Last(value, 10)
  }

  /** What the client is shown for an entry. */
  function Shown(digest: Digest, e: Entry): Item {
    Fields(Mask(e.token), "", "", e.note, "", "", TokenId(digest, e.token))
  }

  function Displayed(digest: Digest, entries: seq<Entry>): seq<Item> {
    seq(|entries|, i requires 0 <= i < |entries| => Shown(digest, entries[i]))
  }

  // ---- Merging what comes back ----

  /** A dict comprehension over the entries: the last one with a key wins. */
  function IndexBy(entries: seq<Entry>, key: string -> string): map<string, string> {
    if entries == [] then map[]
    else
      var last := entries[|entries| - 1];
      IndexBy(entries[..|entries| - 1], key)[key(last.token) := last.token]
  }

  function Get(m: map<string, string>, key: string): string {
    if key in m then m[key] else ""
  }

  function IdOf(digest: Digest): string -> string {
    t => TokenId(digest, t)
  }

  function MaskOf(): string -> string {
    t => Mask(t)
  }

  const REFUSED: set<string> := {"", "***"}

  /** The text of the token field, the note and the reference that a returned item carries. */
  function Value(item: Item): string {
    Text.Strip(if item.Plain? then item.value else item.token)
  }

  function Note(item: Item): string {
    if item.Plain? then "" else Text.Strip(Or(Or(item.note, item.remark), item.source))
  }

  function Ref(item: Item): string {
    if item.Plain? then "" else Text.Strip(item.tokenId)
  }

  /** Which stored token, if any, an item at position `idx` stands for; else what was typed. */
  function Resolved(digest: Digest, existing: seq<Entry>, item: Item, idx: nat): Entry {
    var byId := Get(IndexBy(existing, IdOf(digest)), Ref(item));
    var byMask := Get(IndexBy(existing, MaskOf()), Value(item));
    var token := Or(Or(byId, byMask), Value(item));
    Entry(if token in REFUSED && idx < |existing| then existing[idx].token else token, Note(item))
  }

  function AllResolved(digest: Digest, existing: seq<Entry>, items: seq<Item>): seq<Entry> {
    seq(|items|, i requires 0 <= i < |items| => Resolved(digest, existing, items[i], i))
  }

  /** The token list that is stored. */
  function Preserved(digest: Digest, existing: seq<Entry>, items: seq<Item>): seq<Entry> {
    Collect(AllResolved(digest, existing, items), REFUSED)
  }

  function Stored(entries: seq<Entry>): Config {
    Config(Items(seq(|entries|, i requires 0 <= i < |entries| =>
      Fields(entries[i].token, "", "", entries[i].note, "", "", ""))), "")
  }

  /** One turn of the merge loop: finds the token an item stands for. */
  method Resolve(byId: map<string, string>, byMask: map<string, string>, entries: seq<Entry>,
                 item: Item, idx: nat, ghost digest: Digest)
    returns (resolved: Entry)
    requires byId == IndexBy(entries, IdOf(digest)) && byMask == IndexBy(entries, MaskOf())
    ensures resolved == Resolved(digest, entries, item, idx)
  {
    var token := Or(Or(Get(byId, Ref(item)), Get(byMask, Value(item))), Value(item));
    if token in REFUSED && idx < |entries| {
      token := entries[idx].token;
    }
    resolved := Entry(token, Note(item));
  }

  method Normalize(digest: Digest, entries: seq<Entry>, items: seq<Item>) returns (normalized: seq<Entry>)
    ensures normalized == Preserved(digest, entries, items)
  {
    var byId, byMask := IndexBy(entries, IdOf(digest)), IndexBy(entries, MaskOf());
    ghost var all := AllResolved(digest, entries, items);
    assert all[..0] == [];
    var kept := new Collector(REFUSED);
    for idx := 0 to |items|
      invariant kept.Valid() && kept.refused == REFUSED
      invariant kept.offered == all[..idx]
    {
      var resolved := Resolve(byId, byMask, entries, items[idx], idx, digest);
      assert resolved == all[idx];
      assert all[..idx + 1] == all[..idx] + [all[idx]];
      kept.Add(resolved);
    }
    assert all[..|items|] == all;
    normalized := kept.entries;
  }

  method PreserveTokens(digest: Digest, existing: Config, incoming: Config) returns (merged: Config)
    ensures incoming.tokens.NotAList? ==> merged == incoming
    ensures incoming.tokens.Items? ==>
      merged == Stored(Preserved(digest, Entries(existing), incoming.tokens.items))
  {
    if incoming.tokens.NotAList? {
      return incoming;
    }
    var entries := TokenEntries(existing);
    var normalized := Normalize(digest, entries, incoming.tokens.items);
    merged := Stored(normalized);
  }

  // ---- What a collected list is ----

  ghost predicate DistinctTokens(entries: seq<Entry>) {
    forall i, j :: 0 <= i < j < |entries| ==> entries[i].token != entries[j].token
  }

  lemma {:induction false} CollectSound(candidates: seq<Entry>, refused: set<string>)
    ensures var kept := Collect(candidates, refused);
      && |kept| <= |candidates| && DistinctTokens(kept)
      && forall e :: e in kept ==> e.token !in refused && e in candidates
  {
    if candidates != [] {
      CollectSound(candidates[..|candidates| - 1], refused);
    }
  }

  /** Only repeats and refused tokens are dropped: a list without them is kept whole. */
  lemma {:induction false} CollectAll(candidates: seq<Entry>, refused: set<string>)
    requires DistinctTokens(candidates) && forall e :: e in candidates ==> e.token !in refused
    ensures Collect(candidates, refused) == candidates
  {
    if candidates != [] {
      var before := candidates[..|candidates| - 1];
      assert forall e :: e in before ==> e in candidates;
      CollectAll(before, refused);
      assert candidates == before + [candidates[|candidates| - 1]];
    }
  }

  /** Nothing dropped means nothing changed. */
  lemma {:induction false} CollectWhole(candidates: seq<Entry>, refused: set<string>)
    requires |Collect(candidates, refused)| == |candidates|
    ensures Collect(candidates, refused) == candidates
  {
    if candidates != [] {
      var before := candidates[..|candidates| - 1];
      CollectSound(before, refused);
      CollectWhole(before, refused);
      assert candidates == before + [candidates[|candidates| - 1]];
    }
  }

  /** Of each token the first offer is kept, with its note. */
  lemma {:induction false} CollectKeepsFirst(candidates: seq<Entry>, refused: set<string>, i: nat)
    requires i < |candidates| && candidates[i].token !in refused
    requires forall j :: 0 <= j < i ==> candidates[j].token != candidates[i].token
    ensures candidates[i] in Collect(candidates, refused)
  {
    var n := |candidates| - 1;
    if i < n {
      CollectKeepsFirst(candidates[..n], refused, i);
    } else {
      CollectSound(candidates[..n], refused);
    }
  }

  /** Tokens and notes without white space at their ends. */
  ghost predicate Clean(entries: seq<Entry>) {
    forall e :: e in entries ==> Text.Trimmed(e.token) && Text.Trimmed(e.note)
  }

  /** What is read from any configuration: trimmed, non-empty, pairwise different tokens. */
  ghost predicate Proper(entries: seq<Entry>) {
    DistinctTokens(entries) && Clean(entries) && forall e :: e in entries ==> e.token != ""
  }

  lemma {:induction false} EntriesAreProper(config: Config)
    ensures Proper(Entries(config))
  {
    var candidates := Candidates(config);
    CollectSound(candidates, {""});
    forall e | e in candidates
      ensures Text.Trimmed(e.token) && Text.Trimmed(e.note)
    {
      TrimmedCandidate(config, e);
    }
  }

  lemma {:induction false} TrimmedCandidate(config: Config, e: Entry)
    requires e in Candidates(config)
    ensures Text.Trimmed(e.token) && Text.Trimmed(e.note)
  {
    if i :| config.tokens.Items? && 0 <= i < |config.tokens.items| && e == Read(config.tokens.items[i]) {
      var item := config.tokens.items[i];
      match item
      case Plain(value) => Text.StripTrims(value);
      case Fields(token, camel, snake, note, remark, source, _) =>
        Text.StripTrims(Or(Or(token, camel), snake));
        Text.StripTrims(Or(Or(note, remark), source));
    } else {
      var pieces := Pieces(config.legacy);
      var k :| 0 <= k < |pieces| && e == Entry(Text.Strip(pieces[k]), "");
      Text.StripTrims(pieces[k]);
    }
  }

  // ---- Looking entries up ----

  /** What an index returns is a token of the list. */
  lemma {:induction false} IndexHolds(entries: seq<Entry>, key: string -> string, k: string)
    ensures k in IndexBy(entries, key) ==> Holds(entries, IndexBy(entries, key)[k])
  {
    if entries != [] {
      var n := |entries| - 1;
      IndexHolds(entries[..n], key, k);
      if k in IndexBy(entries[..n], key) {
        var i :| 0 <= i < n && entries[..n][i].token == IndexBy(entries[..n], key)[k];
        assert entries[i].token == IndexBy(entries[..n], key)[k];
      }
      assert entries[n].token == entries[n].token;
    }
  }

  /** The entry at `p` is found under its key, or hidden by a later one with the same key. */
  lemma {:induction false} IndexLast(entries: seq<Entry>, key: string -> string, p: nat) returns (i: nat)
    requires p < |entries|
    ensures p <= i < |entries| && key(entries[i].token) == key(entries[p].token)
    ensures key(entries[p].token) in IndexBy(entries, key)
    ensures IndexBy(entries, key)[key(entries[p].token)] == entries[i].token
  {
    var n := |entries| - 1;
    if key(entries[n].token) == key(entries[p].token) {
      i := n;
    } else {
      i := IndexLast(entries[..n], key, p);
    }
  }

  /** An item that carries the id of an entry resolves to the last entry with that id. */
  lemma {:induction false} ResolvesById(digest: Digest, existing: seq<Entry>, item: Item, idx: nat, p: nat)
    returns (k: nat)
    requires Proper(existing) && p < |existing|
    requires Ref(item) == TokenId(digest, existing[p].token)
    ensures p <= k < |existing| && TokenId(digest, existing[k].token) == TokenId(digest, existing[p].token)
    ensures existing[k].token != "***" ==> Resolved(digest, existing, item, idx).token == existing[k].token
  {
    k := IndexLast(existing, IdOf(digest), p);
    assert existing[k] in existing;
    assert Get(IndexBy(existing, IdOf(digest)), Ref(item)) == existing[k].token;
  }

  ghost predicate IdsDiffer(digest: Digest, entries: seq<Entry>) {
    forall i, j :: 0 <= i < j < |entries| ==>
      TokenId(digest, entries[i].token) != TokenId(digest, entries[j].token)
  }

  ghost predicate NoStars(entries: seq<Entry>) {
    forall e :: e in entries ==> e.token != "***"
  }

  // ---- What saving does ----

  /** Whatever the client sends, the stored list is proper, and never the redaction mark. */
  lemma {:induction false} SavedIsProper(digest: Digest, existing: seq<Entry>, items: seq<Item>)
    requires Proper(existing)
    ensures Proper(Preserved(digest, existing, items)) && NoStars(Preserved(digest, existing, items))
  {
    CollectSound(AllResolved(digest, existing, items), REFUSED);
    forall i | 0 <= i < |items|
      ensures Text.Trimmed(Resolved(digest, existing, items[i], i).token)
      ensures Text.Trimmed(Note(items[i]))
    {
      OriginOfToken(digest, existing, items[i], i);
      Text.StripTrims(if items[i].Plain? then items[i].value else items[i].token);
      if items[i].Fields? {
        Text.StripTrims(Or(Or(items[i].note, items[i].remark), items[i].source));
      }
    }
  }

  /** A resolved token is a stored one or typed text, and a mask on display is never taken for text. */
  lemma {:induction false} OriginOfToken(digest: Digest, existing: seq<Entry>, item: Item, idx: nat)
    requires Proper(existing)
    ensures var token := Resolved(digest, existing, item, idx).token;
      || Holds(existing, token)
      || (token == Value(item) && forall e :: e in existing ==> Mask(e.token) != token)
  {
    IndexHolds(existing, IdOf(digest), Ref(item));
    IndexHolds(existing, MaskOf(), Value(item));
    forall e | e in existing && Mask(e.token) == Value(item)
      ensures Get(IndexBy(existing, MaskOf()), Value(item)) != ""
    {
      var p :| 0 <= p < |existing| && existing[p] == e;
      var i := IndexLast(existing, MaskOf(), p);
      assert existing[i] in existing;
    }
    if idx < |existing| {
      assert Holds(existing, existing[idx].token);
    }
  }

  /** Nothing is made up: each stored token was there before or was typed, and is not a shown mask. */
  lemma {:induction false} NoMaskIsStored(digest: Digest, existing: seq<Entry>, items: seq<Item>, e: Entry)
    requires Proper(existing) && e in Preserved(digest, existing, items)
    ensures Holds(existing, e.token)
         || ((exists i :: 0 <= i < |items| && e.token == Value(items[i]))
             && forall x :: x in existing ==> Mask(x.token) != e.token)
  {
    CollectSound(AllResolved(digest, existing, items), REFUSED);
    var i :| 0 <= i < |items| && e == Resolved(digest, existing, items[i], i);
    OriginOfToken(digest, existing, items[i], i);
  }

  /** A saved list reads back as it was saved. */
  lemma {:induction false} SavedReadsBack(digest: Digest, existing: seq<Entry>, items: seq<Item>)
    requires Proper(existing)
    ensures Entries(Stored(Preserved(digest, existing, items))) == Preserved(digest, existing, items)
  {
    var saved := Preserved(digest, existing, items);
    SavedIsProper(digest, existing, items);
    ProperReadsBack(saved);
  }

  lemma {:induction false} ProperReadsBack(saved: seq<Entry>)
    requires Proper(saved)
    ensures Entries(Stored(saved)) == saved
  {
    var config := Stored(saved);
    forall i | 0 <= i < |saved|
      ensures Read(config.tokens.items[i]) == saved[i]
    {
      assert saved[i] in saved;
      Text.StripFixpoint(saved[i].token);
      Text.StripFixpoint(saved[i].note);
    }
    assert ReadAll(config.tokens.items) == saved;
    assert ReadPieces(Pieces("")) == [Entry("", "")];
    var candidates := saved + [Entry("", "")];
    assert candidates[..|saved|] == saved;
    CollectAll(saved, {""});
  }

  /** The item refers to entry `p` by its id and carries the note `note`, whatever else it says. */
  ghost predicate Picks(digest: Digest, existing: seq<Entry>, item: Item, p: nat, note: string)
    requires p < |existing|
  {
    Ref(item) == TokenId(digest, existing[p].token) && Note(item) == note
  }

  function Selected(existing: seq<Entry>, picks: seq<nat>, notes: seq<string>): seq<Entry>
    requires |picks| == |notes| && forall i :: 0 <= i < |picks| ==> picks[i] < |existing|
  {
    seq(|picks|, i requires 0 <= i < |picks| => Entry(existing[picks[i]].token, notes[i]))
  }

  lemma {:induction false} SelectedIsKept(existing: seq<Entry>, picks: seq<nat>, notes: seq<string>)
    requires Proper(existing) && NoStars(existing)
    requires |picks| == |notes| && forall i :: 0 <= i < |picks| ==> picks[i] < |existing|
    requires forall i, j :: 0 <= i < j < |picks| ==> picks[i] != picks[j]
    ensures Collect(Selected(existing, picks, notes), REFUSED) == Selected(existing, picks, notes)
  {
    var selected := Selected(existing, picks, notes);
    forall i, j | 0 <= i < j < |selected|
      ensures selected[i].token != selected[j].token
    {
      var p, q := picks[i], picks[j];
      assert p < q || q < p;
    }
    forall e | e in selected
      ensures e.token !in REFUSED
    {
      var i :| 0 <= i < |selected| && e == selected[i];
      assert existing[picks[i]] in existing;
    }
    CollectAll(selected, REFUSED);
  }

  /**
   * Editing what was shown: items that keep the ids of different entries, in any order and with
   * any notes, store exactly those entries' tokens in that order with those notes.
   */
  lemma {:induction false} SelectionIsRestored(digest: Digest, existing: seq<Entry>, items: seq<Item>,
                            picks: seq<nat>, notes: seq<string>)
    requires Proper(existing) && IdsDiffer(digest, existing) && NoStars(existing)
    requires |picks| == |items| == |notes|
    requires forall i :: 0 <= i < |picks| ==> picks[i] < |existing|
    requires forall i, j :: 0 <= i < j < |picks| ==> picks[i] != picks[j]
    requires forall i :: 0 <= i < |items| ==> Picks(digest, existing, items[i], picks[i], notes[i])
    ensures Preserved(digest, existing, items) == Selected(existing, picks, notes)
  {
    forall i | 0 <= i < |items|
      ensures Resolved(digest, existing, items[i], i) == Selected(existing, picks, notes)[i]
    {
      PickResolves(digest, existing, items[i], i, picks[i], notes[i]);
    }
    assert AllResolved(digest, existing, items) == Selected(existing, picks, notes);
    SelectedIsKept(existing, picks, notes);
  }

  lemma {:induction false} PickResolves(digest: Digest, existing: seq<Entry>, item: Item, idx: nat,
                                        p: nat, note: string)
    requires Proper(existing) && IdsDiffer(digest, existing) && NoStars(existing)
    requires p < |existing| && Picks(digest, existing, item, p, note)
    ensures Resolved(digest, existing, item, idx) == Entry(existing[p].token, note)
  {
    var k := ResolvesById(digest, existing, item, idx, p);
    assert existing[k] in existing;
  }

  ghost predicate MasksDiffer(entries: seq<Entry>) {
    forall i, j :: 0 <= i < j < |entries| ==> Mask(entries[i].token) != Mask(entries[j].token)
  }

  /** When masks differ, the mask of an entry finds that entry's token. */
  lemma {:induction false} MaskFinds(existing: seq<Entry>, p: nat)
    requires MasksDiffer(existing) && p < |existing|
    ensures Get(IndexBy(existing, MaskOf()), Mask(existing[p].token)) == existing[p].token
  {
    var i := IndexLast(existing, MaskOf(), p);
    assert MaskOf()(existing[i].token) == Mask(existing[i].token);
    assert MaskOf()(existing[p].token) == Mask(existing[p].token);
  }

  lemma {:induction false} UnknownIdFindsNothing(digest: Digest, existing: seq<Entry>, ref: string)
    requires forall e :: e in existing ==> TokenId(digest, e.token) != ref
    ensures Get(IndexBy(existing, IdOf(digest)), ref) == ""
  {
    UnknownKey(existing, IdOf(digest), ref);
  }

  /** Without a usable id the mask on display stands for its token, as long as masks differ. */
  lemma {:induction false} MaskResolves(digest: Digest, existing: seq<Entry>, item: Item, idx: nat, p: nat)
    requires Proper(existing) && MasksDiffer(existing) && NoStars(existing) && p < |existing|
    requires forall e :: e in existing ==> TokenId(digest, e.token) != Ref(item)
    requires Value(item) == Mask(existing[p].token)
    ensures Resolved(digest, existing, item, idx) == Entry(existing[p].token, Note(item))
  {
    UnknownIdFindsNothing(digest, existing, Ref(item));
    MaskFinds(existing, p);
    assert existing[p] in existing;
  }

  lemma {:induction false} UnknownKey(entries: seq<Entry>, key: string -> string, k: string)
    requires forall e :: e in entries ==> key(e.token) != k
    ensures k !in IndexBy(entries, key)
  {
    if entries != [] {
      assert entries[|entries| - 1] in entries;
      UnknownKey(entries[..|entries| - 1], key, k);
    }
  }

  lemma {:induction false} ShownPicks(digest: Digest, existing: seq<Entry>, p: nat)
    requires WellFormed(digest) && Proper(existing) && p < |existing|
    ensures Picks(digest, existing, Shown(digest, existing[p]), p, existing[p].note)
  {
    var e := existing[p];
    assert e in existing;
    Text.StripFixpoint(e.token);
    Text.StripFixpoint(e.note);
    var id := TokenId(digest, e.token);
    assert IsHex(digest(e.token));
    assert id[|id| - 1] == digest(e.token)[9];
    Text.StripFixpoint(id);
  }

  lemma {:induction false} ShownRestores(digest: Digest, existing: seq<Entry>)
    requires WellFormed(digest) && Proper(existing)
    requires IdsDiffer(digest, existing) && NoStars(existing)
    ensures Preserved(digest, existing, Displayed(digest, existing)) == existing
  {
    var picks := seq(|existing|, i => i);
    var notes := seq(|existing|, i requires 0 <= i < |existing| => existing[i].note);
    forall p | 0 <= p < |existing|
      ensures Picks(digest, existing, Displayed(digest, existing)[p], picks[p], notes[p])
    {
      ShownPicks(digest, existing, p);
    }
    SelectionIsRestored(digest, existing, Displayed(digest, existing), picks, notes);
    assert Selected(existing, picks, notes) == existing;
  }

  lemma {:induction false} RestoredDiffer(digest: Digest, existing: seq<Entry>)
    requires WellFormed(digest) && Proper(existing)
    requires Preserved(digest, existing, Displayed(digest, existing)) == existing
    ensures IdsDiffer(digest, existing) && NoStars(existing)
  {
    var items := Displayed(digest, existing);
    SavedIsProper(digest, existing, items);
    CollectWhole(AllResolved(digest, existing, items), REFUSED);
    forall i, j | 0 <= i < j < |existing|
      ensures TokenId(digest, existing[i].token) != TokenId(digest, existing[j].token)
    {
      assert AllResolved(digest, existing, items)[i] == existing[i];
      if TokenId(digest, existing[i].token) == TokenId(digest, existing[j].token) {
        LaterWins(digest, existing, i, j);
      }
    }
  }

  /**
   * Saving back what was displayed restores the tokens and notes exactly when the shortened
   * ids tell the tokens apart and none of them is the redaction mark.
   */
  lemma {:induction false} RoundTripExactly(digest: Digest, existing: seq<Entry>)
    requires WellFormed(digest) && Proper(existing)
    ensures Preserved(digest, existing, Displayed(digest, existing)) == existing
            <==> IdsDiffer(digest, existing) && NoStars(existing)
  {
    if IdsDiffer(digest, existing) && NoStars(existing) {
      ShownRestores(digest, existing);
    } else if Preserved(digest, existing, Displayed(digest, existing)) == existing {
      RestoredDiffer(digest, existing);
    }
  }

  lemma {:induction false} LaterWins(digest: Digest, existing: seq<Entry>, i: nat, j: nat)
    requires Proper(existing) && NoStars(existing) && i < j < |existing|
    requires TokenId(digest, existing[i].token) == TokenId(digest, existing[j].token)
    requires WellFormed(digest)
    ensures Resolved(digest, existing, Shown(digest, existing[i]), i).token != existing[i].token
  {
    ShownPicks(digest, existing, j);
    ShownPicks(digest, existing, i);
    var k := ResolvesById(digest, existing, Shown(digest, existing[i]), i, j);
    assert existing[k] in existing;
  }

  lemma {:induction false} OnePiece(s: string)
    requires forall i :: 0 <= i < |s| ==> !BreaksLine(s[i])
    ensures Pieces(s) == [s]
  {
    if s != "" {
      OnePiece(s[1..]);
      assert [s[0]] + s[1..] == s;
    }
  }

  lemma {:induction false} MarkIsStored()
    ensures Entries(Config(NotAList, "***")) == [Entry("***", "")]
  {
    OnePiece("***");
    Text.StripFixpoint("***");
    assert Candidates(Config(NotAList, "***")) == [Entry("***", "")];
    CollectAll([Entry("***", "")], {""});
  }

  /** The redaction mark can be stored through the legacy field, and saving it back loses it. */
  lemma {:induction false} MarkIsLost(digest: Digest)
    requires WellFormed(digest)
    ensures var existing := Entries(Config(NotAList, "***"));
      existing == [Entry("***", "")] && Preserved(digest, existing, Displayed(digest, existing)) != existing
  {
    var existing := Entries(Config(NotAList, "***"));
    MarkIsStored();
    EntriesAreProper(Config(NotAList, "***"));
    assert existing[0] in existing && !NoStars(existing);
    RoundTripExactly(digest, existing);
  }
}
