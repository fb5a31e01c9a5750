/**
 * What reading and saving the image plugin's tokens does with each single element, said without
 * the functions the merge is made of.
 */
module TokenContents {
  import opened Common
  import opened TokenMasking
  import Text

  /** The first text that is not empty, or the last one. */
  predicate FirstText(r: string, a: string, b: string, c: string) {
    || (a != "" && r == a)
    || (a == "" && b != "" && r == b)
    || (a == "" && b == "" && r == c)
  }

  // ---- What a stored element says ----

  /** An element of a stored list, read as a token and a note. */
  ghost predicate Says(item: Item, e: Entry) {
    match item
    case Plain(value) => e == Entry(Text.Strip(value), "")
    case Fields(token, camel, snake, note, remark, source, _) =>
      exists t, n :: FirstText(t, token, camel, snake) && FirstText(n, note, remark, source)
                  && e == Entry(Text.Strip(t), Text.Strip(n))
  }

  /** `after` is `before` with `e` at its end, unless its token is blank or already there. */
  ghost predicate Extends(before: seq<Entry>, e: Entry, after: seq<Entry>) {
    after == if e.token == "" || exists x :: x in before && x.token == e.token then before else before + [e]
  }

  lemma {:induction false} CollectOneMore(candidates: seq<Entry>, e: Entry)
    ensures Extends(Collect(candidates, {""}), e, Collect(candidates + [e], {""}))
  {
    assert (candidates + [e])[..|candidates|] == candidates;
    HoldsIsIn(Collect(candidates, {""}), e.token);
  }

  lemma {:induction false} HoldsIsIn(entries: seq<Entry>, token: string)
    ensures Holds(entries, token) <==> exists x :: x in entries && x.token == token
  {
    if x :| x in entries && x.token == token {
      var i :| 0 <= i < |entries| && entries[i] == x;
    }
  }

  lemma {:induction false} CollectDropsBlank(candidates: seq<Entry>, note: string)
    ensures Collect(candidates + [Entry("", note)], {""}) == Collect(candidates, {""})
  {
    assert (candidates + [Entry("", note)])[..|candidates|] == candidates;
  }

  lemma {:induction false} ReadSays(item: Item)
    ensures Says(item, Read(item))
  {
    if item.Fields? {
      assert FirstText(Or(Or(item.token, item.accessToken), item.snakeAccessToken),
                       item.token, item.accessToken, item.snakeAccessToken);
      assert FirstText(Or(Or(item.note, item.remark), item.source), item.note, item.remark, item.source);
    }
  }

  /** One more element of the list: its token comes last, unless it is blank or known. */
  lemma {:induction false} ListElementRead(items: seq<Item>, item: Item, e: Entry)
    requires Says(item, e)
    ensures Extends(Entries(Config(Items(items), "")), e, Entries(Config(Items(items + [item]), "")))
  {
    ReadSays(item);
    assert e == Read(item);
    assert ReadPieces(Pieces("")) == [Entry("", "")] by {
      Text.StripFixpoint("");
    }
    CollectDropsBlank(ReadAll(items), "");
    CollectDropsBlank(ReadAll(items + [item]), "");
    assert ReadAll(items + [item]) == ReadAll(items) + [e];
    CollectOneMore(ReadAll(items), e);
  }

  /** The code points that end a piece of the legacy field: the comma and those `splitlines` breaks at. */
  const SEPARATORS: set<int> := {44, 10, 11, 12, 13, 0x1C, 0x1D, 0x1E, 0x85, 0x2028, 0x2029}

  /** One character alone is two blank pieces if it separates, and one piece otherwise. */
  lemma {:induction false} SeparatorsSplit(c: char)
    ensures Pieces([c]) == if c as int in SEPARATORS then ["", ""] else [[c]]
  {
    assert BreaksLine(c) <==> c as int in SEPARATORS;
    var one := [c];
    assert one[0] == c && one[1..] == "";
    if c as int !in SEPARATORS {
      OnePiece(one);
    } else {
      PiecesSplit("", c, "");
      assert "" + [c] + "" == one;
    }
  }

  /** A line break or a comma separates what is before it from what is after it. */
  lemma {:induction false} PiecesSplit(a: string, c: char, b: string)
    requires BreaksLine(c)
    ensures Pieces(a + [c] + b) == Pieces(a) + Pieces(b)
  {
    if a == "" {
      assert (a + [c] + b)[1..] == b;
    } else {
      assert (a + [c] + b)[1..] == a[1..] + [c] + b;
      PiecesSplit(a[1..], c, b);
    }
  }

  /** The legacy field after the list: its one line comes last, unless it is blank or known. */
  lemma {:induction false} LegacyLineRead(tokens: TokenList, line: string)
    requires forall i :: 0 <= i < |line| ==> !BreaksLine(line[i])
    ensures Extends(Entries(Config(tokens, "")), Entry(Text.Strip(line), ""), Entries(Config(tokens, line)))
  {
    var listed := if tokens.Items? then ReadAll(tokens.items) else [];
    OnePiece(line);
    Text.StripFixpoint("");
    assert ReadPieces(Pieces("")) == [Entry("", "")];
    assert ReadPieces([line]) == [Entry(Text.Strip(line), "")];
    CollectDropsBlank(listed, "");
    CollectOneMore(listed, Entry(Text.Strip(line), ""));
  }

  /** One more line of the legacy field. */
  lemma {:induction false} LegacyNextRead(tokens: TokenList, text: string, c: char, line: string)
    requires BreaksLine(c) && forall i :: 0 <= i < |line| ==> !BreaksLine(line[i])
    ensures Extends(Entries(Config(tokens, text)), Entry(Text.Strip(line), ""),
                    Entries(Config(tokens, text + [c] + line)))
  {
    PiecesSplit(text, c, line);
    OnePiece(line);
    assert ReadPieces(Pieces(text) + [line]) == ReadPieces(Pieces(text)) + [Entry(Text.Strip(line), "")];
    var before := Candidates(Config(tokens, text));
    assert Candidates(Config(tokens, text + [c] + line)) == before + [Entry(Text.Strip(line), "")];
    CollectOneMore(before, Entry(Text.Strip(line), ""));
  }

  /** Nothing is read from nothing. */
  lemma {:induction false} NothingRead()
    ensures Entries(Config(NotAList, "")) == [] && Entries(Config(Items([]), "")) == []
  {
    Text.StripFixpoint("");
    assert ReadPieces(Pieces("")) == [Entry("", "")];
    assert ReadAll([]) == [];
    CollectDropsBlank([], "");
  }

  /** `mask` shows the ends of the token and nothing between them: four characters, or ten of a long one. */
  ghost predicate ShowsEnds(mask: string, token: string) {
    var shown := if |token| > 24 then 10 else if |token| < 4 then |token| else 4;
    && |mask| == 2 * shown + 3
    && mask[..shown] == token[..shown]
    && mask[shown..shown + 3] == "···"
    && mask[shown + 3..] == token[|token| - shown..]
  }

  lemma {:induction false} MaskShows(token: string)
    requires Text.Trimmed(token)
    ensures if token == "" then Mask(token) == "" else ShowsEnds(Mask(token), token)
  {
    Text.StripFixpoint(token);
  }

  /** What a client is shown: for each entry its mask, its note and an id, and nothing else. */
  lemma {:induction false} DisplayMeans(digest: Digest, existing: seq<Entry>, i: nat)
    requires Proper(existing) && i < |existing|
    ensures |Displayed(digest, existing)| == |existing|
    ensures var item := Displayed(digest, existing)[i];
      && item.Fields? && ShowsEnds(item.token, existing[i].token) && item.note == existing[i].note
      && item.tokenId == "token:" + digest(existing[i].token)
      && item.accessToken == item.snakeAccessToken == item.remark == item.source == ""
  {
    assert existing[i] in existing;
    MaskShows(existing[i].token);
    Text.StripFixpoint(existing[i].token);
  }

  // ---- What a returned item stands for ----

  /** The text and note of an item a client sends; its reference is "" if it has none. */
  ghost predicate Sends(item: Item, text: string, note: string, ref: string) {
    match item
    case Plain(value) => text == Text.Strip(value) && note == "" && ref == ""
    case Fields(token, _, _, first, second, third, id) =>
      && text == Text.Strip(token) && ref == Text.Strip(id)
      && exists n :: FirstText(n, first, second, third) && note == Text.Strip(n)
  }

  /** `token` is that of the last entry with the id `ref`. */
  ghost predicate KnownById(digest: Digest, existing: seq<Entry>, ref: string, token: string) {
    exists p :: && 0 <= p < |existing| && existing[p].token == token && TokenId(digest, token) == ref
                && forall q :: p < q < |existing| ==> TokenId(digest, existing[q].token) != ref
  }

  /** `token` is that of the last entry shown as `text`. */
  ghost predicate KnownByMask(existing: seq<Entry>, text: string, token: string) {
    exists p :: && 0 <= p < |existing| && existing[p].token == token && Mask(token) == text
                && forall q :: p < q < |existing| ==> Mask(existing[q].token) != text
  }

  /** What an item points at: by its id, else by the mask it shows, else the text itself. */
  ghost predicate PointsAt(digest: Digest, existing: seq<Entry>, text: string, ref: string, token: string) {
    || KnownById(digest, existing, ref, token)
    || ((forall e :: e in existing ==> TokenId(digest, e.token) != ref) && KnownByMask(existing, text, token))
    || ((forall e :: e in existing ==> TokenId(digest, e.token) != ref && Mask(e.token) != text) && token == text)
  }

  /** The entry an item at position `idx` stands for: blanks and the mark stand for the entry at that place. */
  ghost predicate StandsFor(digest: Digest, existing: seq<Entry>, item: Item, idx: nat, e: Entry) {
    exists text, ref, token :: StandsBy(digest, existing, item, idx, e, text, ref, token)
  }

  ghost predicate StandsBy(digest: Digest, existing: seq<Entry>, item: Item, idx: nat, e: Entry,
                           text: string, ref: string, token: string) {
    && Sends(item, text, e.note, ref) && PointsAt(digest, existing, text, ref, token)
    && e.token == if (token == "" || token == "***") && idx < |existing| then existing[idx].token else token
  }

  /** The entry with a key after which no other has it is the one the index returns. */
  lemma {:induction false} LastIsIndexed(entries: seq<Entry>, key: string -> string, p: nat)
    requires p < |entries| && forall q :: p < q < |entries| ==> key(entries[q].token) != key(entries[p].token)
    ensures Get(IndexBy(entries, key), key(entries[p].token)) == entries[p].token
  {
    var n := |entries| - 1;
    if p < n {
      assert forall q :: p < q < n ==> entries[..n][q] == entries[q];
      LastIsIndexed(entries[..n], key, p);
    }
  }

  /** Where some entry has a key, a last one does. */
  lemma {:induction false} LastExists(entries: seq<Entry>, key: string -> string, k: string) returns (p: nat)
    requires exists e :: e in entries && key(e.token) == k
    ensures p < |entries| && key(entries[p].token) == k
    ensures forall q :: p < q < |entries| ==> key(entries[q].token) != k
  {
    var n := |entries| - 1;
    if key(entries[n].token) == k {
      p := n;
    } else {
      assert entries == entries[..n] + [entries[n]];
      p := LastExists(entries[..n], key, k);
    }
  }

  lemma {:induction false} IdIndexed(digest: Digest, existing: seq<Entry>, ref: string, token: string)
    requires KnownById(digest, existing, ref, token)
    ensures Get(IndexBy(existing, IdOf(digest)), ref) == token && exists e :: e in existing && e.token == token
  {
    var p :| && 0 <= p < |existing| && existing[p].token == token && TokenId(digest, token) == ref
             && forall q :: p < q < |existing| ==> TokenId(digest, existing[q].token) != ref;
    assert existing[p] in existing;
    LastIsIndexed(existing, IdOf(digest), p);
  }

  lemma {:induction false} MaskIndexed(existing: seq<Entry>, text: string, token: string)
    requires KnownByMask(existing, text, token)
    ensures Get(IndexBy(existing, MaskOf()), text) == token && exists e :: e in existing && e.token == token
  {
    var p :| && 0 <= p < |existing| && existing[p].token == token && Mask(token) == text
             && forall q :: p < q < |existing| ==> Mask(existing[q].token) != text;
    assert existing[p] in existing;
    LastIsIndexed(existing, MaskOf(), p);
  }

  /** An item points at one token only, the one the merge loop looks up. */
  lemma {:induction false} PointsAtOne(digest: Digest, existing: seq<Entry>, text: string, ref: string, token: string)
    requires Proper(existing) && PointsAt(digest, existing, text, ref, token)
    ensures token == Or(Or(Get(IndexBy(existing, IdOf(digest)), ref), Get(IndexBy(existing, MaskOf()), text)), text)
  {
    if KnownById(digest, existing, ref, token) {
      IdIndexed(digest, existing, ref, token);
    } else {
      UnknownKey(existing, IdOf(digest), ref);
      if KnownByMask(existing, text, token) {
        MaskIndexed(existing, text, token);
      } else {
        UnknownKey(existing, MaskOf(), text);
      }
    }
  }

  /** Every item points at some token. */
  lemma {:induction false} PointsSomewhere(digest: Digest, existing: seq<Entry>, text: string, ref: string)
    returns (token: string)
    ensures PointsAt(digest, existing, text, ref, token)
  {
    if e :| e in existing && TokenId(digest, e.token) == ref {
      assert IdOf(digest)(e.token) == ref;
      var p := LastExists(existing, IdOf(digest), ref);
      token := existing[p].token;
      assert KnownById(digest, existing, ref, token);
    } else if e :| e in existing && Mask(e.token) == text {
      assert MaskOf()(e.token) == text;
      var p := LastExists(existing, MaskOf(), text);
      token := existing[p].token;
      assert KnownByMask(existing, text, token);
    } else {
      token := text;
    }
  }

  lemma {:induction false} SendsOne(item: Item, text: string, note: string, ref: string)
    ensures Sends(item, text, note, ref) <==> text == Value(item) && note == Note(item) && ref == Ref(item)
  {
    if item.Fields? {
      assert FirstText(Or(Or(item.note, item.remark), item.source), item.note, item.remark, item.source);
    }
  }

  lemma {:induction false} StandsByOne(digest: Digest, existing: seq<Entry>, item: Item, idx: nat, e: Entry,
                                       text: string, ref: string, token: string)
    requires Proper(existing) && StandsBy(digest, existing, item, idx, e, text, ref, token)
    ensures e == Resolved(digest, existing, item, idx)
  {
    SendsOne(item, text, e.note, ref);
    PointsAtOne(digest, existing, text, ref, token);
  }

  /** The merge loop's entry for an item that points at `token`. */
  lemma {:induction false} ResolvedFrom(digest: Digest, existing: seq<Entry>, item: Item, idx: nat, token: string)
    requires Proper(existing) && PointsAt(digest, existing, Value(item), Ref(item), token)
    ensures var e := Resolved(digest, existing, item, idx);
      && e.note == Note(item)
      && e.token == if (token == "" || token == "***") && idx < |existing| then existing[idx].token else token
  {
    PointsAtOne(digest, existing, Value(item), Ref(item), token);
  }

  lemma {:induction false} ResolvedStands(digest: Digest, existing: seq<Entry>, item: Item, idx: nat)
    requires Proper(existing)
    ensures StandsFor(digest, existing, item, idx, Resolved(digest, existing, item, idx))
  {
    var e, text, ref := Resolved(digest, existing, item, idx), Value(item), Ref(item);
    var token := PointsSomewhere(digest, existing, text, ref);
    ResolvedFrom(digest, existing, item, idx, token);
    assert Sends(item, text, e.note, ref) by {
      SendsOne(item, text, e.note, ref);
    }
    assert StandsBy(digest, existing, item, idx, e, text, ref, token);
  }

  /** Every item stands for exactly one entry. */
  lemma {:induction false} StandsForOne(digest: Digest, existing: seq<Entry>, item: Item, idx: nat)
    requires Proper(existing)
    ensures exists e :: StandsFor(digest, existing, item, idx, e)
    ensures forall e, x ::
      StandsFor(digest, existing, item, idx, e) && StandsFor(digest, existing, item, idx, x) ==> e == x
  {
    ResolvedStands(digest, existing, item, idx);
    forall e, text, ref, token | StandsBy(digest, existing, item, idx, e, text, ref, token)
      ensures e == Resolved(digest, existing, item, idx)
    {
      StandsByOne(digest, existing, item, idx, e, text, ref, token);
    }
  }

  // ---- The saved list, item by item ----

  /** `after` is `before` with `e` at its end, unless its token is blank, the mark, or already there. */
  ghost predicate Keeps(before: seq<Entry>, e: Entry, after: seq<Entry>) {
    after == if e.token == "" || e.token == "***" || exists x :: x in before && x.token == e.token then before
             else before + [e]
  }

  lemma {:induction false} ResolvedIsSaved(digest: Digest, existing: seq<Entry>, items: seq<Item>, i: nat)
    requires i < |items|
    ensures Keeps(Preserved(digest, existing, items[..i]), Resolved(digest, existing, items[i], i),
                  Preserved(digest, existing, items[..i + 1]))
  {
    var some := AllResolved(digest, existing, items[..i + 1]);
    assert AllResolved(digest, existing, items[..i]) == some[..i];
    HoldsIsIn(Collect(some[..i], REFUSED), some[i].token);
  }

  lemma {:induction false} SavedGrows(digest: Digest, existing: seq<Entry>, items: seq<Item>, n: nat)
    requires n <= |items|
    ensures Preserved(digest, existing, items[..n]) <= Preserved(digest, existing, items)
  {
    var all := AllResolved(digest, existing, items);
    assert AllResolved(digest, existing, items[..n]) == all[..n];
    CollectGrows(all, REFUSED, n);
  }

  /** One more item sent: the entry it stands for is saved last, unless it is refused or there already. */
  lemma {:induction false} ItemIsSaved(digest: Digest, existing: seq<Entry>, items: seq<Item>, i: nat, e: Entry)
    requires Proper(existing) && i < |items| && StandsFor(digest, existing, items[i], i, e)
    ensures Keeps(Preserved(digest, existing, items[..i]), e, Preserved(digest, existing, items[..i + 1]))
    ensures Preserved(digest, existing, items[..i + 1]) <= Preserved(digest, existing, items)
    ensures Preserved(digest, existing, []) == []
  {
    var text, ref, token :| StandsBy(digest, existing, items[i], i, e, text, ref, token);
    StandsByOne(digest, existing, items[i], i, e, text, ref, token);
    ResolvedIsSaved(digest, existing, items, i);
    SavedGrows(digest, existing, items, i + 1);
  }

  lemma {:induction false} CollectGrows(candidates: seq<Entry>, refused: set<string>, n: nat)
    requires n <= |candidates|
    ensures Collect(candidates[..n], refused) <= Collect(candidates, refused)
  {
    if n < |candidates| {
      var front := candidates[..|candidates| - 1];
      assert front[..n] == candidates[..n];
      CollectGrows(front, refused, n);
    } else {
      assert candidates[..n] == candidates;
    }
  }

  /**
   * A token the user types is saved: text that is no mask on display, under a reference to no
   * stored entry, is stored as typed, with its note, unless an earlier item has stored it.
   */
  lemma {:induction false} TypedTokenIsSaved(digest: Digest, existing: seq<Entry>, items: seq<Item>, i: nat,
                                             text: string, note: string, ref: string)
    requires Proper(existing) && i < |items| && Sends(items[i], text, note, ref)
    requires text != "" && text != "***"
    requires forall e :: e in existing ==> TokenId(digest, e.token) != ref && Mask(e.token) != text
    ensures var before := Preserved(digest, existing, items[..i]);
      var after := Preserved(digest, existing, items[..i + 1]);
      && (if exists x :: x in before && x.token == text then after == before else after == before + [Entry(text, note)])
      && after <= Preserved(digest, existing, items)
  {
    assert StandsBy(digest, existing, items[i], i, Entry(text, note), text, ref, text);
    ItemIsSaved(digest, existing, items, i, Entry(text, note));
  }

  /**
   * A blank or the redaction mark, under a reference to no stored entry, keeps the token stored
   * at its own place, with the new note; beyond the stored entries it saves nothing.
   */
  lemma {:induction false} BlankKeepsItsPlace(digest: Digest, existing: seq<Entry>, items: seq<Item>, i: nat,
                                              text: string, note: string, ref: string)
    requires Proper(existing) && i < |items| && Sends(items[i], text, note, ref)
    requires text == "" || text == "***"
    requires forall e :: e in existing ==> TokenId(digest, e.token) != ref
    ensures var before := Preserved(digest, existing, items[..i]);
      var after := Preserved(digest, existing, items[..i + 1]);
      && (i < |existing| ==> Keeps(before, Entry(existing[i].token, note), after))
      && (i >= |existing| ==> after == before)
      && after <= Preserved(digest, existing, items)
  {
    forall e | e in existing
      ensures Mask(e.token) != text
    {
      MaskIsNeither(e.token);
    }
    var e := Entry(if i < |existing| then existing[i].token else text, note);
    assert StandsBy(digest, existing, items[i], i, e, text, ref, text);
    ItemIsSaved(digest, existing, items, i, e);
  }

  lemma {:induction false} MaskIsNeither(token: string)
    requires Text.Trimmed(token) && token != ""
    ensures Mask(token) != "" && Mask(token) != "***"
  {
    Text.StripFixpoint(token);
    MaskShows(token);
  }

  /** What is stored: each token under its own name with its note, and the legacy field emptied. */
  lemma {:induction false} SavedConfig(digest: Digest, existing: seq<Entry>, items: seq<Item>)
    requires Proper(existing)
    ensures var saved := Preserved(digest, existing, items);
      var config := Stored(saved);
      && config.legacy == "" && config.tokens.Items? && |config.tokens.items| == |saved|
      && forall i :: 0 <= i < |saved| ==>
           && Says(config.tokens.items[i], saved[i])
           && config.tokens.items[i] == Fields(saved[i].token, "", "", saved[i].note, "", "", "")
  {
    var saved := Preserved(digest, existing, items);
    SavedIsProper(digest, existing, items);
    forall i | 0 <= i < |saved|
      ensures Says(Stored(saved).tokens.items[i], saved[i])
    {
      assert saved[i] in saved;
      Text.StripFixpoint(saved[i].token);
      Text.StripFixpoint(saved[i].note);
      ReadSays(Stored(saved).tokens.items[i]);
    }
  }
}
