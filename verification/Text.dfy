/** The Python text operations the modelled handlers rely on. */
module Text {

  /** The characters `str.strip()` removes. */
  predicate IsSpace(c: char) {
    || '\t' <= c <= '\r'
    || '\U{1C}' <= c <= '\U{1F}'
    || c in {' ', '\U{85}', '\U{A0}', '\U{1680}', '\U{2028}', '\U{2029}', '\U{202F}', '\U{205F}', '\U{3000}'}
    || '\U{2000}' <= c <= '\U{200A}'
  }

  /** The code points `str.isspace` accepts, one by one. */
  const WHITE_SPACE: set<int> := {
    9, 10, 11, 12, 13, 0x1C, 0x1D, 0x1E, 0x1F, 0x20, 0x85, 0xA0, 0x1680,
    0x2000, 0x2001, 0x2002, 0x2003, 0x2004, 0x2005, 0x2006, 0x2007, 0x2008, 0x2009, 0x200A,
    0x2028, 0x2029, 0x202F, 0x205F, 0x3000
  }

  predicate Blank(s: string) {
    forall i | 0 <= i < |s| :: IsSpace(s[i])
  }

  function StripLeft(s: string): string {
    if s != "" && IsSpace(s[0]) then StripLeft(s[1..]) else s
  }

  function StripRight(s: string): string {
    if s != "" && IsSpace(s[|s| - 1]) then StripRight(s[..|s| - 1]) else s
  }

  /** `s.strip()` */
  function Strip(s: string): string {
    StripRight(StripLeft(s))
  }

  /** Text that `strip` leaves alone: no white space at either end. */
  predicate Trimmed(s: string) {
    s != "" ==> !IsSpace(s[0]) && !IsSpace(s[|s| - 1])
  }

  lemma {:induction false} StripLeftSplits(s: string) returns (k: nat)
    ensures k <= |s| && StripLeft(s) == s[k..] && Blank(s[..k])
    ensures k < |s| ==> !IsSpace(s[k])
  {
    if s != "" && IsSpace(s[0]) {
      var k' := StripLeftSplits(s[1..]);
      k := k' + 1;
      assert s[1..][k'..] == s[k..];
      assert s[..k] == [s[0]] + s[1..][..k'];
    } else {
      k := 0;
    }
  }

  lemma {:induction false} StripRightSplits(s: string) returns (k: nat)
    ensures k <= |s| && StripRight(s) == s[..k] && Blank(s[k..])
    ensures k > 0 ==> !IsSpace(s[k - 1])
  {
    if s != "" && IsSpace(s[|s| - 1]) {
      k := StripRightSplits(s[..|s| - 1]);
      assert s[..|s| - 1][..k] == s[..k];
      assert s[k..] == s[..|s| - 1][k..] + [s[|s| - 1]];
    } else {
      k := |s|;
    }
  }

  /** `strip` cuts a blank prefix and a blank suffix and nothing else. */
  lemma {:induction false} StripCuts(s: string) returns (a: nat, b: nat)
    ensures a <= b <= |s| && Strip(s) == s[a..b]
    ensures Blank(s[..a]) && Blank(s[b..]) && Trimmed(s[a..b])
  {
    a := StripLeftSplits(s);
    var k := StripRightSplits(s[a..]);
    b := a + k;
    assert s[a..][..k] == s[a..b];
    assert s[a..][k..] == s[b..];
  }

  lemma {:induction false} StripTrims(s: string)
    ensures Trimmed(Strip(s))
  {
    var a, b := StripCuts(s);
  }

  /** Stripping one character leaves nothing exactly if it is white space. */
  lemma {:induction false} SpaceIsStripped(c: char)
    ensures Strip([c]) == if c as int in WHITE_SPACE then "" else [c]
  {
    assert IsSpace(c) <==> c as int in WHITE_SPACE;
    var one := [c];
    if IsSpace(c) {
      assert one[0] == c && one[1..] == "";
      assert StripLeft(one) == StripLeft("") == "";
    } else {
      StripFixpoint(one);
    }
  }

  lemma StripFixpoint(s: string)
    requires Trimmed(s)
    ensures Strip(s) == s
  {
  }

  /** The test `part.strip()` uses for "says something". */
  lemma {:induction false} StripEmptyIffBlank(s: string)
    ensures Strip(s) == "" <==> Blank(s)
  {
    var a, b := StripCuts(s);
    if a == b {
      assert s == s[..a] + s[b..];
    } else {
      assert s[a] == s[a..b][0];
    }
  }

  /** `"".join(parts)` */
  function Join(parts: seq<string>): string {
    if parts == [] then "" else parts[0] + Join(parts[1..])
  }

  lemma {:induction false} JoinAppend(parts: seq<string>, last: string)
    ensures Join(parts + [last]) == Join(parts) + last
  {
    if parts != [] {
      JoinAppend(parts[1..], last);
      assert (parts + [last])[1..] == parts[1..] + [last];
    }
  }

  lemma {:induction false} JoinBlank(parts: seq<string>)
    requires forall i | 0 <= i < |parts| :: Blank(parts[i])
    ensures Blank(Join(parts))
  {
    if parts != [] {
      JoinBlank(parts[1..]);
    }
  }

  /** `needle in haystack` */
  predicate Contains(haystack: string, needle: string) {
    exists i | 0 <= i <= |haystack| :: needle <= haystack[i..]
  }

  /** The digits of `hexdigest()`. */
  predicate Hex(s: string) {
    forall i | 0 <= i < |s| :: '0' <= s[i] <= '9' || 'a' <= s[i] <= 'f'
  }

  // ---- decimal numbers ----

  function Digits(n: nat): string {
    if n < 10 then ["0123456789"[n]] else Digits(n / 10) + ["0123456789"[n % 10]]
  }

  /** `str(n)` */
  function Decimal(n: int): string {
    if n < 0 then "-" + Digits(-n) else Digits(n)
  }

  function DigitValue(c: char): nat {
    if '0' <= c <= '9' then (c - '0') as nat else 0
  }

  function ReadDigits(s: string): nat {
    if s == "" then 0 else ReadDigits(s[..|s| - 1]) * 10 + DigitValue(s[|s| - 1])
  }

  lemma {:induction false} DigitsRead(n: nat)
    ensures ReadDigits(Digits(n)) == n && Digits(n) != "" && Digits(n)[0] != '-'
  {
    if n >= 10 {
      DigitsRead(n / 10);
      assert Digits(n)[..|Digits(n)| - 1] == Digits(n / 10);
    } else {
      assert ReadDigits([]) == 0;
      assert Digits(n)[..0] == [];
    }
  }

  lemma {:induction false} DecimalInjective(a: int, b: int)
    requires Decimal(a) == Decimal(b)
    ensures a == b
  {
    DigitsRead(if a < 0 then -a else a);
    DigitsRead(if b < 0 then -b else b);
    if a < 0 && b < 0 {
      assert Decimal(a)[1..] == Digits(-a) && Decimal(b)[1..] == Digits(-b);
    }
  }

  function Pow10(k: nat): nat {
    if k == 0 then 1 else 10 * Pow10(k - 1)
  }

  lemma {:induction false} DigitsShort(n: nat, k: nat)
    requires k >= 1 && n < Pow10(k)
    ensures |Digits(n)| <= k
  {
    if n >= 10 {
      assert Pow10(1) == 10 * Pow10(0) == 10;
      DigitsShort(n / 10, k - 1);
    }
  }
}
