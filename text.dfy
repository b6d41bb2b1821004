/**
 * The few Python `str` operations the core relies on: whitespace stripping and splitting
 * (`str.strip`, `str.split`), prefix and substring tests, lower-casing, `str(int)` and
 * `int(str)` for base-10 text.
 */
module Text {
  import opened Results

  /** Python's `str.isspace` for a single character (the Unicode whitespace set CPython uses). */
  predicate IsSpace(c: char) {
    var n := c as int;
    (0x09 <= n <= 0x0D) || (0x1C <= n <= 0x20) || n == 0x85 || n == 0xA0 || n == 0x1680
    || (0x2000 <= n <= 0x200A) || n == 0x2028 || n == 0x2029 || n == 0x202F || n == 0x205F
    || n == 0x3000
  }

  predicate AllSpace(s: string) {
    forall i :: 0 <= i < |s| ==> IsSpace(s[i])
  }

  /** `s.lstrip()`: drops the leading whitespace run. */
  function TrimLeft(s: string): (r: string)
    ensures |r| <= |s| && r == s[|s| - |r|..]
    ensures r == [] || !IsSpace(r[0])
    ensures AllSpace(s[..|s| - |r|])
  {
    if |s| > 0 && IsSpace(s[0]) then TrimLeft(s[1..]) else s
  }

  /** `s.rstrip()`: drops the trailing whitespace run. */
  function TrimRight(s: string): (r: string)
    ensures |r| <= |s| && r == s[..|r|]
    ensures r == [] || !IsSpace(r[|r| - 1])
    ensures AllSpace(s[|r|..])
  {
    if |s| > 0 && IsSpace(s[|s| - 1]) then
      var init := s[..|s| - 1];
      var r := TrimRight(init);
      assert init[..|r|] == s[..|r|];
      assert s[|r|..] == init[|r|..] + [s[|s| - 1]];
      r
    else s
  }

  /** `s.strip()`. */
  function Strip(s: string): (r: string)
    ensures r == [] || (!IsSpace(r[0]) && !IsSpace(r[|r| - 1]))
  {
    TrimRight(TrimLeft(s))
  }

  lemma {:induction false} TrimLeftDropsSpaces(w: string, x: string)
    requires AllSpace(w)
    ensures TrimLeft(w + x) == TrimLeft(x)
  {
    if w == [] {
      assert w + x == x;
    } else {
      assert (w + x)[0] == w[0];
      assert (w + x)[1..] == w[1..] + x;
      TrimLeftDropsSpaces(w[1..], x);
    }
  }

  lemma {:induction false} TrimRightDropsSpaces(x: string, w: string)
    requires AllSpace(w)
    ensures TrimRight(x + w) == TrimRight(x)
  {
    if w == [] {
      assert x + w == x;
    } else {
      assert (x + w)[|x + w| - 1] == w[|w| - 1];
      assert (x + w)[..|x + w| - 1] == x + w[..|w| - 1];
      TrimRightDropsSpaces(x, w[..|w| - 1]);
    }
  }

  lemma {:induction false} TrimBothIgnoresTrailing(c: string, w: string)
    requires AllSpace(w)
    ensures TrimRight(TrimLeft(c + w)) == TrimRight(TrimLeft(c))
  {
    if c == [] {
      assert c + w == w;
      TrimLeftDropsSpaces(w, []);
      assert w + [] == w;
    } else if IsSpace(c[0]) {
      assert (c + w)[1..] == c[1..] + w;
      TrimBothIgnoresTrailing(c[1..], w);
    } else {
      TrimRightDropsSpaces(c, w);
    }
  }

  /** Surrounding whitespace never changes what `strip` yields. */
  lemma StripIgnoresPadding(w1: string, c: string, w2: string)
    requires AllSpace(w1) && AllSpace(w2)
    ensures Strip(w1 + c + w2) == Strip(c)
  {
    assert w1 + c + w2 == w1 + (c + w2);
    TrimLeftDropsSpaces(w1, c + w2);
    TrimBothIgnoresTrailing(c, w2);
  }

  /** `s.startswith(p)`. */
  predicate StartsWith(s: string, p: string) {
    |p| <= |s| && s[..|p|] == p
  }

  /** `s[:n]`. */
  function Truncate(s: string, n: nat): (t: string)
    ensures |t| == (if |s| <= n then |s| else n) && t == s[..|t|]
  {
    if |s| <= n then s else s[..n]
  }

  /** `sub in s` for strings. */
  predicate Contains(s: string, sub: string)
    decreases |s|
  {
    StartsWith(s, sub) || (|s| > 0 && Contains(s[1..], sub))
  }

  lemma {:induction false} ContainsAt(s: string, sub: string, i: nat)
    requires i + |sub| <= |s| && s[i..i + |sub|] == sub
    ensures Contains(s, sub)
    decreases i
  {
    if i > 0 {
      assert s[1..][i - 1..i - 1 + |sub|] == s[i..i + |sub|];
      ContainsAt(s[1..], sub, i - 1);
    }
  }

  function LowerChar(c: char): char {
    if 'A' <= c <= 'Z' then (c as int + 32) as char else c
  }

  /** `s.lower()`, restricted to the ASCII letters. */
  function Lower(s: string): (r: string)
    ensures |r| == |s| && forall i :: 0 <= i < |s| ==> r[i] == LowerChar(s[i])
  {
    seq(|s|, i requires 0 <= i < |s| => LowerChar(s[i]))
  }

  /** The leading run of non-whitespace characters of `s`. */
  function TakeWord(s: string): (w: string)
    ensures |w| <= |s| && w == s[..|w|]
    ensures forall i :: 0 <= i < |w| ==> !IsSpace(w[i])
    ensures |w| == |s| || IsSpace(s[|w|])
  {
    if |s| == 0 || IsSpace(s[0]) then [] else [s[0]] + TakeWord(s[1..])
  }

  lemma TakeWordNonEmpty(t: string)
    requires t != [] && !IsSpace(t[0])
    ensures IsWord(TakeWord(t))
  {
  }

  /** A non-empty run of non-whitespace characters. */
  predicate IsWord(w: string) {
    w != [] && forall i :: 0 <= i < |w| ==> !IsSpace(w[i])
  }

  lemma WordsCons(w: string, ws: seq<string>)
    requires IsWord(w) && forall k :: 0 <= k < |ws| ==> IsWord(ws[k])
    ensures forall k :: 0 <= k < |[w] + ws| ==> IsWord(([w] + ws)[k])
  {
  }

  /** `s.split()` with no separator: the maximal runs of non-whitespace characters, in order. */
  function Words(s: string): (ws: seq<string>)
    ensures forall k :: 0 <= k < |ws| ==> IsWord(ws[k])
    decreases |s|
  {
    var t := TrimLeft(s);
    if t == [] then []
    else
      var w := TakeWord(t);
      TakeWordNonEmpty(t);
      var rest := t[|w|..];
      assert |rest| < |s|;
      var ws := Words(rest);
      WordsCons(w, ws);
      [w] + ws
  }

  predicate IsDigit(c: char) {
    '0' <= c <= '9'
  }

  function DigitChar(d: nat): (c: char)
    requires d < 10
    ensures IsDigit(c)
  {
    ('0' as int + d) as char
  }

  function DigitValue(c: char): (d: nat)
    requires IsDigit(c)
    ensures d < 10 && DigitChar(d) == c
  {
    c as int - '0' as int
  }

  /** `str(n)` for a natural number: its decimal digits, most significant first, no leading zero. */
  function NatToString(n: nat): (s: string)
    ensures |s| >= 1 && forall i :: 0 <= i < |s| ==> IsDigit(s[i])
    decreases n
  {
    if n < 10 then [DigitChar(n)] else NatToString(n / 10) + [DigitChar(n % 10)]
  }

  /** `str(i)` for an integer. */
  function IntToString(i: int): string {
    if i < 0 then "-" + NatToString(-i) else NatToString(i)
  }

  /** The value of a string of decimal digits. */
  function DigitsValue(ds: string): nat
    requires forall i :: 0 <= i < |ds| ==> IsDigit(ds[i])
  {
    if ds == [] then 0 else DigitsValue(ds[..|ds| - 1]) * 10 + DigitValue(ds[|ds| - 1])
  }

  lemma {:induction false} DigitsValueOfNat(n: nat)
    ensures DigitsValue(NatToString(n)) == n
    decreases n
  {
    var s := NatToString(n);
    if n >= 10 {
      assert s[..|s| - 1] == NatToString(n / 10);
      DigitsValueOfNat(n / 10);
    }
  }

  /** Digits and underscores, never two underscores in a row. */
  predicate DigitRun(s: string) {
    s == [] || ((IsDigit(s[0]) || (s[0] == '_' && (|s| == 1 || s[1] != '_'))) && DigitRun(s[1..]))
  }

  predicate AllDigits(s: string) {
    forall i :: 0 <= i < |s| ==> IsDigit(s[i])
  }

  lemma {:induction false} AllDigitsRun(s: string)
    requires AllDigits(s)
    ensures DigitRun(s)
  {
    if s != [] {
      assert AllDigits(s[1..]) by {
        forall i | 0 <= i < |s[1..]|
          ensures IsDigit(s[1..][i])
        {
          assert s[1..][i] == s[i + 1];
        }
      }
      AllDigitsRun(s[1..]);
    }
  }

  /** The digit grammar `int()` accepts in base 10: digits, with single underscores between digits. */
  predicate Numeral(s: string) {
    |s| >= 1 && IsDigit(s[0]) && IsDigit(s[|s| - 1]) && DigitRun(s)
  }

  function DropUnderscores(s: string): (r: string)
    requires DigitRun(s)
    ensures forall i :: 0 <= i < |r| ==> IsDigit(r[i])
    ensures AllDigits(s) ==> r == s
  {
    if s == [] then []
    else
      assert AllDigits(s) ==> AllDigits(s[1..]) by {
        if AllDigits(s) {
          forall i | 0 <= i < |s[1..]|
            ensures IsDigit(s[1..][i])
          {
            assert s[1..][i] == s[i + 1];
          }
        }
      }
      (if s[0] == '_' then [] else [s[0]]) + DropUnderscores(s[1..])
  }

  function NumeralValue(s: string): nat
    requires Numeral(s)
  {
    DigitsValue(DropUnderscores(s))
  }

  /**
   * The most digits Python 3.11's `int()` converts from a decimal string (the default of
   * `sys.set_int_max_str_digits`); a longer numeral raises `ValueError`.
   */
  const MaxStrDigits: nat := 4300

  /**
   * Python's `int(text)` in base 10: surrounding whitespace is ignored, one optional sign, then
   * a numeral of at most `MaxStrDigits` digits (underscores are not counted); anything else
   * raises `ValueError`, modelled as `None`.
   */
  function ParseInt(text: string): Option<int> {
    ParseSigned(Strip(text))
  }

  /** An optional sign, then a numeral. */
  function ParseSigned(t: string): Option<int> {
    if |t| > 0 && t[0] == '-' then
      match ParseNumeral(t[1..])
      case None => None
      case Some(v) => Some(-v)
    else if |t| > 0 && t[0] == '+' then ParseNumeral(t[1..])
    else ParseNumeral(t)
  }

  function ParseNumeral(body: string): Option<int> {
    if Numeral(body) && |DropUnderscores(body)| <= MaxStrDigits then Some(NumeralValue(body)) else None
  }

  /** A non-empty run of at most `MaxStrDigits` digits is a numeral with that value. */
  lemma ParseNumeralDigits(d: string)
    requires d != [] && AllDigits(d) && |d| <= MaxStrDigits
    ensures ParseNumeral(d) == Some(DigitsValue(d) as int)
  {
    AllDigitsRun(d);
    assert DropUnderscores(d) == d;
  }

  lemma StripKeepsDigits(s: string)
    requires s != [] && IsDigit(s[0]) && IsDigit(s[|s| - 1])
    ensures Strip(s) == s
  {
    assert !IsSpace(s[0]);
    assert TrimLeft(s) == s;
    assert !IsSpace(s[|s| - 1]);
  }

  /** A non-empty run of at most `MaxStrDigits` digits parses to its value. */
  lemma ParseDigits(d: string)
    requires d != [] && AllDigits(d) && |d| <= MaxStrDigits
    ensures ParseInt(d) == Some(DigitsValue(d) as int)
  {
    StripKeepsDigits(d);
    assert IsDigit(d[0]);
    assert ParseSigned(d) == ParseNumeral(d);
    ParseNumeralDigits(d);
  }

  /** Printing a natural number of at most `MaxStrDigits` digits and parsing it back yields the number. */
  lemma ParseNatToString(n: nat)
    requires |NatToString(n)| <= MaxStrDigits
    ensures ParseInt(NatToString(n)) == Some(n)
  {
    ParseDigits(NatToString(n));
    DigitsValueOfNat(n);
  }

  /** A run of more than `MaxStrDigits` digits does not parse, whatever its value. */
  lemma LongDigitsRejected(d: string)
    requires AllDigits(d) && |d| > MaxStrDigits
    ensures ParseInt(d) == None
  {
    StripKeepsDigits(d);
    assert IsDigit(d[0]);
    assert ParseSigned(d) == ParseNumeral(d);
    AllDigitsRun(d);
    assert DropUnderscores(d) == d;
  }

  /** `str(n)` reads back as `n` exactly when it has at most `MaxStrDigits` digits. */
  lemma ParseNatToStringLimit(n: nat)
    ensures ParseInt(NatToString(n)) == if |NatToString(n)| <= MaxStrDigits then Some(n) else None
  {
    if |NatToString(n)| <= MaxStrDigits {
      ParseNatToString(n);
    } else {
      LongDigitsRejected(NatToString(n));
    }
  }

  /** Different natural numbers print differently, however long they are. */
  lemma NatToStringInjective(a: nat, b: nat)
    ensures NatToString(a) == NatToString(b) ==> a == b
  {
    DigitsValueOfNat(a);
    DigitsValueOfNat(b);
  }

  /** Python's `str.isascii`. */
  predicate IsAscii(s: string) {
    forall i :: 0 <= i < |s| ==> s[i] as int < 128
  }
}
