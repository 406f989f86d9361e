/**
 * The parts of Python's `str` that the bot relies on: whitespace as
 * `str.isspace()` and the regular expression `\s` see it, `strip`, `lower`,
 * `upper`, `replace`, `find`, `rfind`, `split` and `join`, plus integer
 * rendering with `{:,}` thousands grouping and `int()` parsing.
 * Case mapping is ASCII only.
 */
module Text {
  import opened Wrappers

  /** The characters Python's `str.isspace()` accepts. */
  predicate IsSpace(c: char) {
    || c == ' '
    || '\t' <= c <= '\r'
    || '\U{1c}' <= c <= '\U{1f}'
    || c == '\U{85}'
    || c == '\U{a0}'
    || c == '\U{1680}'
    || '\U{2000}' <= c <= '\U{200a}'
    || c == '\U{2028}'
    || c == '\U{2029}'
    || c == '\U{202f}'
    || c == '\U{205f}'
    || c == '\U{3000}'
  }

  predicate IsDigit(c: char) {
    '0' <= c <= '9'
  }

  predicate IsUpperAscii(c: char) {
    'A' <= c <= 'Z'
  }

  predicate IsLowerAscii(c: char) {
    'a' <= c <= 'z'
  }

  function LowerChar(c: char): char {
    if IsUpperAscii(c) then (c as int + 32) as char else c
  }

  function UpperChar(c: char): char {
    if IsLowerAscii(c) then (c as int - 32) as char else c
  }

  /** `s.lower()` */
  function Lower(s: string): (r: string)
    ensures |r| == |s|
    ensures forall i :: 0 <= i < |s| ==> r[i] == LowerChar(s[i])
  {
    seq(|s|, i requires 0 <= i < |s| => LowerChar(s[i]))
  }

  /** `s.upper()` */
  function Upper(s: string): (r: string)
    ensures |r| == |s|
    ensures forall i :: 0 <= i < |s| ==> r[i] == UpperChar(s[i])
  {
    seq(|s|, i requires 0 <= i < |s| => UpperChar(s[i]))
  }

  /** `s.lstrip()` */
  function LStrip(s: string): (r: string)
    ensures |r| <= |s|
    ensures r == s[|s| - |r|..]
    ensures r != [] ==> !IsSpace(r[0])
    ensures forall i :: 0 <= i < |s| - |r| ==> IsSpace(s[i])
    ensures s != [] && IsSpace(s[0]) ==> |r| < |s|
  {
    if s != [] && IsSpace(s[0]) then LStrip(s[1..]) else s
  }

  /** `s.rstrip()` */
  function RStrip(s: string): (r: string)
    ensures |r| <= |s|
    ensures r == s[..|r|]
    ensures r != [] ==> !IsSpace(r[|r| - 1])
    ensures forall i :: |r| <= i < |s| ==> IsSpace(s[i])
  {
    if s != [] && IsSpace(s[|s| - 1]) then RStrip(s[..|s| - 1]) else s
  }

  /** `s.strip()` */
  function Strip(s: string): (r: string)
    ensures |r| <= |s|
    ensures r != [] ==> !IsSpace(r[0]) && !IsSpace(r[|r| - 1])
  {
    RStrip(LStrip(s))
  }

  /** Text without whitespace at either end is its own strip. */
  lemma StripUnpadded(s: string)
    requires s != [] && !IsSpace(s[0]) && !IsSpace(s[|s| - 1])
    ensures Strip(s) == s
  {
  }

  /** Stripping twice is stripping once. */
  lemma StripIdempotent(s: string)
    ensures Strip(Strip(s)) == Strip(s)
  {
    var t := Strip(s);
    if t != [] {
      StripUnpadded(t);
    }
  }

  /** `s.replace(pat, rep)`: leftmost occurrences, no overlaps. */
  function Replace(s: string, pat: string, rep: string): string
    requires pat != []
    decreases |s|
  {
    if |s| < |pat| then s
    else if s[..|pat|] == pat then rep + Replace(s[|pat|..], pat, rep)
    else [s[0]] + Replace(s[1..], pat, rep)
  }

  /** Replacing a pattern whose first character never occurs changes nothing. */
  lemma {:induction false} ReplaceAbsent(s: string, pat: string, rep: string)
    requires pat != [] && pat[0] !in s
    ensures Replace(s, pat, rep) == s
    decreases |s|
  {
    if |s| >= |pat| {
      assert s[..|pat|][0] == s[0];
      ReplaceAbsent(s[1..], pat, rep);
    }
  }

  /** A prefix free of the pattern's first character passes through unchanged. */
  lemma {:induction false} ReplaceAfter(a: string, b: string, pat: string, rep: string)
    requires pat != [] && pat[0] !in a
    ensures Replace(a + b, pat, rep) == a + Replace(b, pat, rep)
    decreases |a|
  {
    if a != [] {
      var s := a + b;
      assert s[1..] == a[1..] + b;
      assert a == [a[0]] + a[1..];
      ReplaceAfter(a[1..], b, pat, rep);
      assert a[0] in a;
      if |s| >= |pat| {
        assert s[..|pat|][0] == a[0] != pat[0];
        assert Replace(s, pat, rep) == [a[0]] + Replace(s[1..], pat, rep);
        assert [a[0]] + (a[1..] + Replace(b, pat, rep)) == a + Replace(b, pat, rep);
      } else {
        assert Replace(b, pat, rep) == b;
        assert Replace(s, pat, rep) == s;
      }
    } else {
      assert a + b == b;
    }
  }

  lemma ReplaceWhole(pat: string, rep: string)
    requires pat != []
    ensures Replace(pat, pat, rep) == rep
  {
    assert pat[..|pat|] == pat;
    assert pat[|pat|..] == [];
  }

  predicate AllDigits(s: string) {
    forall i :: 0 <= i < |s| ==> IsDigit(s[i])
  }

  /** Ten to the power `n`. */
  function Pow10(n: nat): (p: nat)
    ensures p >= 1
  {
    if n == 0 then 1 else 10 * Pow10(n - 1)
  }

  /** Appending digits shifts the value left by their count. */
  lemma {:induction false} DigitsValueAppend(a: string, b: string)
    requires AllDigits(a) && AllDigits(b)
    ensures DigitsValue(a + b) == DigitsValue(a) * Pow10(|b|) + DigitsValue(b)
    decreases |b|
  {
    if b == [] {
      assert a + b == a;
    } else {
      var n := |b| - 1;
      var d := DigitValue(b[n]);
      assert (a + b)[..|a + b| - 1] == a + b[..n];
      DigitsValueAppend(a, b[..n]);
      var x, y, p := DigitsValue(a), DigitsValue(b[..n]), Pow10(n);
      assert (a + b)[|a + b| - 1] == b[n];
      assert DigitsValue(a + b) == 10 * (x * p + y) + d;
      assert b[..|b| - 1] == b[..n];
      assert DigitsValue(b) == 10 * y + d;
      assert Pow10(|b|) == 10 * p;
      TimesTenRegroup(x, p);
      assert DigitsValue(a + b) == x * Pow10(|b|) + DigitsValue(b);
    }
  }

  /** Multiplying a product by ten is multiplying one of its factors by ten. */
  lemma TimesTenRegroup(x: int, p: int)
    ensures 10 * (x * p) == x * (10 * p)
  {
  }

  lemma {:induction false} DigitsOnlyAppend(a: string, b: string)
    ensures DigitsOnly(a + b) == DigitsOnly(a) + DigitsOnly(b)
    decreases |a|
  {
    if a == [] {
      assert a + b == b;
    } else {
      assert (a + b)[1..] == a[1..] + b;
      DigitsOnlyAppend(a[1..], b);
    }
  }

  lemma DigitsOnlyOfDigits(s: string)
    requires AllDigits(s)
    ensures DigitsOnly(s) == s
  {
  }

  lemma LowerOfNonUpper(s: string)
    requires forall i :: 0 <= i < |s| ==> !IsUpperAscii(s[i])
    ensures Lower(s) == s
  {
  }

  /** Removing every occurrence of one character, `s.replace(c, "")`. */
  function Without(s: string, c: char): (r: string)
    ensures c !in r
    ensures forall x :: x in r ==> x in s
    ensures |r| <= |s|
  {
    if s == [] then []
    else if s[0] == c then Without(s[1..], c)
    else [s[0]] + Without(s[1..], c)
  }

  lemma {:induction false} ReplaceCharIsWithout(s: string, c: char)
    ensures Replace(s, [c], "") == Without(s, c)
  {
    if s != [] {
      ReplaceCharIsWithout(s[1..], c);
    }
  }

  function StartsWith(s: string, p: string): bool {
    |p| <= |s| && s[..|p|] == p
  }

  function EndsWith(s: string, p: string): bool {
    |p| <= |s| && s[|s| - |p|..] == p
  }

  /** Python's `p in s` on strings. */
  predicate IsSubstring(p: string, s: string)
    decreases |s|
  {
    StartsWith(s, p) || (s != [] && IsSubstring(p, s[1..]))
  }

  /** `s.find(c)` for one character: the first index of `c`, or -1. */
  function FindChar(s: string, c: char): (r: int)
    ensures -1 <= r < |s|
    ensures r == -1 <==> c !in s
    ensures r >= 0 ==> s[r] == c && c !in s[..r]
  {
    if s == [] then -1
    else if s[0] == c then 0
    else var k := FindChar(s[1..], c); if k == -1 then -1 else k + 1
  }

  /** A character seen before index `e` is found before `e`. */
  lemma {:induction false} FindCharBefore(s: string, c: char, e: nat)
    requires e <= |s| && c in s[..e]
    ensures 0 <= FindChar(s, c) < e
  {
    if s[0] != c {
      assert s[..e] == [s[0]] + s[1..][..e - 1];
      FindCharBefore(s[1..], c, e - 1);
    }
  }

  /** `s.rfind(c)` for one character: the last index of `c`, or -1. */
  function RFindChar(s: string, c: char): (r: int)
    ensures -1 <= r < |s|
    ensures r == -1 <==> c !in s
    ensures r >= 0 ==> s[r] == c && c !in s[r + 1..]
  {
    if s == [] then -1
    else if s[|s| - 1] == c then |s| - 1
    else RFindChar(s[..|s| - 1], c)
  }

  /** The longest prefix of `s` without whitespace. */
  function TakeWord(s: string): (w: string)
    ensures |w| <= |s|
    ensures w == s[..|w|]
    ensures forall i :: 0 <= i < |w| ==> !IsSpace(w[i])
    ensures |w| < |s| ==> IsSpace(s[|w|])
  {
    if s == [] || IsSpace(s[0]) then [] else [s[0]] + TakeWord(s[1..])
  }

  /** `s.split()`: the maximal runs of non-whitespace characters. */
  function Split(s: string): seq<string>
    decreases |s|
  {
    var t := LStrip(s);
    if t == [] then []
    else
      var w := TakeWord(t);
      assert !IsSpace(t[0]) && w != [];
      [w] + Split(t[|w|..])
  }

  /** `sep.join(parts)` */
  function Join(sep: string, parts: seq<string>): string {
    if parts == [] then []
    else if |parts| == 1 then parts[0]
    else parts[0] + sep + Join(sep, parts[1..])
  }

  /** Joining a part in front of a non-empty list. */
  lemma JoinCons(sep: string, a: string, rest: seq<string>)
    requires rest != []
    ensures Join(sep, [a] + rest) == a + sep + Join(sep, rest)
  {
    assert ([a] + rest)[1..] == rest;
  }

  /** A join of non-empty parts is empty only when there are no parts. */
  lemma {:induction false} JoinEmpty(sep: string, parts: seq<string>)
    requires forall i :: 0 <= i < |parts| ==> parts[i] != []
    ensures Join(sep, parts) == [] <==> parts == []
  {
    if |parts| > 1 {
      JoinEmpty(sep, parts[1..]);
    }
  }

  function DigitChar(d: nat): char
    requires d < 10
  {
    ('0' as int + d) as char
  }

  function DigitValue(c: char): nat
    requires IsDigit(c)
  {
    c as int - '0' as int
  }

  /** `str(n)` for a natural number. */
  function NatToString(n: nat): (s: string)
    ensures s != []
    ensures forall i :: 0 <= i < |s| ==> IsDigit(s[i])
  {
    if n < 10 then [DigitChar(n)] else NatToString(n / 10) + [DigitChar(n % 10)]
  }

  /** `str(i)` for an integer. */
  function IntToString(i: int): string {
    if i < 0 then "-" + NatToString(-i) else NatToString(i)
  }

  /** `str` tells integers apart. */
  lemma IntToStringInjective(a: int, b: int)
    requires IntToString(a) == IntToString(b)
    ensures a == b
  {
    if a < 0 && b < 0 {
      assert NatToString(-a) == IntToString(a)[1..] == NatToString(-b);
      NatToStringValue(-a);
      NatToStringValue(-b);
    } else if a >= 0 && b >= 0 {
      NatToStringValue(a);
      NatToStringValue(b);
    } else {
      SignShown(a, b);
      assert false;
    }
  }

  /** A negative and a non-negative integer print differently: only one starts with "-". */
  lemma SignShown(a: int, b: int)
    requires (a < 0) != (b < 0)
    ensures IntToString(a) != IntToString(b)
  {
    var neg, pos := if a < 0 then a else b, if a < 0 then b else a;
    assert IntToString(neg)[0] == '-' && IsDigit(IntToString(pos)[0]);
  }

  /** The decimal value of a digit string; `int(ds)` for non-empty `ds`. */
  function DigitsValue(ds: string): (v: nat)
    requires forall i :: 0 <= i < |ds| ==> IsDigit(ds[i])
  {
    if ds == [] then 0 else 10 * DigitsValue(ds[..|ds| - 1]) + DigitValue(ds[|ds| - 1])
  }

  /** The digits of `s`, in order: `re.sub(r"[^\d]", "", s)` (ASCII digits). */
  function DigitsOnly(s: string): (r: string)
    ensures forall i :: 0 <= i < |r| ==> IsDigit(r[i])
    ensures |r| <= |s|
  {
    if s == [] then []
    else if IsDigit(s[0]) then [s[0]] + DigitsOnly(s[1..])
    else DigitsOnly(s[1..])
  }

  /** Three digits, zero padded, for `n < 1000`. */
  function Pad3(n: nat): (s: string)
    requires n < 1000
    ensures |s| == 3 && AllDigits(s)
    ensures DigitsValue(s) == n
  {
    var s := [DigitChar(n / 100), DigitChar(n / 10 % 10), DigitChar(n % 10)];
    assert s[..2][..1] == [s[0]] && s[..2] == [s[0], s[1]] && [s[0]][..0] == [];
    assert DigitsValue([s[0]]) == n / 100;
    assert DigitsValue(s[..2]) == 10 * (n / 100) + n / 10 % 10;
    assert n == 100 * (n / 100) + 10 * (n / 10 % 10) + n % 10;
    s
  }

  /** `f"{n:,}"` with the comma replaced by `sep`, for a natural number. */
  function GroupNat(n: nat, sep: string): (r: string)
    ensures r != [] && IsDigit(r[|r| - 1])
    ensures forall i :: 0 <= i < |r| ==> IsDigit(r[i]) || r[i] in sep
  {
    if n < 1000 then NatToString(n) else GroupNat(n / 1000, sep) + sep + Pad3(n % 1000)
  }

  /** `str(n)` reads back as `n`. */
  lemma {:induction false} NatToStringValue(n: nat)
    ensures DigitsValue(NatToString(n)) == n
  {
    if n >= 10 {
      var s := NatToString(n);
      assert s[..|s| - 1] == NatToString(n / 10);
      NatToStringValue(n / 10);
    }
  }

  /** The digits of a grouped number read back as the number, whatever the separator. */
  lemma {:induction false} GroupedValue(n: nat, sep: string)
    requires forall i :: 0 <= i < |sep| ==> !IsDigit(sep[i])
    ensures DigitsValue(DigitsOnly(GroupNat(n, sep))) == n
  {
    if n < 1000 {
      DigitsOnlyOfDigits(NatToString(n));
      NatToStringValue(n);
    } else {
      var hi := GroupNat(n / 1000, sep);
      var lo := Pad3(n % 1000);
      assert GroupNat(n, sep) == hi + (sep + lo);
      DigitsOnlyAppend(hi, sep + lo);
      DigitsOnlyAppend(sep, lo);
      NoDigits(sep);
      DigitsOnlyOfDigits(lo);
      assert DigitsOnly(sep + lo) == lo;
      GroupedValue(n / 1000, sep);
      DigitsValueAppend(DigitsOnly(hi), lo);
      assert Pow10(|lo|) == 1000;
      assert DigitsValue(DigitsOnly(hi) + lo) == (n / 1000) * 1000 + n % 1000;
    }
  }

  lemma {:induction false} NoDigits(s: string)
    requires forall i :: 0 <= i < |s| ==> !IsDigit(s[i])
    ensures DigitsOnly(s) == []
  {
    if s != [] {
      NoDigits(s[1..]);
    }
  }

  lemma LowerAppend(a: string, b: string)
    ensures Lower(a + b) == Lower(a) + Lower(b)
  {
  }

  /** Deleting a non-digit does not change the digits. */
  lemma {:induction false} DigitsOnlyWithout(s: string, c: char)
    requires !IsDigit(c)
    ensures DigitsOnly(Without(s, c)) == DigitsOnly(s)
  {
    if s != [] {
      DigitsOnlyWithout(s[1..], c);
      if s[0] != c {
        assert Without(s, c) == [s[0]] + Without(s[1..], c);
        assert ([s[0]] + Without(s[1..], c))[1..] == Without(s[1..], c);
      }
    }
  }

  /** `f"{i:,}"` with the comma replaced by `sep`. */
  function Group(i: int, sep: string): string {
    if i < 0 then "-" + GroupNat(-i, sep) else GroupNat(i, sep)
  }

  /**
   * `g` is `n` written with `sep` between thousands: without the separators
   * it is `str(n)`, and a separator stands exactly where a multiple of four
   * characters remain to the end, so after every three digits counted from
   * the right.
   */
  predicate ThousandsGrouped(g: string, sep: char, n: nat) {
    && Without(g, sep) == NatToString(n)
    && forall i :: 0 <= i < |g| ==> (g[i] == sep <==> (|g| - i) % 4 == 0)
  }

  /** `g` is the integer `i` grouped by `sep`, with a leading "-" when it is negative. */
  predicate SignedGrouped(g: string, sep: char, i: int) {
    if i < 0 then g != [] && g[0] == '-' && ThousandsGrouped(g[1..], sep, -i)
    else ThousandsGrouped(g, sep, i)
  }

  /** Grouping puts the separators every three digits from the right and keeps the digits of `str(i)`. */
  lemma GroupPlacement(i: int, sep: char)
    requires !IsDigit(sep) && sep != '-'
    ensures SignedGrouped(Group(i, [sep]), sep, i)
    ensures Without(Group(i, [sep]), sep) == IntToString(i)
  {
    if i < 0 {
      var g := GroupNat(-i, [sep]);
      GroupNatPlacement(-i, sep);
      assert ("-" + g)[1..] == g;
      WithoutAppend("-", g, sep);
    } else {
      GroupNatPlacement(i, sep);
    }
  }

  lemma {:induction false} GroupNatPlacement(n: nat, sep: char)
    requires !IsDigit(sep)
    ensures ThousandsGrouped(GroupNat(n, [sep]), sep, n)
    decreases n
  {
    var g := GroupNat(n, [sep]);
    if n < 1000 {
      NatToStringShort(n);
      WithoutAbsent(g, sep);
    } else {
      var hi := GroupNat(n / 1000, [sep]);
      var lo := Pad3(n % 1000);
      GroupNatPlacement(n / 1000, sep);
      NatToStringSplit(n);
      GroupedSnoc(hi, sep, lo, n / 1000, n % 1000, n);
      assert g == hi + ([sep] + lo);
    }
  }

  /** One more separator and three digits extend a grouping by a thousand times. */
  lemma GroupedSnoc(hi: string, sep: char, lo: string, a: nat, m: nat, n: nat)
    requires !IsDigit(sep) && m < 1000 && lo == Pad3(m)
    requires ThousandsGrouped(hi, sep, a)
    requires NatToString(n) == NatToString(a) + lo
    ensures ThousandsGrouped(hi + ([sep] + lo), sep, n)
  {
    SeparatorDropped(hi, sep, lo);
    SeparatorPlaced(hi, sep, lo);
  }

  lemma SeparatorDropped(hi: string, sep: char, lo: string)
    requires sep !in lo
    ensures Without(hi + ([sep] + lo), sep) == Without(hi, sep) + lo
  {
    WithoutAppend(hi, [sep] + lo, sep);
    WithoutAppend([sep], lo, sep);
    WithoutAbsent(lo, sep);
    assert Without([sep], sep) == [];
  }

  lemma SeparatorPlaced(hi: string, sep: char, lo: string)
    requires |lo| == 3 && sep !in lo
    requires forall k :: 0 <= k < |hi| ==> (hi[k] == sep <==> (|hi| - k) % 4 == 0)
    ensures forall k :: 0 <= k < |hi + ([sep] + lo)| ==> ((hi + ([sep] + lo))[k] == sep <==> (|hi + ([sep] + lo)| - k) % 4 == 0)
  {
    var g := hi + ([sep] + lo);
    forall k | 0 <= k < |g|
      ensures g[k] == sep <==> (|g| - k) % 4 == 0
    {
      if k < |hi| {
        assert g[k] == hi[k];
        assert |g| - k == (|hi| - k) + 4;
      } else if k > |hi| {
        assert g[k] == lo[k - |hi| - 1];
      }
    }
  }

  lemma NatToStringShort(n: nat)
    requires n < 1000
    ensures |NatToString(n)| <= 3
  {
    if n >= 10 {
      NatToStringShort(n / 10);
    }
  }

  /** `str(n)` is `str(n // 1000)` followed by the last three digits. */
  lemma NatToStringSplit(n: nat)
    requires n >= 1000
    ensures NatToString(n) == NatToString(n / 1000) + Pad3(n % 1000)
  {
    ThousandDigits(n);
    assert NatToString(n / 10 / 10) == NatToString(n / 1000) + [DigitChar(n % 1000 / 100)];
  }

  /** The three last decimal digits of `n`, peeled one at a time. */
  lemma ThousandDigits(n: nat)
    ensures n / 10 / 10 / 10 == n / 1000
    ensures n / 10 / 10 % 10 == n % 1000 / 100
    ensures n / 10 % 10 == n % 1000 / 10 % 10
    ensures n % 10 == n % 1000 % 10
  {
    var a, m := n / 1000, n % 1000;
    var x, y, z := m / 100, m / 10 % 10, m % 10;
    assert n == 10 * (100 * a + 10 * x + y) + z;
    assert n / 10 == 100 * a + 10 * x + y && n % 10 == z;
    assert n / 10 / 10 == 10 * a + x && n / 10 % 10 == y;
  }

  lemma {:induction false} WithoutAppend(a: string, b: string, c: char)
    ensures Without(a + b, c) == Without(a, c) + Without(b, c)
    decreases |a|
  {
    if a == [] {
      assert a + b == b;
    } else {
      assert (a + b)[0] == a[0] && (a + b)[1..] == a[1..] + b;
      WithoutAppend(a[1..], b, c);
    }
  }

  lemma {:induction false} WithoutAbsent(s: string, c: char)
    requires c !in s
    ensures Without(s, c) == s
    decreases |s|
  {
    if s != [] {
      assert c !in s[1..];
      WithoutAbsent(s[1..], c);
    }
  }

  /**
   * `int(s)` for a string: surrounding whitespace, an optional sign, and
   * decimal digits with single underscores between them; None where Python
   * raises ValueError.
   */
  function PyInt(s: string): (r: Option<int>)
    ensures r.Some? ==> Strip(s) != []
  {
    var t := Strip(s);
    if t == [] then None
    else
      var neg := t[0] == '-';
      var body := if t[0] == '-' || t[0] == '+' then t[1..] else t;
      if !UnderscoredDigits(body) then None
      else
        var v: int := DigitsValue(DigitsOnly(body));
        Some(if neg then -v else v)
  }

  /** Digits with single `_` between digit groups, as `int()` accepts. */
  predicate UnderscoredDigits(s: string)
  {
    && s != []
    && IsDigit(s[0])
    && IsDigit(s[|s| - 1])
    && (forall i :: 0 <= i < |s| ==> IsDigit(s[i]) || s[i] == '_')
    && (forall i :: 0 <= i < |s| - 1 ==> !(s[i] == '_' && s[i + 1] == '_'))
  }
}
