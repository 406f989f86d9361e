/**
 * The bot's text utilities (app/utils/helpers.py): money formatting, the
 * user-facing amount parser, message sanitising and truncation to the
 * Telegram length limit.
 */
module Helpers {
  import opened Text
  import LlmParser

  // ---------------------------------------------------------------------
  // format_currency

  /**
   * `format_currency`: rupiah as "Rp " and the amount with `.` between
   * thousands (the `{:,}` commas replaced by dots); any other currency as
   * its code, the amount with `,` between thousands, and two decimals.
   */
  function FormatCurrency(amount: int, currency: string): (r: string)
    ensures currency == "IDR" ==>
      && |r| > 3 && r[..3] == "Rp "
      && SignedGrouped(r[3..], '.', amount)
      && Without(r[3..], '.') == IntToString(amount)
    ensures currency != "IDR" ==>
      && |r| > |currency| + 4 && r[..|currency| + 1] == currency + " " && r[|r| - 3..] == ".00"
      && SignedGrouped(r[|currency| + 1..|r| - 3], ',', amount)
      && Without(r[|currency| + 1..|r| - 3], ',') == IntToString(amount)
  {
    if currency == "IDR" then
      var g := Group(amount, ".");
      GroupPlacement(amount, '.');
      assert ("Rp " + g)[3..] == g;
      "Rp " + g
    else
      var g := Group(amount, ",");
      GroupPlacement(amount, ',');
      var r := currency + " " + g + ".00";
      assert r[|currency| + 1..|r| - 3] == g;
      r
  }

  // ---------------------------------------------------------------------
  // parse_amount_text

  /** Dots, commas and spaces removed, in that order. */
  function DropSeparators(s: string): string {
    Replace(Replace(Replace(s, ".", ""), ",", ""), " ", "")
  }

  /** The unit words, with `k` as a thousand after the others. */
  function ExpandUnits(s: string): string {
    Replace(Replace(Replace(Replace(Replace(s, "jt", "000000"), "juta", "000000"), "rb", "000"), "ribu", "000"), "k", "000")
  }

  /** `parse_amount_text`: never fails; empty text is 0. */
  function ParseAmountText(text: string): (n: nat)
    ensures text == [] ==> n == 0
  {
    if text == [] then 0
    else DigitsValue(DigitsOnly(ExpandUnits(DropSeparators(Strip(Lower(text))))))
  }

  /** Digits followed by a lower-case suffix pass lower-casing, stripping and separator removal unchanged. */
  lemma PlainSuffix(d: string, suffix: string)
    requires AllDigits(d) && d + suffix != []
    requires suffix != [] ==> IsLowerAscii(suffix[|suffix| - 1])
    requires d != [] && suffix == [] ==> IsDigit(d[|d| - 1])
    requires forall i :: 0 <= i < |suffix| ==> IsLowerAscii(suffix[i])
    ensures DropSeparators(Strip(Lower(d + suffix))) == d + suffix
  {
    PlainChars(d, suffix);
    PlainUnchanged(d + suffix);
  }

  /** Digits and lower-case letters only. */
  predicate PlainText(x: string) {
    forall i :: 0 <= i < |x| ==> IsDigit(x[i]) || IsLowerAscii(x[i])
  }

  /** Plain text passes lower-casing, stripping and separator removal unchanged. */
  lemma PlainUnchanged(x: string)
    requires x != [] && PlainText(x)
    ensures DropSeparators(Strip(Lower(x))) == x
  {
    LowerOfNonUpper(x);
    StripUnpadded(x);
    PlainNoSeparators(x);
  }

  lemma PlainNoSeparators(x: string)
    requires PlainText(x)
    ensures DropSeparators(x) == x
  {
    assert '.' !in x && ',' !in x && ' ' !in x;
    ReplaceAbsent(x, ".", "");
    ReplaceAbsent(x, ",", "");
    ReplaceAbsent(x, " ", "");
    DropSeparatorsSteps(x, x, x, x);
  }

  /** Every character of digits followed by a lower-case suffix is a digit or a lower-case letter. */
  lemma PlainChars(d: string, suffix: string)
    requires AllDigits(d)
    requires forall i :: 0 <= i < |suffix| ==> IsLowerAscii(suffix[i])
    ensures PlainText(d + suffix)
  {
    forall i | 0 <= i < |d + suffix|
      ensures IsDigit((d + suffix)[i]) || IsLowerAscii((d + suffix)[i])
    {
      if i >= |d| { assert (d + suffix)[i] == suffix[i - |d|]; }
    }
  }

  lemma UnitsK(d: string)
    requires AllDigits(d)
    ensures ExpandUnits(d + "k") == d + "000"
  {
    var x := d + "k";
    ReplaceAbsent(x, "jt", "000000");
    ReplaceAbsent(x, "juta", "000000");
    ReplaceAbsent(x, "rb", "000");
    ReplaceAbsent(x, "ribu", "000");
    ReplaceAfter(d, "k", "k", "000");
    ReplaceWhole("k", "000");
  }

  lemma UnitsRb(d: string)
    requires AllDigits(d)
    ensures ExpandUnits(d + "rb") == d + "000"
  {
    ReplaceAbsent(d + "rb", "jt", "000000");
    ReplaceAbsent(d + "rb", "juta", "000000");
    ReplaceAfter(d, "rb", "rb", "000");
    ReplaceWhole("rb", "000");
    ReplaceAbsent(d + "000", "ribu", "000");
    ReplaceAbsent(d + "000", "k", "000");
  }

  lemma UnitsJt(d: string)
    requires AllDigits(d)
    ensures ExpandUnits(d + "jt") == d + "000000"
  {
    JtReplaced(d);
    ZerosUntouched(d + "000000");
    ExpandUnitsSteps(d + "jt", d + "000000", d + "000000");
  }

  lemma JtReplaced(d: string)
    requires AllDigits(d)
    ensures Replace(d + "jt", "jt", "000000") == d + "000000"
  {
    ReplaceAfter(d, "jt", "jt", "000000");
    ReplaceWhole("jt", "000000");
  }

  /** Digits pass the unit replacements after the first unchanged. */
  lemma ZerosUntouched(m: string)
    requires AllDigits(m)
    ensures Replace(Replace(Replace(Replace(m, "juta", "000000"), "rb", "000"), "ribu", "000"), "k", "000") == m
  {
    ReplaceAbsent(m, "juta", "000000");
    ReplaceAbsent(m, "rb", "000");
    ReplaceAbsent(m, "ribu", "000");
    ReplaceAbsent(m, "k", "000");
  }

  lemma ExpandUnitsSteps(s: string, a: string, b: string)
    requires Replace(s, "jt", "000000") == a
    requires Replace(Replace(Replace(Replace(a, "juta", "000000"), "rb", "000"), "ribu", "000"), "k", "000") == b
    ensures ExpandUnits(s) == b
  {
  }

  lemma DigitsThenZeros(d: string, z: string)
    requires AllDigits(d) && AllDigits(z)
    ensures DigitsOnly(d + z) == d + z
  {
    var x := d + z;
    assert forall i :: 0 <= i < |x| ==> x[i] == if i < |d| then d[i] else z[i - |d|];
    DigitsOnlyOfDigits(x);
  }

  lemma ZeroRuns()
    ensures AllDigits("000") && AllDigits("000000")
  {
  }

  /** Digits with a unit word read as the digits followed by the unit's zeros. */
  lemma Scaled(d: string, suffix: string, z: string)
    requires AllDigits(d) && AllDigits(z) && suffix != []
    requires DropSeparators(Strip(Lower(d + suffix))) == d + suffix
    requires ExpandUnits(d + suffix) == d + z
    ensures ParseAmountText(d + suffix) == DigitsValue(d + z)
  {
    DigitsThenZeros(d, z);
  }

  /** "150k" is 150000 here: `k` counts as a thousand. */
  lemma ThousandsK(d: string)
    requires AllDigits(d)
    ensures ParseAmountText(d + "k") == DigitsValue(d) * 1000
  {
    PlainSuffix(d, "k");
    UnitsK(d);
    ZeroRuns();
    Scaled(d, "k", "000");
    LlmParser.TimesThousand(d);
  }

  /** "25rb" is 25000. */
  lemma ThousandsRb(d: string)
    requires AllDigits(d)
    ensures ParseAmountText(d + "rb") == DigitsValue(d) * 1000
  {
    PlainSuffix(d, "rb");
    UnitsRb(d);
    ZeroRuns();
    Scaled(d, "rb", "000");
    LlmParser.TimesThousand(d);
  }

  /** "5jt" is 5000000. */
  lemma MillionsJt(d: string)
    requires AllDigits(d)
    ensures ParseAmountText(d + "jt") == DigitsValue(d) * 1000000
  {
    PlainSuffix(d, "jt");
    UnitsJt(d);
    ZeroRuns();
    Scaled(d, "jt", "000000");
    LlmParser.TimesMillion(d);
  }

  /**
   * The two amount parsers disagree on `k`: for any digits with a non-zero
   * value, this one reads "<d>k" as a thousand times what the transaction
   * parser reads.
   */
  lemma KSuffixDisagreement(d: string)
    requires AllDigits(d) && DigitsValue(d) > 0
    ensures ParseAmountText(d + "k") == 1000 * LlmParser.SlangAmount(d + "k")
    ensures ParseAmountText(d + "k") != LlmParser.SlangAmount(d + "k")
  {
    ThousandsK(d);
    LlmParser.SlangK(d);
  }

  /**
   * Reading back a formatted rupiah amount gives the amount's magnitude:
   * the reader keeps only digits, so the minus sign of a negative amount is
   * lost.
   */
  lemma FormattedRupiahRoundTrip(amount: int)
    ensures ParseAmountText(FormatCurrency(amount, "IDR")) == if amount < 0 then -amount else amount
  {
    var n: nat := if amount < 0 then -amount else amount;
    var h := GroupNat(n, ".");
    var g := Group(amount, ".");
    assert FormatCurrency(amount, "IDR") == "Rp " + g;
    GroupedValue(n, ".");
    SignedDigits(h, g, amount < 0);
    RupiahText(g);
  }

  /** A leading minus sign adds no digit and no other character. */
  lemma SignedDigits(h: string, g: string, negative: bool)
    requires g == if negative then "-" + h else h
    requires h != [] && IsDigit(h[|h| - 1])
    requires forall i :: 0 <= i < |h| ==> IsDigit(h[i]) || h[i] == '.'
    ensures g != [] && IsDigit(g[|g| - 1]) && RupiahBody(g)
    ensures DigitsOnly(g) == DigitsOnly(h)
  {
    if negative {
      DigitsOnlyAppend("-", h);
      NoDigits("-");
      assert forall i :: 1 <= i < |g| ==> g[i] == h[i - 1];
    }
  }

  /** The characters of a formatted amount: digits, dots and a minus sign. */
  predicate RupiahBody(g: string) {
    forall i :: 0 <= i < |g| ==> IsDigit(g[i]) || g[i] == '.' || g[i] == '-'
  }

  /** Digits and minus signs. */
  predicate Numeral(w: string) {
    forall i :: 0 <= i < |w| ==> IsDigit(w[i]) || w[i] == '-'
  }

  /** "Rp " before digits grouped by dots, with or without a minus sign, reads back as the digits' value. */
  lemma RupiahText(g: string)
    requires g != [] && IsDigit(g[|g| - 1])
    requires RupiahBody(g)
    ensures ParseAmountText("Rp " + g) == DigitsValue(DigitsOnly(g))
  {
    var st, ds := RupiahSteps(g);
    ParseSteps("Rp " + g, Lower("Rp " + g), st, ds, ds, DigitsOnly(g));
  }

  /** The intermediate texts of `parse_amount_text` on "Rp " and dot-grouped digits. */
  lemma RupiahSteps(g: string) returns (st: string, ds: string)
    requires g != [] && IsDigit(g[|g| - 1])
    requires RupiahBody(g)
    ensures Strip(Lower("Rp " + g)) == st
    ensures DropSeparators(st) == ds
    ensures ExpandUnits(ds) == ds
    ensures DigitsOnly(ds) == DigitsOnly(g)
  {
    st := "rp " + g;
    ds := "rp" + Without(g, '.');
    LowerStripRp(g);
    RupiahSeparators(g);
    RupiahDigits(g);
  }

  lemma LowerStripRp(g: string)
    requires g != [] && IsDigit(g[|g| - 1])
    requires RupiahBody(g)
    ensures Strip(Lower("Rp " + g)) == "rp " + g
  {
    RupiahLower(g);
    StripRp(g);
  }

  /** The unit words leave "rp" and the digits alone, and then only the digits are kept. */
  lemma RupiahDigits(g: string)
    requires RupiahBody(g)
    ensures ExpandUnits("rp" + Without(g, '.')) == "rp" + Without(g, '.')
    ensures DigitsOnly("rp" + Without(g, '.')) == DigitsOnly(g)
  {
    var w := Without(g, '.');
    WithoutDots(g);
    RupiahUnits(w);
    RpDigits(w);
    DigitsOnlyWithout(g, '.');
  }

  /** `parse_amount_text` as its pipeline of steps. */
  lemma ParseSteps(text: string, lo: string, st: string, ds: string, ex: string, dg: string)
    requires text != [] && Lower(text) == lo && Strip(lo) == st && DropSeparators(st) == ds
    requires ExpandUnits(ds) == ex && DigitsOnly(ex) == dg
    ensures ParseAmountText(text) == DigitsValue(dg)
  {
  }

  lemma StripRp(g: string)
    requires g != [] && IsDigit(g[|g| - 1])
    ensures Strip("rp " + g) == "rp " + g
  {
    var y := "rp " + g;
    assert y[0] == 'r' && y[|y| - 1] == g[|g| - 1];
    StripUnpadded(y);
  }

  lemma RupiahLower(g: string)
    requires RupiahBody(g)
    ensures Lower("Rp " + g) == "rp " + g
  {
    LowerAppend("Rp ", g);
    LowerOfNonUpper(g);
    assert Lower("Rp ") == "rp ";
  }

  lemma RupiahSeparators(g: string)
    requires RupiahBody(g)
    ensures Numeral(Without(g, '.'))
    ensures DropSeparators("rp " + g) == "rp" + Without(g, '.')
  {
    WithoutDots(g);
    RpDotsDropped(g);
    RpSeparatorsAfterDots(g, Without(g, '.'));
  }

  lemma RpDotsDropped(g: string)
    ensures Replace("rp " + g, ".", "") == "rp " + Without(g, '.')
  {
    ReplaceAfter("rp ", g, ".", "");
    ReplaceCharIsWithout(g, '.');
  }

  lemma RpSeparatorsAfterDots(g: string, w: string)
    requires Numeral(w) && Replace("rp " + g, ".", "") == "rp " + w
    ensures DropSeparators("rp " + g) == "rp" + w
  {
    NoCommaAfterRp(w);
    SpaceDropped(w);
    DropSeparatorsSteps("rp " + g, "rp " + w, "rp " + w, "rp" + w);
  }

  lemma WithoutDots(g: string)
    requires RupiahBody(g)
    ensures Numeral(Without(g, '.'))
  {
    var w := Without(g, '.');
    forall i | 0 <= i < |w| ensures IsDigit(w[i]) || w[i] == '-' {
      assert w[i] in w;
    }
  }

  lemma DropSeparatorsSteps(s: string, a: string, b: string, c: string)
    requires Replace(s, ".", "") == a && Replace(a, ",", "") == b && Replace(b, " ", "") == c
    ensures DropSeparators(s) == c
  {
  }

  lemma NoCommaAfterRp(w: string)
    requires Numeral(w)
    ensures Replace("rp " + w, ",", "") == "rp " + w
  {
    var z := "rp " + w;
    assert forall i :: 3 <= i < |z| ==> z[i] == w[i - 3];
    ReplaceAbsent(z, ",", "");
  }

  lemma SpaceDropped(w: string)
    requires Numeral(w)
    ensures Replace("rp " + w, " ", "") == "rp" + w
  {
    assert "rp " + w == "rp" + (" " + w);
    ReplaceAfter("rp", " " + w, " ", "");
    SpaceThenDigits(w);
  }

  lemma RpDigits(w: string)
    requires Numeral(w)
    ensures DigitsOnly("rp" + w) == DigitsOnly(w)
  {
    DigitsOnlyAppend("rp", w);
    NoDigits("rp");
  }

  /** No unit word occurs in "rp" followed by digits and minus signs. */
  lemma RupiahUnits(w: string)
    requires Numeral(w)
    ensures ExpandUnits("rp" + w) == "rp" + w
  {
    var z := "rp" + w;
    ReplaceAbsent(z, "jt", "000000");
    ReplaceAbsent(z, "juta", "000000");
    RpUnchanged(w, "rb", "000");
    RpUnchanged(w, "ribu", "000");
    ReplaceAbsent(z, "k", "000");
  }

  lemma SpaceThenDigits(w: string)
    requires Numeral(w)
    ensures Replace(" " + w, " ", "") == w
  {
    assert (" " + w)[..1] == " " && (" " + w)[1..] == w;
    ReplaceAbsent(w, " ", "");
  }

  /** "rp" followed by digits and minus signs contains no `r`-word: rb and ribu leave it alone. */
  lemma RpUnchanged(w: string, pat: string, rep: string)
    requires Numeral(w) && |pat| >= 2 && pat[0] == 'r' && pat[1] != 'p'
    ensures Replace("rp" + w, pat, rep) == "rp" + w
  {
    var z := "rp" + w;
    assert z[1..] == "p" + w;
    if |z| >= |pat| {
      assert z[..|pat|][1] == 'p';
    }
    ReplaceAbsent("p" + w, pat, rep);
  }

  // ---------------------------------------------------------------------
  // sanitize_text

  /** The characters `[\x00-\x1F\x7F]` that sanitising deletes. */
  predicate IsControl(c: char) {
    c <= '\U{1f}' || c == '\U{7f}'
  }

  function DropControls(s: string): (r: string)
    ensures forall i :: 0 <= i < |r| ==> !IsControl(r[i])
    ensures |r| <= |s|
  {
    if s == [] then []
    else if IsControl(s[0]) then DropControls(s[1..])
    else [s[0]] + DropControls(s[1..])
  }

  /** `re.sub(r"\s+", " ", s)`: every run of whitespace becomes one space. */
  function CollapseSpace(s: string): (r: string)
    ensures forall i :: 0 <= i < |r| ==> IsSpace(r[i]) ==> r[i] == ' '
    ensures forall i :: 0 <= i < |r| - 1 ==> !(IsSpace(r[i]) && IsSpace(r[i + 1]))
    ensures s != [] <==> r != []
    ensures s != [] ==> (IsSpace(r[0]) <==> IsSpace(s[0]))
    decreases |s|
  {
    if s == [] then []
    else
      var c := if IsSpace(s[0]) then ' ' else s[0];
      var rest := if IsSpace(s[0]) then CollapseSpace(LStrip(s)) else CollapseSpace(s[1..]);
      ConsCollapsed(c, rest);
      [c] + rest
  }

  /** One character in front of collapsed text keeps it collapsed, unless both are whitespace. */
  lemma ConsCollapsed(c: char, rest: string)
    requires IsSpace(c) ==> c == ' '
    requires forall i :: 0 <= i < |rest| ==> IsSpace(rest[i]) ==> rest[i] == ' '
    requires forall i :: 0 <= i < |rest| - 1 ==> !(IsSpace(rest[i]) && IsSpace(rest[i + 1]))
    requires rest != [] && IsSpace(c) ==> !IsSpace(rest[0])
    ensures forall i :: 0 <= i < |[c] + rest| ==> IsSpace(([c] + rest)[i]) ==> ([c] + rest)[i] == ' '
    ensures forall i :: 0 <= i < |[c] + rest| - 1 ==> !(IsSpace(([c] + rest)[i]) && IsSpace(([c] + rest)[i + 1]))
  {
    var r := [c] + rest;
    assert forall i :: 1 <= i < |r| ==> r[i] == rest[i - 1];
  }

  /** No control characters. */
  predicate Printable(t: string) {
    forall i :: 0 <= i < |t| ==> !IsControl(t[i])
  }

  lemma PrintableSuffix(s: string, k: nat)
    requires k <= |s| && Printable(s)
    ensures Printable(s[k..])
  {
    assert forall i :: 0 <= i < |s| - k ==> s[k..][i] == s[i + k];
  }

  lemma PrintableCons(c: char, t: string)
    requires !IsControl(c) && Printable(t)
    ensures Printable([c] + t)
  {
    assert forall i :: 1 <= i < |[c] + t| ==> ([c] + t)[i] == t[i - 1];
  }

  /** Collapsing whitespace brings in no control character. */
  lemma {:induction false} CollapsePrintable(s: string)
    requires Printable(s)
    ensures Printable(CollapseSpace(s))
    decreases |s|
  {
    if s != [] {
      var t := if IsSpace(s[0]) then LStrip(s) else s[1..];
      PrintableSuffix(s, |s| - |t|);
      CollapsePrintable(t);
      var c := if IsSpace(s[0]) then ' ' else s[0];
      assert CollapseSpace(s) == [c] + CollapseSpace(t);
      PrintableCons(c, CollapseSpace(t));
    }
  }

  /** Collapsing printable text leaves it spaced. */
  lemma CollapsedSpaced(t: string)
    requires Printable(t)
    ensures Spaced(CollapseSpace(t))
  {
    CollapsePrintable(t);
  }

  /** Printable, with single spaces for whitespace and never two in a row. */
  predicate Spaced(t: string) {
    && (forall i :: 0 <= i < |t| ==> !IsControl(t[i]))
    && (forall i :: 0 <= i < |t| ==> IsSpace(t[i]) ==> t[i] == ' ')
    && (forall i :: 0 <= i < |t| - 1 ==> !(IsSpace(t[i]) && IsSpace(t[i + 1])))
  }

  /** Spaced, and no whitespace at either end: what sanitising produces. */
  predicate Sanitized(t: string) {
    Spaced(t) && (t != [] ==> !IsSpace(t[0]) && !IsSpace(t[|t| - 1]))
  }

  /** `sanitize_text` */
  function SanitizeText(text: string): (r: string)
    ensures Sanitized(r)
  {
    if text == [] then ""
    else
      var c := CollapseSpace(DropControls(text));
      CollapsedSpaced(DropControls(text));
      StripKeepsSpaced(c);
      Strip(c)
  }

  lemma SpacedSlice(t: string, a: nat, b: nat)
    requires a <= b <= |t| && Spaced(t)
    ensures Spaced(t[a..b])
  {
    var u := t[a..b];
    assert forall i :: 0 <= i < |u| ==> u[i] == t[a + i];
  }

  /** Stripping cuts a piece out of the text, so it stays spaced. */
  lemma StripKeepsSpaced(s: string)
    requires Spaced(s)
    ensures Spaced(Strip(s))
  {
    var l := LStrip(s);
    SpacedSlice(s, |s| - |l|, |s|);
    SpacedSlice(l, 0, |RStrip(l)|);
  }

  /** Whitespace-collapsing leaves text that already has only single spaces alone. */
  lemma {:induction false} CollapseFixed(t: string)
    requires forall i :: 0 <= i < |t| ==> IsSpace(t[i]) ==> t[i] == ' '
    requires forall i :: 0 <= i < |t| - 1 ==> !(IsSpace(t[i]) && IsSpace(t[i + 1]))
    ensures CollapseSpace(t) == t
    decreases |t|
  {
    if t != [] {
      if IsSpace(t[0]) {
        assert LStrip(t) == t[1..] by {
          assert t[1..] == [] || !IsSpace(t[1]);
        }
      }
      CollapseFixed(t[1..]);
    }
  }

  lemma {:induction false} DropControlsFixed(t: string)
    requires forall i :: 0 <= i < |t| ==> !IsControl(t[i])
    ensures DropControls(t) == t
  {
    if t != [] {
      DropControlsFixed(t[1..]);
    }
  }

  /** Sanitising is idempotent. */
  lemma SanitizeIdempotent(text: string)
    ensures SanitizeText(SanitizeText(text)) == SanitizeText(text)
  {
    var t := SanitizeText(text);
    if t != [] {
      DropControlsFixed(t);
      CollapseFixed(t);
      StripUnpadded(t);
    }
  }

  // ---------------------------------------------------------------------
  // truncate_text

  const TelegramLimit: int := 4096

  /** Python's `text[:k]` for any integer `k`. */
  function PrefixPy(text: string, k: int): (r: string)
    ensures 0 <= k <= |text| ==> r == text[..k]
    ensures k < 0 ==> r == text[..if |text| + k > 0 then |text| + k else 0]
  {
    if k >= |text| then text
    else if k >= 0 then text[..k]
    else if |text| + k > 0 then text[..|text| + k]
    else []
  }

  /** `truncate_text` */
  function TruncateText(text: string, maxLength: int): (r: string)
    ensures |text| <= maxLength ==> r == text
    ensures |text| > maxLength >= 3 ==> r == text[..maxLength - 3] + "..." && |r| == maxLength
    ensures text != [] && |text| > maxLength && maxLength < 3 ==>
      r == text[..if |text| + maxLength - 3 > 0 then |text| + maxLength - 3 else 0] + "..."
  {
    if text == [] then ""
    else if |text| <= maxLength then text
    else PrefixPy(text, maxLength - 3) + "..."
  }

  /** With a limit below 3 a text longer than the limit comes back still longer than the limit. */
  lemma SmallLimitOverflows(text: string, maxLength: int)
    requires maxLength < 3 && |text| > maxLength
    ensures |TruncateText(text, maxLength)| > maxLength
  {
  }
}
