/**
 * The parser that turns the language model's reply into transaction
 * candidates (worker/llm/parser.py). It finds the first balanced `{...}`
 * span, decodes it, and reads either one transaction object or a
 * `transactions` array of them, all or nothing.
 */
module LlmParser {
  import opened Wrappers
  import opened Text
  import opened Json

  datatype Direction = Income | Expense

  /** Why `ParserError` was raised. */
  datatype Reason =
    | NotAString
    | NoJsonObject
    | EmptyIntent
    | UnknownIntent(text: string)
    | BadAmountFormat(value: Json)
    | AmountNotDecimal(value: Json)
    | MissingField(field: string)
    | BadConfidence(value: Json)
    | TransactionsNotArray
    | TransactionsEmpty
    | InTransaction(index: nat, inner: Reason)
    | Malformed

  /**
   * What leaves a parsing step: a ParserError; a TypeError or ValueError,
   * which the top level re-raises as ParserError; or an AttributeError,
   * which nothing in the parser catches.
   */
  datatype Fault = Raised(reason: Reason) | TypeOrValueError | AttributeError

  /** The dict `_parse_single_transaction` returns. */
  datatype Transaction = Transaction(
    intent: Direction,
    amount: real,
    currency: string,
    date: Json,
    category: string,
    note: string,
    confidence: real)

  /** A transaction stamped with the reply it came from and its position. */
  datatype Candidate = Candidate(tx: Transaction, rawOutput: string, index: nat)

  // ---------------------------------------------------------------------
  // Finding the JSON object

  /** Brace depth after reading `s`; a `}` at depth 0 is ignored. */
  function Depth(s: string): nat
    decreases |s|
  {
    if s == [] then 0
    else
      var d := Depth(s[..|s| - 1]);
      if s[|s| - 1] == '{' then d + 1
      else if s[|s| - 1] == '}' then (if d > 0 then d - 1 else 0)
      else d
  }

  /** `s[e]` is a `}` that brings the depth back to zero. */
  predicate ClosesAt(s: string, e: int) {
    0 <= e < |s| && s[e] == '}' && Depth(s[..e]) == 1
  }

  /** The first index at or after `from` where the depth returns to zero. */
  function FirstClose(s: string, from: nat): (r: Option<nat>)
    requires from <= |s|
    ensures r.Some? ==> from <= r.value && ClosesAt(s, r.value)
    ensures r.Some? ==> forall j :: from <= j < r.value ==> !ClosesAt(s, j)
    ensures r.None? ==> forall j :: from <= j < |s| ==> !ClosesAt(s, j)
    decreases |s| - from
  {
    if from == |s| then None
    else if ClosesAt(s, from) then Some(from)
    else FirstClose(s, from + 1)
  }

  /** A positive depth needs an opening brace. */
  lemma {:induction false} OpenBeforeDepth(s: string)
    ensures Depth(s) > 0 ==> '{' in s
    decreases |s|
  {
    if s != [] {
      OpenBeforeDepth(s[..|s| - 1]);
      if Depth(s) > 0 && s[|s| - 1] != '{' {
        assert '{' in s[..|s| - 1];
      }
    }
  }

  /**
   * What `_extract_json_block` returns: the text from the first `{` to the
   * first `}` at which the depth returns to zero, or NoJsonObject.
   */
  function JsonSpan(s: string): (r: Result<string, Reason>)
    ensures r.Err? <==> forall e :: 0 <= e < |s| ==> !ClosesAt(s, e)
    ensures r.Err? ==> r.error == NoJsonObject
    ensures r.Ok? ==> |r.value| >= 2 && r.value[0] == '{' && r.value[|r.value| - 1] == '}'
  {
    match FirstClose(s, 0)
    case None => Err(NoJsonObject)
    case Some(e) =>
      OpenBeforeDepth(s[..e]);
      FindCharBefore(s, '{', e);
      Ok(s[FindChar(s, '{')..e + 1])
  }

  /** The non-string branch: `_extract_json_block` on any decoded value. */
  function JsonSpanOf(v: Json): (r: Result<string, Reason>)
    ensures !v.JStr? ==> r == Err(NotAString)
    ensures v.JStr? ==> r == JsonSpan(v.s)
  {
    if v.JStr? then JsonSpan(v.s) else Err(NotAString)
  }

  /** What reading one more character does to the depth, the braces seen and the first close. */
  lemma ScanStep(text: string, i: nat)
    requires i < |text|
    ensures var d := Depth(text[..i]);
      Depth(text[..i + 1]) == (if text[i] == '{' then d + 1 else if text[i] == '}' then (if d > 0 then d - 1 else 0) else d)
    ensures '{' in text[..i + 1] <==> '{' in text[..i] || text[i] == '{'
    ensures ClosesAt(text, i) <==> text[i] == '}' && Depth(text[..i]) == 1
    ensures FirstClose(text, i) == if ClosesAt(text, i) then Some(i) else FirstClose(text, i + 1)
  {
    assert text[..i + 1][..i] == text[..i];
    assert text[..i + 1] == text[..i] + [text[i]];
  }

  /** When the depth first returns to zero at `e`, the span ends there. */
  lemma SpanAt(text: string, start: nat, e: nat)
    requires e < |text| && FirstClose(text, 0) == Some(e) && start == FindChar(text, '{') <= e
    ensures JsonSpan(text) == Ok(text[start..e + 1])
  {
    match FirstClose(text, 0)
    case Some(e') =>
      assert e' == e;
  }

  /** When the depth never returns to zero, there is no span. */
  lemma NoSpan(text: string)
    requires FirstClose(text, 0) == FirstClose(text, |text|)
    ensures JsonSpan(text) == Err(NoJsonObject)
  {
  }

  /** The first occurrence of `c` is at `i` when `s[i]` is `c` and no `c` comes before. */
  lemma FindCharAt(s: string, c: char, i: nat)
    requires i < |s| && s[i] == c && c !in s[..i]
    ensures FindChar(s, c) == i
  {
    assert s[..i + 1][i] == c;
  }

  /** `_extract_json_block`: the brace stack scan. */
  method ExtractJsonBlock(text: string) returns (r: Result<string, Reason>)
    ensures r == JsonSpan(text)
  {
    var stack: seq<char> := [];
    var start: Option<nat> := None;
    var i := 0;
    while i < |text|
      invariant 0 <= i <= |text|
      invariant |stack| == Depth(text[..i])
      invariant forall k :: 0 <= k < |stack| ==> stack[k] == '{'
      invariant start.None? <==> '{' !in text[..i]
      invariant start.Some? ==> start.value == FindChar(text, '{') < i
      invariant FirstClose(text, 0) == FirstClose(text, i)
    {
      var ch := text[i];
      ScanStep(text, i);
      if ch == '{' {
        if start.None? {
          FindCharAt(text, '{', i);
          start := Some(i);
        }
        stack := stack + [ch];
      } else if ch == '}' {
        if stack != [] {
          stack := stack[..|stack| - 1];
          if stack == [] && start.Some? {
            SpanAt(text, start.value, i);
            return Ok(text[start.value..i + 1]);
          }
          if stack == [] {
            OpenBeforeDepth(text[..i]);
          }
        }
      }
      i := i + 1;
    }
    NoSpan(text);
    return Err(NoJsonObject);
  }

  // ---------------------------------------------------------------------
  // Field readers

  const IncomeWords: set<string> := {"income", "pemasukan", "masuk"}
  const ExpenseWords: set<string> := {"expense", "pengeluaran", "keluar"}

  /** `_normalize_intent` */
  function NormalizeIntent(v: Json): (r: Result<Direction, Fault>)
    ensures !Truthy(v) ==> r == Err(Raised(EmptyIntent))
    ensures r == Ok(Income) <==> v.JStr? && Lower(v.s) in IncomeWords
    ensures r == Ok(Expense) <==> v.JStr? && Lower(v.s) in ExpenseWords
    ensures Truthy(v) && !v.JStr? ==> r == Err(AttributeError)
    ensures Truthy(v) && v.JStr? && Lower(v.s) !in IncomeWords + ExpenseWords ==> r == Err(Raised(UnknownIntent(v.s)))
  {
    if !Truthy(v) then Err(Raised(EmptyIntent))
    else if !v.JStr? then Err(AttributeError)
    else
      var low := Lower(v.s);
      if low == "income" || low == "pemasukan" || low == "masuk" then Ok(Income)
      else if low == "expense" || low == "pengeluaran" || low == "keluar" then Ok(Expense)
      else Err(Raised(UnknownIntent(v.s)))
  }

  lemma LowerIdempotent(s: string)
    ensures Lower(Lower(s)) == Lower(s)
  {
  }

  /** The intent normaliser ignores letter case. */
  lemma IntentCaseInsensitive(s: string)
    requires s != []
    ensures NormalizeIntent(JStr(Lower(s))).Ok? == NormalizeIntent(JStr(s)).Ok?
    ensures NormalizeIntent(JStr(Lower(s))).Ok? ==> NormalizeIntent(JStr(Lower(s))) == NormalizeIntent(JStr(s))
  {
    LowerIdempotent(s);
  }

  /** The string branch of `_parse_amount`: Indonesian money slang to digits. */
  function SlangAmount(s: string): (n: nat)
  {
    DigitsValue(DigitsOnly(ExpandUnits(DropSeparators(Lower(s)))))
  }

  /** Spaces, commas and dots removed, in that order. */
  function DropSeparators(s: string): (r: string)
    ensures ' ' !in s && ',' !in s && '.' !in s ==> r == s
  {
    ReplaceAbsentChars(s);
    Replace(Replace(Replace(s, " ", ""), ",", ""), ".", "")
  }

  lemma ReplaceAbsentChars(s: string)
    ensures ' ' !in s && ',' !in s && '.' !in s ==> Replace(Replace(Replace(s, " ", ""), ",", ""), ".", "") == s
  {
    if ' ' !in s && ',' !in s && '.' !in s {
      ReplaceAbsent(s, " ", "");
      ReplaceAbsent(s, ",", "");
      ReplaceAbsent(s, ".", "");
    }
  }

  /** The unit words: jt and juta are millions, rb and ribu thousands. */
  function ExpandUnits(s: string): string {
    Replace(Replace(Replace(Replace(s, "jt", "000000"), "juta", "000000"), "rb", "000"), "ribu", "000")
  }

  /** `_parse_amount` */
  function ParseAmount(v: Json): (r: Result<real, Fault>)
    ensures v.JStr? ==> r == Ok(SlangAmount(v.s) as real) && r.value >= 0.0
    ensures v.JInt? ==> r == Ok(v.i as real)
    ensures v.JFloat? ==> r == Ok(v.f)
    ensures v.JBool? ==> r == Err(Raised(AmountNotDecimal(v)))
    ensures (v.JNull? || v.JArr? || v.JObj?) ==> r == Err(Raised(BadAmountFormat(v)))
  {
    match v
    case JBool(_) => Err(Raised(AmountNotDecimal(v)))
    case JInt(i) => Ok(i as real)
    case JFloat(f) => Ok(f)
    case JStr(s) => Ok(SlangAmount(s) as real)
    case _ => Err(Raised(BadAmountFormat(v)))
  }

  /** Digits followed by a lower-case suffix are left alone by lower-casing and separator removal. */
  lemma PlainSuffix(d: string, suffix: string)
    requires AllDigits(d)
    requires forall i :: 0 <= i < |suffix| ==> IsLowerAscii(suffix[i]) || IsDigit(suffix[i])
    ensures DropSeparators(Lower(d + suffix)) == d + suffix
  {
    LowerOfNonUpper(d + suffix);
    var x := d + suffix;
    assert ' ' !in x && ',' !in x && '.' !in x by {
      forall i | 0 <= i < |x| ensures x[i] != ' ' && x[i] != ',' && x[i] != '.' {
        if i >= |d| { assert x[i] == suffix[i - |d|]; }
      }
    }
  }

  /** A digit string has no unit words and keeps its digits. */
  lemma UnitsOfDigits(d: string)
    requires AllDigits(d)
    ensures DigitsValue(DigitsOnly(ExpandUnits(d))) == DigitsValue(d)
  {
    ReplaceAbsent(d, "jt", "000000");
    ReplaceAbsent(d, "juta", "000000");
    ReplaceAbsent(d, "rb", "000");
    ReplaceAbsent(d, "ribu", "000");
    DigitsOnlyOfDigits(d);
  }

  /** A digit string is its own value. */
  lemma SlangDigits(d: string)
    requires AllDigits(d)
    ensures SlangAmount(d) == DigitsValue(d)
  {
    assert d + [] == d;
    PlainSuffix(d, []);
    UnitsOfDigits(d);
  }

  lemma ThreeZeros()
    ensures DigitsValue("000") == 0 && Pow10(3) == 1000
  {
    assert "000"[..2] == "00" && "00"[..1] == "0" && "0"[..0] == [];
  }

  /** Appending three zeros multiplies by a thousand. */
  lemma TimesThousand(d: string)
    requires AllDigits(d)
    ensures DigitsValue(d + "000") == DigitsValue(d) * 1000
  {
    DigitsValueAppend(d, "000");
    ThreeZeros();
  }

  /** "25rb" is 25000: the suffix rb multiplies by a thousand. */
  lemma SlangRb(d: string)
    requires AllDigits(d)
    ensures SlangAmount(d + "rb") == DigitsValue(d) * 1000
  {
    PlainSuffix(d, "rb");
    ReplaceAbsent(d + "rb", "jt", "000000");
    ReplaceAbsent(d + "rb", "juta", "000000");
    ReplaceAfter(d, "rb", "rb", "000");
    ReplaceWhole("rb", "000");
    ReplaceAbsent(d + "000", "ribu", "000");
    DigitsOnlyOfDigits(d + "000");
    TimesThousand(d);
  }

  /** "5jt" is 5000000: the suffix jt multiplies by a million. */
  lemma SlangJt(d: string)
    requires AllDigits(d)
    ensures SlangAmount(d + "jt") == DigitsValue(d) * 1000000
  {
    var m := d + "000000";
    PlainSuffix(d, "jt");
    JtExpanded(d);
    assert AllDigits(m) by {
      forall i | 0 <= i < |m| ensures IsDigit(m[i]) {
        if i >= |d| { assert m[i] == '0'; }
      }
    }
    DigitsOnlyOfDigits(m);
    TimesMillion(d);
    SlangSteps(d + "jt", d + "jt", m, m);
  }

  /** The slang reading as its pipeline of steps. */
  lemma SlangSteps(s: string, a: string, b: string, c: string)
    requires DropSeparators(Lower(s)) == a && ExpandUnits(a) == b && DigitsOnly(b) == c
    ensures SlangAmount(s) == DigitsValue(c)
  {
  }

  lemma JtExpanded(d: string)
    requires AllDigits(d)
    ensures ExpandUnits(d + "jt") == d + "000000"
  {
    var m := d + "000000";
    ReplaceAfter(d, "jt", "jt", "000000");
    ReplaceWhole("jt", "000000");
    assert Replace(d + "jt", "jt", "000000") == m;
    ReplaceAbsent(m, "juta", "000000");
    ReplaceAbsent(m, "rb", "000");
    ReplaceAbsent(m, "ribu", "000");
  }

  lemma TimesMillion(d: string)
    requires AllDigits(d)
    ensures DigitsValue(d + "000000") == DigitsValue(d) * 1000000
  {
    assert d + "000000" == (d + "000") + "000";
    TimesThousand(d);
    TimesThousand(d + "000");
  }

  /** "150k" is 150: this parser has no k rule, so the k is simply dropped. */
  lemma SlangK(d: string)
    requires AllDigits(d)
    ensures SlangAmount(d + "k") == DigitsValue(d)
  {
    var x := d + "k";
    PlainSuffix(d, "k");
    ReplaceAbsent(x, "jt", "000000");
    ReplaceAbsent(x, "juta", "000000");
    ReplaceAbsent(x, "rb", "000");
    ReplaceAbsent(x, "ribu", "000");
    assert DigitsOnly(x) == d by {
      DigitsOnlyAppend(d, "k");
      DigitsOnlyOfDigits(d);
    }
  }

  /** "25.000" is 25000: thousands dots are separators, not decimals. */
  lemma SlangDotted(a: string, b: string)
    requires AllDigits(a) && AllDigits(b)
    ensures SlangAmount(a + "." + b) == DigitsValue(a + b)
  {
    var x := a + ("." + b);
    assert a + "." + b == x;
    LowerOfNonUpper(x);
    ReplaceAbsent(x, " ", "");
    ReplaceAbsent(x, ",", "");
    ReplaceAfter(a, "." + b, ".", "");
    assert Replace("." + b, ".", "") == Replace(b, ".", "") by {
      assert ("." + b)[..1] == ".";
      assert ("." + b)[1..] == b;
    }
    ReplaceAbsent(b, ".", "");
    assert DropSeparators(Lower(x)) == a + b;
    UnitsOfDigits(a + b);
  }

  /** Python's `float(v)` on a decoded value; Err where it raises TypeError or ValueError. */
  function PyFloat(v: Json, lib: Foreign): (r: Result<real, ()>)
    ensures v.JInt? ==> r == Ok(v.i as real)
    ensures v.JFloat? ==> r == Ok(v.f)
    ensures (v.JNull? || v.JArr? || v.JObj?) ==> r.Err?
  {
    match v
    case JBool(b) => Ok(if b then 1.0 else 0.0)
    case JInt(i) => Ok(i as real)
    case JFloat(f) => Ok(f)
    case JStr(s) => if lib.parseFloat(s).Some? then Ok(lib.parseFloat(s).value) else Err(())
    case _ => Err(())
  }

  // ---------------------------------------------------------------------
  // One transaction object

  const RequiredFields: seq<string> := ["intent", "amount", "currency", "date", "category", "note", "confidence"]

  /** The required-field loop: the first field `in` reports missing, or TypeError. */
  function CheckFields(data: Json, fields: seq<string>): (r: Result<(), Fault>)
    ensures r.Ok? <==> forall k :: 0 <= k < |fields| ==> PyIn(fields[k], data) == Ok(true)
    ensures r.Ok? && data.JObj? ==> forall k :: 0 <= k < |fields| ==> fields[k] in data.fields
  {
    if fields == [] then Ok(())
    else match PyIn(fields[0], data)
      case Err(_) => Err(TypeOrValueError)
      case Ok(false) => Err(Raised(MissingField(fields[0])))
      case Ok(true) => CheckFields(data, fields[1..])
  }

  /** Every required key is present. */
  predicate HasRequired(d: map<string, Json>) {
    && "intent" in d && "amount" in d && "currency" in d && "date" in d
    && "category" in d && "note" in d && "confidence" in d
  }

  lemma RequiredPresent(d: map<string, Json>)
    requires forall k :: 0 <= k < |RequiredFields| ==> RequiredFields[k] in d
    ensures HasRequired(d)
  {
    assert RequiredFields[0] in d && RequiredFields[1] in d && RequiredFields[2] in d;
    assert RequiredFields[3] in d && RequiredFields[4] in d && RequiredFields[5] in d;
    assert RequiredFields[6] in d;
  }

  /** `_parse_single_transaction` */
  function ParseSingle(data: Json, lib: Foreign): (r: Result<Transaction, Fault>)
    ensures r.Ok? ==> data.JObj? && HasRequired(data.fields)
  {
    var check := CheckFields(data, RequiredFields);
    if check.Err? then Err(check.error)
    else if !data.JObj? then Err(TypeOrValueError)
    else
      var d := data.fields;
      RequiredPresent(d);
      var intent :- NormalizeIntent(d["intent"]);
      var amount :- ParseAmount(d["amount"]);
      var conf := PyFloat(d["confidence"], lib);
      if conf.Err? then Err(Raised(BadConfidence(d["confidence"])))
      else
        Ok(Transaction(
          intent, amount,
          Upper(PyStr(d["currency"], lib)),
          d["date"],
          Lower(PyStr(d["category"], lib)),
          PyStr(d["note"], lib),
          conf.value))
  }

  /** On a dict, the first missing required field is the one reported. */
  lemma FirstMissingFieldReported(fields: map<string, Json>, k: nat, lib: Foreign)
    requires k < |RequiredFields|
    requires RequiredFields[k] !in fields
    requires forall j :: 0 <= j < k ==> RequiredFields[j] in fields
    ensures ParseSingle(JObj(fields), lib) == Err(Raised(MissingField(RequiredFields[k])))
  {
    FirstMissingFrom(JObj(fields), RequiredFields, k);
  }

  lemma {:induction false} FirstMissingFrom(data: Json, fs: seq<string>, k: nat)
    requires data.JObj? && k < |fs|
    requires fs[k] !in data.fields
    requires forall j :: 0 <= j < k ==> fs[j] in data.fields
    ensures CheckFields(data, fs) == Err(Raised(MissingField(fs[k])))
    decreases k
  {
    if k > 0 {
      FirstMissingFrom(data, fs[1..], k - 1);
    }
  }

  /** A parsed transaction's fields, for a dict holding every required key. */
  lemma ParsedFields(fields: map<string, Json>, lib: Foreign)
    requires ParseSingle(JObj(fields), lib).Ok?
    ensures var t := ParseSingle(JObj(fields), lib).value;
      && NormalizeIntent(fields["intent"]) == Ok(t.intent)
      && ParseAmount(fields["amount"]) == Ok(t.amount)
      && t.currency == Upper(PyStr(fields["currency"], lib))
      && t.date == fields["date"]
      && t.category == Lower(PyStr(fields["category"], lib))
      && t.note == PyStr(fields["note"], lib)
      && PyFloat(fields["confidence"], lib) == Ok(t.confidence)
  {
  }

  /** A confidence that does not convert to float is a ParserError naming it. */
  lemma BadConfidenceRejected(fields: map<string, Json>, lib: Foreign)
    requires HasRequired(fields)
    requires NormalizeIntent(fields["intent"]).Ok? && ParseAmount(fields["amount"]).Ok?
    requires PyFloat(fields["confidence"], lib).Err?
    ensures ParseSingle(JObj(fields), lib) == Err(Raised(BadConfidence(fields["confidence"])))
  {
    assert forall k :: 0 <= k < |RequiredFields| ==> RequiredFields[k] in fields;
    assert CheckFields(JObj(fields), RequiredFields).Ok?;
  }

  // ---------------------------------------------------------------------
  // The whole reply

  /** How the batch loop reports element `k`'s failure. */
  function InElement(k: nat, f: Fault): (r: Fault)
    ensures f.Raised? ==> r == Raised(InTransaction(k, f.reason))
    ensures !f.Raised? ==> r == f
  {
    if f.Raised? then Raised(InTransaction(k, f.reason)) else f
  }

  /**
   * The batch loop over a `transactions` array, stopping at the first
   * failure; `parse` reads one element.
   */
  function ParseItems(items: seq<Json>, raw: string, parse: Json -> Result<Transaction, Fault>): (r: Result<seq<Candidate>, Fault>)
    ensures r.Ok? <==> forall k :: 0 <= k < |items| ==> parse(items[k]).Ok?
    ensures r.Ok? ==> |r.value| == |items|
    ensures r.Ok? ==> forall k :: 0 <= k < |items| ==> r.value[k] == Candidate(parse(items[k]).value, raw, k)
    decreases |items|
  {
    if items == [] then Ok([])
    else
      var n := |items| - 1;
      var front := ParseItems(items[..n], raw, parse);
      assert forall k :: 0 <= k < n ==> items[..n][k] == items[k];
      if front.Err? then front
      else
        var one := parse(items[n]);
        if one.Err? then Err(InElement(n, one.error))
        else Ok(front.value + [Candidate(one.value, raw, n)])
  }

  /** Once a prefix of the batch fails, the whole batch fails the same way. */
  lemma {:induction false} FailureSticks(items: seq<Json>, m: nat, raw: string, parse: Json -> Result<Transaction, Fault>)
    requires m <= |items|
    requires ParseItems(items[..m], raw, parse).Err?
    ensures ParseItems(items, raw, parse) == ParseItems(items[..m], raw, parse)
    decreases |items|
  {
    if m < |items| {
      var n := |items| - 1;
      assert items[..n][..m] == items[..m];
      FailureSticks(items[..n], m, raw, parse);
    } else {
      assert items[..m] == items;
    }
  }

  /**
   * Batch atomicity: when element `k` is the first to fail, the whole parse
   * fails with that element's error, numbered, and returns no partial list.
   */
  lemma BatchFailsAtFirstBadElement(items: seq<Json>, k: nat, raw: string, parse: Json -> Result<Transaction, Fault>)
    requires k < |items|
    requires forall j :: 0 <= j < k ==> parse(items[j]).Ok?
    requires parse(items[k]).Err?
    ensures ParseItems(items, raw, parse) == Err(InElement(k, parse(items[k]).error))
  {
    var pre := items[..k + 1];
    assert pre[..k] == items[..k];
    assert forall j :: 0 <= j < k ==> items[..k][j] == items[j];
    FailureSticks(items, k + 1, raw, parse);
  }

  /** `_parse_single_transaction` as a value. */
  function SingleParser(lib: Foreign): Json -> Result<Transaction, Fault> {
    x => ParseSingle(x, lib)
  }

  /** TypeError and ValueError become ParserError at the top level. */
  function Caught<T>(r: Result<T, Fault>): (c: Result<T, Fault>)
    ensures c.Err? ==> c.error != TypeOrValueError
    ensures r.Ok? ==> c == r
  {
    if r.Err? && r.error == TypeOrValueError then Err(Raised(Malformed)) else r
  }

  /** Reading the decoded object, with or without a `transactions` array. */
  function ParseData(data: Json, raw: string, lib: Foreign): (r: Result<seq<Candidate>, Fault>)
  {
    match PyIn("transactions", data)
    case Err(_) => Err(TypeOrValueError)
    case Ok(false) =>
      var one := ParseSingle(data, lib);
      if one.Err? then Err(one.error) else Ok([Candidate(one.value, raw, 0)])
    case Ok(true) =>
      if !data.JObj? then Err(TypeOrValueError)
      else match data.fields["transactions"]
        case JArr(items) => if items == [] then Err(Raised(TransactionsEmpty)) else ParseItems(items, raw, SingleParser(lib))
        case _ => Err(Raised(TransactionsNotArray))
  }

  /** `parse_llm_response` */
  function ParseResponse(raw: string, lib: Foreign): (r: Result<seq<Candidate>, Fault>)
    ensures r.Err? ==> r.error.Raised? || r.error == AttributeError
    ensures r.Ok? ==> r.value != [] && forall k :: 0 <= k < |r.value| ==> r.value[k].rawOutput == raw && r.value[k].index == k
  {
    match JsonSpan(raw)
    case Err(e) => Err(Raised(e))
    case Ok(span) =>
      match lib.decode(span)
      case None => Err(Raised(Malformed))
      case Some(data) => Caught(ParseData(data, raw, lib))
  }

  /** With a `transactions` array, one candidate per element, numbered in order. */
  lemma BatchShape(raw: string, lib: Foreign, span: string, fields: map<string, Json>, items: seq<Json>)
    requires JsonSpan(raw) == Ok(span) && lib.decode(span) == Some(JObj(fields))
    requires "transactions" in fields && fields["transactions"] == JArr(items)
    requires ParseResponse(raw, lib).Ok?
    ensures |ParseResponse(raw, lib).value| == |items|
    ensures forall k :: 0 <= k < |items| ==>
      ParseResponse(raw, lib).value[k] == Candidate(ParseSingle(items[k], lib).value, raw, k)
  {
  }

  /** A `transactions` value that is not an array, or an empty one, is rejected. */
  lemma BatchRejected(raw: string, lib: Foreign, span: string, fields: map<string, Json>)
    requires JsonSpan(raw) == Ok(span) && lib.decode(span) == Some(JObj(fields))
    requires "transactions" in fields
    ensures !fields["transactions"].JArr? ==> ParseResponse(raw, lib) == Err(Raised(TransactionsNotArray))
    ensures fields["transactions"] == JArr([]) ==> ParseResponse(raw, lib) == Err(Raised(TransactionsEmpty))
  {
  }

  /** Without the key, the whole object is the single candidate, index 0. */
  lemma SingleShape(raw: string, lib: Foreign, span: string, fields: map<string, Json>)
    requires JsonSpan(raw) == Ok(span) && lib.decode(span) == Some(JObj(fields))
    requires "transactions" !in fields
    ensures ParseSingle(JObj(fields), lib).Ok? ==>
      ParseResponse(raw, lib) == Ok([Candidate(ParseSingle(JObj(fields), lib).value, raw, 0)])
    ensures ParseSingle(JObj(fields), lib).Err? ==>
      ParseResponse(raw, lib) == Caught<seq<Candidate>>(Err(ParseSingle(JObj(fields), lib).error))
  {
  }

  /** `parse_llm_response`, with its loop appending to the parsed list. */
  method ParseLlmResponse(raw: string, lib: Foreign) returns (r: Result<seq<Candidate>, Fault>)
    ensures r == ParseResponse(raw, lib)
  {
    var span := ExtractJsonBlock(raw);
    if span.Err? {
      return Err(Raised(span.error));
    }
    var decoded := lib.decode(span.value);
    if decoded.None? {
      return Err(Raised(Malformed));
    }
    var data := decoded.value;
    var has := PyIn("transactions", data);
    if has.Err? || (has.value && !data.JObj?) {
      return Err(Raised(Malformed));
    }
    if !has.value {
      var one := ParseSingle(data, lib);
      if one.Err? {
        return Caught<seq<Candidate>>(Err(one.error));
      }
      return Ok([Candidate(one.value, raw, 0)]);
    }
    var transactions := data.fields["transactions"];
    if !transactions.JArr? {
      return Err(Raised(TransactionsNotArray));
    }
    var items := transactions.items;
    if |items| == 0 {
      return Err(Raised(TransactionsEmpty));
    }
    r := ParseBatch(items, raw, lib);
    r := Caught(r);
  }

  /** The loop of `parse_llm_response` over a non-empty `transactions` array. */
  method ParseBatch(items: seq<Json>, raw: string, lib: Foreign) returns (r: Result<seq<Candidate>, Fault>)
    ensures r == ParseItems(items, raw, SingleParser(lib))
  {
    var parsed: seq<Candidate> := [];
    var i := 0;
    while i < |items|
      invariant 0 <= i <= |items|
      invariant ParseItems(items[..i], raw, SingleParser(lib)) == Ok(parsed)
    {
      var one := SingleParser(lib)(items[i]);
      assert items[..i + 1][..i] == items[..i];
      if one.Err? {
        FailureSticks(items, i + 1, raw, SingleParser(lib));
        return Err(InElement(i, one.error));
      }
      parsed := parsed + [Candidate(one.value, raw, i)];
      i := i + 1;
    }
    assert items[..i] == items;
    return Ok(parsed);
  }
}
