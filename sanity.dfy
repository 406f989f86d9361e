/**
 * The checks run on every parsed transaction before it is saved
 * (worker/services/sanity_checks.py): review flags for a bad amount or a
 * low confidence, a confidence penalty per flag, and the mapping of the
 * model's category onto the bot's fixed category list.
 */
module SanityChecks {
  import opened Wrappers
  import opened Text

  const ValidCategories: seq<string> := [
    "makan", "minuman", "belanja", "transportasi", "tagihan", "hiburan", "kesehatan",
    "pendidikan", "gaji", "transfer", "tabungan", "investasi", "lainnya"]

  /** Abbreviations, English names and common words, each mapped to a valid category. */
  const CategoryMapping: map<string, string> := map[
    "mkn" := "makan",
    "minum" := "minuman",
    "transport" := "transportasi",
    "bill" := "tagihan",
    "health" := "kesehatan",
    "salary" := "gaji",
    "food" := "makan",
    "drink" := "minuman",
    "shopping" := "belanja",
    "entertainment" := "hiburan",
    "education" := "pendidikan",
    "saving" := "tabungan",
    "savings" := "tabungan",
    "investment" := "investasi",
    "jajan" := "makan",
    "bensin" := "transportasi",
    "ojol" := "transportasi",
    "parkir" := "transportasi",
    "wifi" := "tagihan",
    "listrik" := "tagihan",
    "air" := "tagihan",
    "pulsa" := "tagihan",
    "game" := "hiburan",
    "nonton" := "hiburan",
    "obat" := "kesehatan",
    "dokter" := "kesehatan",
    "sekolah" := "pendidikan",
    "kursus" := "pendidikan",
    "gaji bulanan" := "gaji",
    "transfer uang" := "transfer",
    "nabung" := "tabungan",
    "invest" := "investasi",
    "saham" := "investasi",
    "reksadana" := "investasi",
    "crypto" := "investasi"]

  /** The alias table only ever points into the category list. */
  lemma MappingTargetsValid()
    ensures forall k :: k in CategoryMapping ==> CategoryMapping[k] in ValidCategories
  {
  }

  /** Every category is already lower case and unpadded. */
  lemma CategoriesNormalised()
    ensures forall v :: v in ValidCategories ==> v != [] && Strip(Lower(v)) == v
  {
    forall v | v in ValidCategories
      ensures v != [] && Strip(Lower(v)) == v
    {
      LowerWordNormalised(v);
    }
  }

  /** A non-empty word of lower-case letters is left alone by `lower().strip()`. */
  lemma LowerWordNormalised(v: string)
    requires v != [] && forall i :: 0 <= i < |v| ==> IsLowerAscii(v[i])
    ensures Strip(Lower(v)) == v
  {
    LowerOfNonUpper(v);
    StripUnpadded(v);
  }

  datatype CategoryResult = CategoryResult(normalized: string, wasCorrected: bool)

  /** `validate_and_normalize_category` */
  function NormalizeCategory(category: string): (r: CategoryResult)
    ensures r.normalized in ValidCategories
    ensures !r.wasCorrected <==> category != [] && Strip(Lower(category)) in ValidCategories
    ensures !r.wasCorrected ==> r.normalized == Strip(Lower(category))
    ensures category == [] ==> r == CategoryResult("lainnya", true)
    ensures category != [] && Strip(Lower(category)) !in ValidCategories ==>
      r == CategoryResult(Get(Strip(Lower(category))), true)
  {
    MappingTargetsValid();
    if category == [] then CategoryResult("lainnya", true)
    else
      var n := Strip(Lower(category));
      if n in ValidCategories then CategoryResult(n, false)
      else if n in CategoryMapping then CategoryResult(CategoryMapping[n], true)
      else CategoryResult("lainnya", true)
  }

  /** The alias lookup with its fallback. */
  function Get(n: string): (c: string)
    ensures n in CategoryMapping ==> c == CategoryMapping[n]
    ensures n !in CategoryMapping ==> c == "lainnya"
  {
    if n in CategoryMapping then CategoryMapping[n] else "lainnya"
  }

  /** Normalising an already normalised category changes nothing and reports no correction. */
  lemma NormalizeIdempotent(category: string)
    ensures var n := NormalizeCategory(category).normalized;
      NormalizeCategory(n) == CategoryResult(n, false)
  {
    var n := NormalizeCategory(category).normalized;
    CategoriesNormalised();
    assert n != [] && Strip(Lower(n)) == n;
    var r := NormalizeCategory(n);
    assert !r.wasCorrected;
  }

  /** What `run_sanity_checks` reads; a missing key is None. */
  datatype SanityInput = SanityInput(amount: Option<real>, confidence: Option<real>, category: Option<string>)

  /** The review flags, each with the warning that accompanies it. */
  datatype Flag = InvalidAmount | LowConfidence | ModerateConfidence {
    function Name(): string {
      match this
      case InvalidAmount => "Invalid Amount"
      case LowConfidence => "Low Confidence"
      case ModerateConfidence => "Moderate Confidence"
    }

    function Warning(): (w: string)
      ensures w != []
    {
      match this
      case InvalidAmount => "Amount tidak valid"
      case LowConfidence => "Confidence sangat rendah"
      case ModerateConfidence => "Confidence cukup rendah"
    }
  }

  datatype SanityResult = SanityResult(
    needsReview: bool,
    flags: seq<Flag>,
    adjustedConfidence: real,
    warning: string,
    normalizedCategory: string)

  const PenaltyPerFlag: real := 0.05

  function AmountOf(p: SanityInput): real { p.amount.GetOr(0.0) }
  function ConfidenceOf(p: SanityInput): real { p.confidence.GetOr(0.0) }
  function CategoryOf(p: SanityInput): CategoryResult { NormalizeCategory(p.category.GetOr("lainnya")) }

  /** The flags the amount and confidence rules raise, in the order they are checked. */
  function FlagsFor(amount: real, confidence: real): seq<Flag> {
    (if amount <= 0.0 then [InvalidAmount] else [])
    + (if confidence < 0.4 then [LowConfidence] else if confidence < 0.6 then [ModerateConfidence] else [])
  }

  function Warnings(flags: seq<Flag>): (ws: seq<string>)
    ensures |ws| == |flags|
    ensures forall i :: 0 <= i < |flags| ==> ws[i] == flags[i].Warning()
  {
    seq(|flags|, i requires 0 <= i < |flags| => flags[i].Warning())
  }

  /** The correction note; `parsed_output.get('category')` prints as None when absent. */
  function CorrectionWarning(original: Option<string>, normalized: string): (w: string)
    ensures w != []
  {
    "Kategori dikoreksi: '" + (if original.Some? then original.value else "None") + "' → '" + normalized + "'"
  }

  function CategoryNote(original: Option<string>, cat: CategoryResult): seq<string> {
    if cat.wasCorrected then [CorrectionWarning(original, cat.normalized)] else []
  }

  /** `max(0.0, x)` */
  function Clamp0(x: real): (r: real)
    ensures r >= 0.0 && r >= x
    ensures r == x || r == 0.0
  {
    if x > 0.0 then x else 0.0
  }

  /** What `run_sanity_checks` returns. */
  function Sanity(p: SanityInput): SanityResult {
    var flags := FlagsFor(AmountOf(p), ConfidenceOf(p));
    var cat := CategoryOf(p);
    var notes := Warnings(flags) + CategoryNote(p.category, cat);
    SanityResult(
      flags != [],
      flags,
      Clamp0(ConfidenceOf(p) - |flags| as real * PenaltyPerFlag),
      Join("; ", notes),
      cat.normalized)
  }

  /** `run_sanity_checks`, appending flags and warnings as it goes. */
  method RunSanityChecks(p: SanityInput) returns (r: SanityResult)
    ensures r == Sanity(p)
  {
    var amount := p.amount.GetOr(0.0);
    var confidence := p.confidence.GetOr(0.0);
    var flags, warnings, needsReview := CheckAmountAndConfidence(amount, confidence);

    ghost var before := warnings;
    var category := NormalizeCategory(p.category.GetOr("lainnya"));
    if category.wasCorrected {
      warnings := warnings + [CorrectionWarning(p.category, category.normalized)];
    }
    assert warnings == before + CategoryNote(p.category, category);

    var penalty := |flags| as real * PenaltyPerFlag;
    var adjusted := Clamp0(confidence - penalty);
    assert category == CategoryOf(p);
    r := SanityResult(needsReview, flags, adjusted, Join("; ", warnings), category.normalized);
  }

  /** The amount and confidence checks of `run_sanity_checks`. */
  method CheckAmountAndConfidence(amount: real, confidence: real)
    returns (flags: seq<Flag>, warnings: seq<string>, needsReview: bool)
    ensures flags == FlagsFor(amount, confidence)
    ensures warnings == Warnings(flags)
    ensures needsReview <==> flags != []
  {
    flags := [];
    warnings := [];
    needsReview := false;
    if amount <= 0.0 {
      flags := flags + [InvalidAmount];
      warnings := warnings + ["Amount tidak valid"];
      needsReview := true;
    }
    if confidence < 0.4 {
      flags := flags + [LowConfidence];
      warnings := warnings + ["Confidence sangat rendah"];
      needsReview := true;
    } else if confidence < 0.6 {
      flags := flags + [ModerateConfidence];
      warnings := warnings + ["Confidence cukup rendah"];
      needsReview := true;
    }
  }

  /** At most two flags, each present exactly when its rule fires, amount first. */
  lemma FlagRules(p: SanityInput)
    ensures var f := Sanity(p).flags;
      && |f| <= 2
      && ((InvalidAmount in f) <==> AmountOf(p) <= 0.0)
      && ((LowConfidence in f) <==> ConfidenceOf(p) < 0.4)
      && ((ModerateConfidence in f) <==> 0.4 <= ConfidenceOf(p) < 0.6)
      && (AmountOf(p) <= 0.0 ==> f[0] == InvalidAmount)
  {
    assert Sanity(p).flags == FlagsFor(AmountOf(p), ConfidenceOf(p));
    FlagsForRules(AmountOf(p), ConfidenceOf(p));
  }

  lemma FlagsForRules(amount: real, confidence: real)
    ensures var f := FlagsFor(amount, confidence);
      && |f| <= 2
      && ((InvalidAmount in f) <==> amount <= 0.0)
      && ((LowConfidence in f) <==> confidence < 0.4)
      && ((ModerateConfidence in f) <==> 0.4 <= confidence < 0.6)
      && (amount <= 0.0 ==> f[0] == InvalidAmount)
  {
  }

  /** Review is asked for exactly when some flag was raised. */
  lemma ReviewIffFlagged(p: SanityInput)
    ensures Sanity(p).needsReview <==> Sanity(p).flags != []
  {
  }

  /** A category correction only adds a warning: flags and review do not depend on the category. */
  lemma CategoryDoesNotFlag(p: SanityInput, other: Option<string>)
    ensures Sanity(p.(category := other)).flags == Sanity(p).flags
    ensures Sanity(p.(category := other)).needsReview == Sanity(p).needsReview
    ensures Sanity(p.(category := other)).adjustedConfidence == Sanity(p).adjustedConfidence
  {
  }

  /** The penalty never makes the confidence negative and never raises it. */
  lemma AdjustedBounds(p: SanityInput)
    ensures Sanity(p).adjustedConfidence >= 0.0
    ensures ConfidenceOf(p) >= 0.0 ==> Sanity(p).adjustedConfidence <= ConfidenceOf(p)
    ensures Sanity(p).adjustedConfidence == Clamp0(ConfidenceOf(p) - PenaltyPerFlag * |Sanity(p).flags| as real)
  {
  }

  /** A positive amount with confidence at least 0.6 passes untouched. */
  lemma CleanPasses(p: SanityInput)
    requires AmountOf(p) > 0.0 && ConfidenceOf(p) >= 0.6
    ensures Sanity(p).flags == [] && !Sanity(p).needsReview
    ensures Sanity(p).adjustedConfidence == ConfidenceOf(p)
  {
  }

  /** The stored category is the normaliser's answer, so always a valid one. */
  lemma CategoryIsNormalised(p: SanityInput)
    ensures Sanity(p).normalizedCategory == NormalizeCategory(p.category.GetOr("lainnya")).normalized
    ensures Sanity(p).normalizedCategory in ValidCategories
  {
  }

  /** The warning is empty exactly when nothing was flagged and nothing corrected. */
  lemma WarningEmptyIff(p: SanityInput)
    ensures Sanity(p).warning == [] <==> Sanity(p).flags == [] && !CategoryOf(p).wasCorrected
  {
    var flags := Sanity(p).flags;
    var notes := Warnings(flags) + CategoryNote(p.category, CategoryOf(p));
    assert forall i :: 0 <= i < |notes| ==> notes[i] != [];
    JoinEmpty("; ", notes);
  }
}
