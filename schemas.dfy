/**
 * The validity rules of the two record schemas (app/models/schemas.py):
 * which field values the model-output schema and the transaction-creation
 * schema accept, the defaults they fill in, and the date validator that
 * lets every value through. Validation is stated on already-typed field
 * values; the schema library's type coercions are outside the model.
 */
module Schemas {
  import opened Wrappers
  import opened Text
  import opened Json
  import P = LlmParser
  import TS = TransactionService

  /** The value of an `IntentType` member. */
  function IntentValue(d: P.Direction): string {
    match d
    case Income => "income"
    case Expense => "expense"
  }

  /** `IntentType(s)`: only the two exact values are members. */
  function IntentTypeOf(s: string): (r: Option<P.Direction>)
    ensures r.Some? <==> s in {"income", "expense"}
    ensures r.Some? ==> IntentValue(r.value) == s
  {
    if s == "income" then Some(P.Income)
    else if s == "expense" then Some(P.Expense)
    else None
  }

  lemma IntentTypeRoundTrip(d: P.Direction)
    ensures IntentTypeOf(IntentValue(d)) == Some(d)
  {
  }

  /** The relative dates the validator names. */
  const RelativeDates: set<string> := {"today", "yesterday", "hari ini", "kemarin"}

  /**
   * `validate_date`: None and the relative dates return at once, any other
   * string is tried as a calendar date (`isCalendarDate`), and a failure
   * is ignored, so the value always comes back unchanged.
   */
  function ValidateDate(v: Option<string>, isCalendarDate: string -> bool): (r: Option<string>)
    ensures r == v
  {
    if v.None? then v
    else if Lower(v.value) in RelativeDates then v
    else if isCalendarDate(v.value) then v
    else v
  }

  /** The fields given to `LLMOutputSchema`; None where a defaulted field is absent. */
  datatype LlmOutputFields = LlmOutputFields(
    intent: string,
    amount: int,
    currency: Option<string>,
    date: Option<string>,
    category: string,
    note: string,
    confidence: real)

  /** A validated `LLMOutputSchema`. */
  datatype LlmOutput = LlmOutput(
    intent: P.Direction,
    amount: int,
    currency: string,
    date: Option<string>,
    category: string,
    note: string,
    confidence: real)

  /** The fields a `LLMOutputSchema` rejects, in declaration order. */
  function LlmOutputErrors(f: LlmOutputFields): (e: seq<string>)
    ensures "intent" in e <==> f.intent !in {"income", "expense"}
    ensures "amount" in e <==> f.amount <= 0
    ensures "confidence" in e <==> !(0.0 <= f.confidence <= 1.0)
    ensures forall n :: n in e ==> n in {"intent", "amount", "confidence"}
  {
    (if IntentTypeOf(f.intent).None? then ["intent"] else [])
    + (if f.amount <= 0 then ["amount"] else [])
    + (if !(0.0 <= f.confidence <= 1.0) then ["confidence"] else [])
  }

  /** `LLMOutputSchema(**fields)` */
  function ValidateLlmOutput(f: LlmOutputFields, isCalendarDate: string -> bool): (r: Result<LlmOutput, seq<string>>)
    ensures r.Ok? <==> f.intent in {"income", "expense"} && f.amount > 0 && 0.0 <= f.confidence <= 1.0
    ensures r.Ok? ==> && IntentValue(r.value.intent) == f.intent
                      && r.value.amount == f.amount
                      && r.value.currency == f.currency.GetOr("IDR")
                      && r.value.date == f.date
                      && r.value.confidence == f.confidence
                      && (r.value.category, r.value.note) == (f.category, f.note)
    ensures r.Err? ==> r.error == LlmOutputErrors(f) && r.error != []
  {
    var errors := LlmOutputErrors(f);
    if errors != [] then Err(errors)
    else
      Ok(LlmOutput(IntentTypeOf(f.intent).value, f.amount, f.currency.GetOr("IDR"),
                   ValidateDate(f.date, isCalendarDate), f.category, f.note, f.confidence))
  }

  /** Absent currency and date read as "IDR" and None. */
  lemma LlmOutputDefaults(f: LlmOutputFields, isCalendarDate: string -> bool)
    requires f.currency.None? && f.date.None?
    requires ValidateLlmOutput(f, isCalendarDate).Ok?
    ensures ValidateLlmOutput(f, isCalendarDate).value.currency == "IDR"
    ensures ValidateLlmOutput(f, isCalendarDate).value.date.None?
  {
  }

  /** The fields given to `TransactionCreateSchema`; None where a defaulted field is absent. */
  datatype TransactionFields = TransactionFields(
    userId: int,
    intent: string,
    amount: int,
    currency: Option<string>,
    txDate: Option<int>,
    category: string,
    note: Option<string>,
    needsReview: Option<bool>,
    llmResponseId: Option<int>,
    receiptId: Option<int>)

  /** A validated `TransactionCreateSchema`. */
  datatype TransactionCreate = TransactionCreate(
    userId: int,
    intent: P.Direction,
    amount: int,
    currency: string,
    txDate: Option<int>,
    category: string,
    note: Option<string>,
    needsReview: bool,
    llmResponseId: Option<int>,
    receiptId: Option<int>)

  /** `TransactionCreateSchema(**fields)`: the intent must be a member and the amount positive. */
  function ValidateTransaction(f: TransactionFields): (r: Result<TransactionCreate, seq<string>>)
    ensures r.Ok? <==> f.intent in {"income", "expense"} && f.amount > 0
    ensures r.Ok? ==> && IntentValue(r.value.intent) == f.intent
                      && r.value.amount == f.amount
                      && r.value.currency == f.currency.GetOr("IDR")
                      && r.value.needsReview == f.needsReview.GetOr(false)
                      && (r.value.userId, r.value.txDate, r.value.category, r.value.note) == (f.userId, f.txDate, f.category, f.note)
                      && (r.value.llmResponseId, r.value.receiptId) == (f.llmResponseId, f.receiptId)
    ensures r.Err? ==> ("intent" in r.error <==> f.intent !in {"income", "expense"}) && ("amount" in r.error <==> f.amount <= 0)
  {
    var errors := (if IntentTypeOf(f.intent).None? then ["intent"] else []) + (if f.amount <= 0 then ["amount"] else []);
    if errors != [] then Err(errors)
    else
      Ok(TransactionCreate(f.userId, IntentTypeOf(f.intent).value, f.amount, f.currency.GetOr("IDR"), f.txDate,
                           f.category, f.note, f.needsReview.GetOr(false), f.llmResponseId, f.receiptId))
  }

  /** The schema fields of a stored transaction row. */
  function FieldsOf(rec: TS.TxRecord): TransactionFields {
    TransactionFields(rec.userId, IntentValue(rec.intent), rec.amount, Some(rec.currency), Some(rec.txDate),
                      rec.category, Some(rec.note), Some(rec.needsReview), rec.llmResponseId, rec.receiptId)
  }

  /**
   * A stored row satisfies the creation schema exactly when its amount is
   * positive: the save path never consults the schema, and a parsed amount
   * below one truncates to zero and is stored anyway.
   */
  lemma StoredRowsAgainstSchema(rec: TS.TxRecord)
    ensures ValidateTransaction(FieldsOf(rec)).Ok? <==> rec.amount > 0
    ensures ValidateTransaction(FieldsOf(rec)).Ok? ==> ValidateTransaction(FieldsOf(rec)).value.needsReview == rec.needsReview
  {
    assert IntentValue(rec.intent) in {"income", "expense"};
  }

  /** Any parsed amount strictly between -1 and 1 is stored as zero, which the creation schema would refuse. */
  lemma FractionalAmountStoredAsZero(userId: int, parsed: P.Transaction, now: int, lib: Foreign)
    requires -1.0 < parsed.amount < 1.0
    ensures TS.RecordFor(userId, parsed, None, None, None, now, lib).amount == 0
    ensures ValidateTransaction(FieldsOf(TS.RecordFor(userId, parsed, None, None, None, now, lib))).Err?
  {
    StoredRowsAgainstSchema(TS.RecordFor(userId, parsed, None, None, None, now, lib));
  }
}
