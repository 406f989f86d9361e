/**
 * Saving what the pipeline produced (worker/services/transaction_service.py):
 * the transaction record built from a parsed transaction and its sanity
 * result, relative-date resolution, and the three inserts (transaction, OCR
 * text, model reply). The database is a class holding the three tables; an
 * insert it refuses stands for a database error, which the service re-raises
 * as TransactionServiceError.
 */
module TransactionService {
  import opened Wrappers
  import opened Text
  import opened Json
  import opened LlmParser
  import SanityChecks
  import Tesseract

  const SecondsPerDay: int := 86400

  /** The model name recorded with every reply. */
  const DefaultModel: string := "gpt-4o-mini"

  // ---------------------------------------------------------------------
  // Record construction

  /** Python's `int(x)` on a float: truncation toward zero. */
  function TruncateToInt(x: real): (r: int)
    ensures x >= 0.0 ==> r >= 0 && r as real <= x < r as real + 1.0
    ensures x < 0.0 ==> r <= 0 && r as real - 1.0 < x <= r as real
  {
    if x >= 0.0 then x.Floor else -((-x).Floor)
  }

  /** The words read as today and as yesterday, after lower-casing. */
  predicate IsToday(s: string) { Lower(s) == "today" || Lower(s) == "hari ini" }
  predicate IsYesterday(s: string) { Lower(s) == "yesterday" || Lower(s) == "kemarin" }

  /**
   * The transaction date: "today"/"hari ini" is now, "yesterday"/"kemarin"
   * a day earlier, any other string is read as ISO 8601 with "Z" meaning
   * +00:00; a missing, empty, non-string or unreadable date is now.
   */
  function ResolveDate(date: Json, now: int, lib: Foreign): (t: int)
    ensures !Truthy(date) || !date.JStr? ==> t == now
    ensures date.JStr? && IsToday(date.s) ==> t == now
    ensures date.JStr? && IsYesterday(date.s) ==> t == now - SecondsPerDay
    ensures date.JStr? && date.s != [] && !IsToday(date.s) && !IsYesterday(date.s) ==>
      t == lib.parseIso(Replace(date.s, "Z", "+00:00")).GetOr(now)
  {
    if !Truthy(date) then now
    else if !date.JStr? then now
    else
      var s := date.s;
      if IsToday(s) then now
      else if IsYesterday(s) then now - SecondsPerDay
      else match lib.parseIso(Replace(s, "Z", "+00:00"))
        case Some(t) => t
        case None => now
  }

  /** Relative dates are recognised in any letter case. */
  lemma RelativeDatesIgnoreCase(s: string, now: int, lib: Foreign)
    requires IsToday(s) || IsYesterday(s)
    ensures ResolveDate(JStr(Upper(s)), now, lib) == ResolveDate(JStr(s), now, lib)
  {
    assert forall i :: 0 <= i < |s| ==> Lower(Upper(s))[i] == Lower(s)[i];
    assert Lower(Upper(s)) == Lower(s);
    assert s != [];
  }

  /** The sanity part of `extra`. */
  datatype SanityExtra = SanityExtra(flags: seq<string>, adjustedConfidence: real, warning: string)

  /** `extra`: always the original confidence, the sanity summary when there is one. */
  datatype Extra = Extra(sanity: Option<SanityExtra>, originalConfidence: real)

  /** A row of the transaction table. */
  datatype TxRecord = TxRecord(
    userId: int,
    intent: Direction,
    amount: int,
    currency: string,
    category: string,
    note: string,
    needsReview: bool,
    txDate: int,
    llmResponseId: Option<int>,
    receiptId: Option<int>,
    extra: Extra)

  /** An id is linked only when it is truthy. */
  function Linked(id: Option<int>): (r: Option<int>)
    ensures r.Some? <==> id.Some? && id.value != 0
    ensures r.Some? ==> r == id
  {
    if id.Some? && id.value != 0 then id else None
  }

  function FlagNames(flags: seq<SanityChecks.Flag>): (names: seq<string>)
    ensures |names| == |flags|
    ensures forall i :: 0 <= i < |flags| ==> names[i] == flags[i].Name()
  {
    seq(|flags|, i requires 0 <= i < |flags| => flags[i].Name())
  }

  /** The record `save_transaction` inserts. */
  function RecordFor(
    userId: int, parsed: Transaction, llmResponseId: Option<int>, receiptId: Option<int>,
    sanity: Option<SanityChecks.SanityResult>, now: int, lib: Foreign): TxRecord
  {
    TxRecord(
      userId,
      parsed.intent,
      TruncateToInt(parsed.amount),
      parsed.currency,
      if sanity.Some? then sanity.value.normalizedCategory else parsed.category,
      parsed.note,
      if sanity.Some? then sanity.value.needsReview else false,
      ResolveDate(parsed.date, now, lib),
      Linked(llmResponseId),
      Linked(receiptId),
      Extra(
        if sanity.Some? then Some(SanityExtra(FlagNames(sanity.value.flags), sanity.value.adjustedConfidence, sanity.value.warning)) else None,
        parsed.confidence))
  }

  /** What the sanity checks decide is what gets stored; without them the parsed values are kept. */
  lemma RecordFollowsSanity(userId: int, parsed: Transaction, llmResponseId: Option<int>, receiptId: Option<int>,
                            sanity: Option<SanityChecks.SanityResult>, now: int, lib: Foreign)
    ensures var r := RecordFor(userId, parsed, llmResponseId, receiptId, sanity, now, lib);
      && (sanity.Some? ==> r.category == sanity.value.normalizedCategory && r.needsReview == sanity.value.needsReview)
      && (sanity.None? ==> r.category == parsed.category && !r.needsReview && r.extra.sanity.None?)
      && r.extra.originalConfidence == parsed.confidence
      && (sanity.Some? <==> r.extra.sanity.Some?)
  {
  }

  /** Run on the parsed transaction, the sanity checks make the stored category a valid one and the review flag their verdict. */
  lemma CheckedRecordValid(userId: int, parsed: Transaction, llmResponseId: Option<int>, receiptId: Option<int>, now: int, lib: Foreign)
    ensures var p := SanityInput(parsed);
      var r := RecordFor(userId, parsed, llmResponseId, receiptId, Some(SanityChecks.Sanity(p)), now, lib);
      && r.category in SanityChecks.ValidCategories
      && (r.needsReview <==> SanityChecks.Sanity(p).flags != [])
      && |r.extra.sanity.value.flags| <= 2
  {
    var p := SanityInput(parsed);
    SanityChecks.CategoryIsNormalised(p);
    SanityChecks.ReviewIffFlagged(p);
    SanityChecks.FlagRules(p);
  }

  /** What `run_sanity_checks` reads from a parsed transaction. */
  function SanityInput(parsed: Transaction): SanityChecks.SanityInput {
    SanityChecks.SanityInput(Some(parsed.amount), Some(parsed.confidence), Some(parsed.category))
  }

  // ---------------------------------------------------------------------
  // The tables

  /** A row of the OCR text table; metadata is stored only when present. */
  datatype OcrRecord = OcrRecord(receiptId: int, ocrRaw: string, ocrMeta: Option<Tesseract.Meta>)

  /** A row of the model-reply audit table. */
  datatype LlmRecord = LlmRecord(
    userId: int,
    inputSource: string,
    inputText: string,
    promptUsed: string,
    modelName: string,
    rawOutput: string,
    llmMeta: Option<Json>)

  datatype Row = TxRow(tx: TxRecord) | OcrRow(ocr: OcrRecord) | LlmRow(llm: LlmRecord)

  /** What `save_transaction` returns. */
  datatype TxSummary = TxSummary(transactionId: int, intent: Direction, amount: int, category: string, needsReview: bool)

  /** `TransactionServiceError`, naming the insert that failed. */
  datatype ServiceError = TransactionNotSaved | OcrNotSaved | LlmResponseNotSaved

  /** The database: three tables with auto-incremented ids, and which inserts it accepts. */
  class Store {
    var transactions: seq<TxRecord>
    var ocrTexts: seq<OcrRecord>
    var llmResponses: seq<LlmRecord>
    const accepts: Row -> bool

    constructor(accepts: Row -> bool)
      ensures transactions == [] && ocrTexts == [] && llmResponses == []
      ensures this.accepts == accepts
    {
      transactions := [];
      ocrTexts := [];
      llmResponses := [];
      this.accepts := accepts;
    }

    /** `save_transaction`: ids count from 1. */
    method SaveTransaction(
      userId: int, parsed: Transaction, llmResponseId: Option<int>, receiptId: Option<int>,
      sanity: Option<SanityChecks.SanityResult>, now: int, lib: Foreign)
      returns (r: Result<TxSummary, ServiceError>)
      modifies this
      ensures var rec := RecordFor(userId, parsed, llmResponseId, receiptId, sanity, now, lib);
        if accepts(TxRow(rec)) then
          && transactions == old(transactions) + [rec]
          && r == Ok(TxSummary(|old(transactions)| + 1, rec.intent, rec.amount, rec.category, rec.needsReview))
        else
          transactions == old(transactions) && r == Err(TransactionNotSaved)
      ensures ocrTexts == old(ocrTexts) && llmResponses == old(llmResponses)
    {
      var category := if sanity.Some? then sanity.value.normalizedCategory else parsed.category;
      var needsReview := if sanity.Some? then sanity.value.needsReview else false;
      var txDate := ResolveDate(parsed.date, now, lib);
      var sanityExtra: Option<SanityExtra> := None;
      if sanity.Some? {
        sanityExtra := Some(SanityExtra(FlagNames(sanity.value.flags), sanity.value.adjustedConfidence, sanity.value.warning));
      }
      var rec := TxRecord(
        userId, parsed.intent, TruncateToInt(parsed.amount), parsed.currency, category, parsed.note,
        needsReview, txDate, Linked(llmResponseId), Linked(receiptId), Extra(sanityExtra, parsed.confidence));
      if !accepts(TxRow(rec)) {
        return Err(TransactionNotSaved);
      }
      transactions := transactions + [rec];
      r := Ok(TxSummary(|transactions|, rec.intent, rec.amount, rec.category, rec.needsReview));
    }

    /** `save_ocr_result` */
    method SaveOcrResult(receiptId: int, ocrText: string, meta: Option<Tesseract.Meta>)
      returns (r: Result<int, ServiceError>)
      modifies this
      ensures accepts(OcrRow(OcrRecord(receiptId, ocrText, meta))) ==>
        ocrTexts == old(ocrTexts) + [OcrRecord(receiptId, ocrText, meta)] && r == Ok(|ocrTexts|)
      ensures !accepts(OcrRow(OcrRecord(receiptId, ocrText, meta))) ==>
        ocrTexts == old(ocrTexts) && r == Err(OcrNotSaved)
      ensures transactions == old(transactions) && llmResponses == old(llmResponses)
    {
      var rec := OcrRecord(receiptId, ocrText, meta);
      if !accepts(OcrRow(rec)) {
        return Err(OcrNotSaved);
      }
      ocrTexts := ocrTexts + [rec];
      r := Ok(|ocrTexts|);
    }

    /** `save_llm_response`: metadata is stored only when truthy. */
    method SaveLlmResponse(userId: int, inputSource: string, inputText: string, prompt: string, rawOutput: string, meta: Option<Json>)
      returns (r: Result<int, ServiceError>)
      modifies this
      ensures var rec := LlmRecord(userId, inputSource, inputText, prompt, DefaultModel, rawOutput,
                                   if meta.Some? && Truthy(meta.value) then meta else None);
        if accepts(LlmRow(rec)) then llmResponses == old(llmResponses) + [rec] && r == Ok(|llmResponses|)
        else llmResponses == old(llmResponses) && r == Err(LlmResponseNotSaved)
      ensures transactions == old(transactions) && ocrTexts == old(ocrTexts)
    {
      var stored: Option<Json> := None;
      if meta.Some? && Truthy(meta.value) {
        stored := meta;
      }
      var rec := LlmRecord(userId, inputSource, inputText, prompt, DefaultModel, rawOutput, stored);
      if !accepts(LlmRow(rec)) {
        return Err(LlmResponseNotSaved);
      }
      llmResponses := llmResponses + [rec];
      r := Ok(|llmResponses|);
    }
  }
}
