/**
 * The message pipeline (worker/worker_main.py): text, receipt photos and
 * voice notes are turned into a prompt, sent to the model, the reply is
 * recorded for audit, parsed into transactions, and each transaction is
 * sanity-checked and saved. The model, the image files, the transcriber
 * and the database's willingness to insert are parameters; what the worker
 * changes is its log of prompts sent and the store's three tables.
 */
module Worker {
  import opened Wrappers
  import opened Text
  import opened Json
  import P = LlmParser
  import S = SanityChecks
  import Prompts
  import OcrService
  import Tesseract
  import TS = TransactionService

  /** What `call_llm` returns; None where it raises LLMAPIError. */
  datatype LlmReply = LlmReply(text: string, usage: Option<map<string, Json>>)

  /** Where a message came from. */
  datatype Source = TextSource | ImageSource | AudioSource
  {
    /** The `input_source` recorded with the model reply and used to pick the prompt. */
    function InputSource(): string {
      match this
      case TextSource => "text"
      case ImageSource => "ocr"
      case AudioSource => "audio"
    }
  }

  /** The exception that ended a message's processing. */
  datatype Problem =
    | LlmApiError
    | ParserError(reason: P.Reason)
    | StoreError(error: TS.ServiceError)
    | AttributeError
    | ImageNotLoaded

  /** The user-facing error of a failed result. */
  datatype Notice =
    | NotUnderstood | AiUnavailable | InternalError
    | ReceiptUnreadable | ReceiptNotExtracted | ImageFailed
    | VoiceUnclear | VoiceNotUnderstood | AudioFailed
    | UnknownMessageType(messageType: string)

  /** The dict each `process_*` function returns. */
  datatype Outcome =
    | Processed(source: Source, transactions: seq<TS.TxSummary>, ocrConfidence: Option<real>, transcription: Option<string>)
    | Failure(origin: Option<Source>, notice: Notice, detail: Option<Problem>, ocrConfidence: Option<real>)
  {
    /** The "count" entry of a success. */
    function Count(): nat
      requires Processed?
    {
      |transactions|
    }
  }

  /**
   * The outside world the worker talks to, and the two pure stages it runs:
   * `parse` is `parse_llm_response` and `check` is `run_sanity_checks`
   * (see Faithful); keeping them as fields keeps their definitions out of
   * the reasoning about the pipeline's bookkeeping.
   */
  datatype Env = Env(
    templates: Prompts.Templates,
    llm: string -> Option<LlmReply>,
    lib: Foreign,
    now: int,
    accepts: TS.Row -> bool,
    images: string -> OcrService.Image,
    recordings: string -> Option<string>,
    parse: string -> Result<seq<P.Candidate>, P.Fault>,
    check: S.SanityInput -> S.SanityResult)

  /** The environment's parser and sanity checks are the real ones. */
  ghost predicate Faithful(e: Env) {
    && (forall raw {:trigger P.ParseResponse(raw, e.lib)} :: e.parse(raw) == P.ParseResponse(raw, e.lib))
    && (forall p {:trigger S.Sanity(p)} :: e.check(p) == S.Sanity(p))
  }

  /** Everything the worker changes: the prompts sent to the model and the three tables. */
  datatype Log = Log(
    prompts: seq<string>,
    transactions: seq<TS.TxRecord>,
    ocrTexts: seq<TS.OcrRecord>,
    llmResponses: seq<TS.LlmRecord>)

  // ---------------------------------------------------------------------
  // What each step does, as functions of the log before it

  /** A parser fault as the handlers see it: ParserError, or the generic branch. */
  function ProblemOf(f: P.Fault): Problem {
    match f
    case Raised(reason) => ParserError(reason)
    case _ => AttributeError
  }

  /** Which message each handler shows for each exception. */
  function NoticeFor(source: Source, p: Problem): (n: Notice)
    ensures p.ParserError? ==> n in {NotUnderstood, ReceiptNotExtracted, VoiceNotUnderstood}
    ensures !p.ParserError? ==> n in {AiUnavailable, InternalError, ImageFailed, AudioFailed}
  {
    match source
    case TextSource =>
      if p.ParserError? then NotUnderstood else if p == LlmApiError then AiUnavailable else InternalError
    case ImageSource => if p.ParserError? then ReceiptNotExtracted else ImageFailed
    case AudioSource => if p.ParserError? then VoiceNotUnderstood else AudioFailed
  }

  /** The result dict built from how the pipeline ended. */
  function Conclude(source: Source, res: Result<seq<TS.TxSummary>, Problem>, ocrConfidence: Option<real>, transcription: Option<string>): (o: Outcome)
    ensures o.Processed? <==> res.Ok?
    ensures o.Processed? ==> o.transactions == res.value && o.source == source
    ensures o.Failure? ==> o.origin == Some(source) && o.detail == Some(res.error) && o.notice == NoticeFor(source, res.error)
  {
    match res
    case Ok(txs) => Processed(source, txs, ocrConfidence, transcription)
    case Err(p) => Failure(Some(source), NoticeFor(source, p), Some(p), None)
  }

  /** `llm_meta`: the usage dict, with the OCR confidence added for receipts. */
  function AuditMeta(usage: Option<map<string, Json>>, ocrConfidence: Option<real>): (m: Option<Json>)
    ensures ocrConfidence.Some? ==> m.Some? && m.value.JObj? && "ocr_confidence" in m.value.fields && m.value.fields["ocr_confidence"] == JFloat(ocrConfidence.value)
    ensures ocrConfidence.Some? ==>
      m.value.fields.Keys == (if usage.Some? then usage.value.Keys else {}) + {"ocr_confidence"}
    ensures ocrConfidence.Some? && usage.Some? ==>
      forall k :: k in usage.value && k != "ocr_confidence" ==> m.value.fields[k] == usage.value[k]
    ensures ocrConfidence.None? ==> m == (if usage.Some? then Some(JObj(usage.value)) else None)
  {
    if ocrConfidence.Some? then
      Some(JObj((if usage.Some? then usage.value else map[]) + map["ocr_confidence" := JFloat(ocrConfidence.value)]))
    else if usage.Some? then Some(JObj(usage.value))
    else None
  }

  /** The audit row `save_llm_response` inserts for a reply. */
  function AuditRecord(userId: int, source: Source, input: string, prompt: string, reply: LlmReply, ocrConfidence: Option<real>): TS.LlmRecord {
    var meta := AuditMeta(reply.usage, ocrConfidence);
    TS.LlmRecord(userId, source.InputSource(), input, prompt, TS.DefaultModel, reply.text,
                 if meta.Some? && Truthy(meta.value) then meta else None)
  }

  /** The row saved for one parsed transaction, after its sanity checks. */
  function SavedRecord(e: Env, userId: int, tx: P.Transaction, llmId: int, receiptId: Option<int>): TS.TxRecord {
    TS.RecordFor(userId, tx, Some(llmId), receiptId, Some(e.check(TS.SanityInput(tx))), e.now, e.lib)
  }

  function Summary(id: int, rec: TS.TxRecord): TS.TxSummary {
    TS.TxSummary(id, rec.intent, rec.amount, rec.category, rec.needsReview)
  }

  /** The rows the save loop tries to insert, one per candidate, in order. */
  function Records(e: Env, userId: int, cands: seq<P.Candidate>, llmId: int, receiptId: Option<int>): seq<TS.TxRecord> {
    seq(|cands|, k requires 0 <= k < |cands| => SavedRecord(e, userId, cands[k].tx, llmId, receiptId))
  }

  /**
   * The save loop from row `i` on, with the table `tx` and the summaries
   * `acc` so far; it stops at the first insert refused.
   */
  function SaveFrom(accepts: TS.Row -> bool, recs: seq<TS.TxRecord>, i: nat, tx: seq<TS.TxRecord>, acc: seq<TS.TxSummary>)
    : (seq<TS.TxRecord>, Result<seq<TS.TxSummary>, Problem>)
    requires i <= |recs|
    decreases |recs| - i
  {
    if i == |recs| then (tx, Ok(acc))
    else if !accepts(TS.TxRow(recs[i])) then (tx, Err(StoreError(TS.TransactionNotSaved)))
    else SaveFrom(accepts, recs, i + 1, tx + [recs[i]], acc + [Summary(|tx| + 1, recs[i])])
  }

  /**
   * Prompt, model call, audit record, parse, save: the part the three
   * handlers share, from the log before it to the log after it.
   */
  function Interpret(e: Env, userId: int, source: Source, input: string, ocrConfidence: Option<real>,
                     receiptId: Option<int>, s: Log): (Log, Result<seq<TS.TxSummary>, Problem>)
  {
    var prompt := Prompts.BuildPrompt(e.templates, input, source.InputSource());
    var s1 := s.(prompts := s.prompts + [prompt]);
    match e.llm(prompt)
    case None => (s1, Err(LlmApiError))
    case Some(reply) => Handle(e, userId, source, input, prompt, reply, ocrConfidence, receiptId, s1)
  }

  /** What follows a reply: the audit record, the parse, the saves. */
  function Handle(e: Env, userId: int, source: Source, input: string, prompt: string, reply: LlmReply,
                  ocrConfidence: Option<real>, receiptId: Option<int>, s: Log): (Log, Result<seq<TS.TxSummary>, Problem>)
  {
    var rec := AuditRecord(userId, source, input, prompt, reply, ocrConfidence);
    if !e.accepts(TS.LlmRow(rec)) then (s, Err(StoreError(TS.LlmResponseNotSaved)))
    else
      var s1 := s.(llmResponses := s.llmResponses + [rec]);
      match e.parse(reply.text)
      case Err(f) => (s1, Err(ProblemOf(f)))
      case Ok(cands) =>
        var saved := SaveFrom(e.accepts, Records(e, userId, cands, |s1.llmResponses|, receiptId), 0, s1.transactions, []);
        (s1.(transactions := saved.0), saved.1)
  }

  /** `process_text_message` */
  function TextSpec(e: Env, userId: int, text: string, s: Log): (Log, Outcome) {
    var run := Interpret(e, userId, TextSource, text, None, None, s);
    (run.0, Conclude(TextSource, run.1, None, None))
  }

  /** `ocr_meta.get("confidence", 0)` */
  function OcrConfidence(meta: Tesseract.Meta): real {
    if meta.Meta? then meta.confidence else 0.0
  }

  /** `process_image_message` */
  function ImageSpec(e: Env, userId: int, filePath: string, receiptId: Option<int>, s: Log): (Log, Outcome) {
    var img := e.images(filePath);
    if !img.loads then (s, Failure(Some(ImageSource), ImageFailed, Some(ImageNotLoaded), None))
    else
      var final := OcrService.FinalPass(img);
      ReceiptSpec(e, userId, final.0, final.1, receiptId, s)
  }

  /** `process_image_message` once the OCR text is read: the length check, the OCR row, the pipeline. */
  function ReceiptSpec(e: Env, userId: int, text: string, meta: Tesseract.Meta, receiptId: Option<int>, s: Log): (Log, Outcome) {
    var conf := OcrConfidence(meta);
    if OcrService.Weak(text) then (s, Failure(Some(ImageSource), ReceiptUnreadable, None, Some(conf)))
    else
      var ocr := TS.OcrRecord(if receiptId.Some? then receiptId.value else 0, text, Some(meta));
      var linked := TS.Linked(receiptId).Some?;
      if linked && !e.accepts(TS.OcrRow(ocr)) then
        (s, Failure(Some(ImageSource), ImageFailed, Some(StoreError(TS.OcrNotSaved)), None))
      else
        var s1 := if linked then s.(ocrTexts := s.ocrTexts + [ocr]) else s;
        ReceiptRun(e, userId, text, conf, receiptId, s1)
  }

  /** The shared pipeline on a receipt's OCR text, once its text row is stored. */
  function ReceiptRun(e: Env, userId: int, text: string, conf: real, receiptId: Option<int>, s: Log): (Log, Outcome) {
    var run := Interpret(e, userId, ImageSource, text, Some(conf), receiptId, s);
    (run.0, Conclude(ImageSource, run.1, Some(conf), None))
  }

  /** A transcription too poor to use: missing, empty, or under 3 characters once stripped. */
  predicate Unclear(t: Option<string>) {
    t.None? || t.value == [] || |Strip(t.value)| < 3
  }

  /** `process_audio_message` */
  function AudioSpec(e: Env, userId: int, filePath: string, s: Log): (Log, Outcome) {
    var t := e.recordings(filePath);
    if Unclear(t) then (s, Failure(Some(AudioSource), VoiceUnclear, None, None))
    else
      var run := Interpret(e, userId, AudioSource, t.value, None, None, s);
      (run.0, Conclude(AudioSource, run.1, None, Some(t.value)))
  }

  /** A present, non-empty string argument. */
  predicate Given(v: Option<string>) {
    v.Some? && v.value != []
  }

  /** `process_message_background` */
  function BackgroundSpec(e: Env, userId: int, messageType: string, text: Option<string>, filePath: Option<string>,
                          receiptId: Option<int>, s: Log): (Log, Outcome)
  {
    if messageType == "text" && Given(text) then TextSpec(e, userId, text.value, s)
    else if messageType == "image" && Given(filePath) then ImageSpec(e, userId, filePath.value, receiptId, s)
    else if messageType == "audio" && Given(filePath) then AudioSpec(e, userId, filePath.value, s)
    else (s, Failure(None, UnknownMessageType(messageType), None, None))
  }

  // ---------------------------------------------------------------------
  // The worker

  class Worker {
    /** The model, files and clock; its `accepts` is superseded by the store's. */
    const world: Env
    const store: TS.Store
    /** The prompts sent to the model, in order. */
    var prompts: seq<string>

    constructor(world: Env)
      requires Faithful(world)
      ensures Valid()
      ensures this.world == world && fresh(store)
      ensures State() == Log([], [], [], [])
    {
      this.world := world;
      store := new TS.Store(world.accepts);
      prompts := [];
    }

    ghost predicate Valid() {
      Faithful(world)
    }

    /** The environment, refusing what the store refuses. */
    function env(): Env {
      world.(accepts := store.accepts)
    }

    function State(): Log
      reads this, store
    {
      Log(prompts, store.transactions, store.ocrTexts, store.llmResponses)
    }

    /** One iteration of the save loop: `run_sanity_checks`, then `save_transaction`. */
    method SaveOne(userId: int, tx: P.Transaction, llmId: int, receiptId: Option<int>)
      returns (r: Result<TS.TxSummary, TS.ServiceError>)
      requires Valid()
      modifies store
      ensures var rec := SavedRecord(env(), userId, tx, llmId, receiptId);
        if store.accepts(TS.TxRow(rec)) then
          store.transactions == old(store.transactions) + [rec] && r == Ok(Summary(|old(store.transactions)| + 1, rec))
        else store.transactions == old(store.transactions) && r == Err(TS.TransactionNotSaved)
      ensures store.ocrTexts == old(store.ocrTexts) && store.llmResponses == old(store.llmResponses)
    {
      var sanity := S.RunSanityChecks(TS.SanityInput(tx));
      r := store.SaveTransaction(userId, tx, Some(llmId), receiptId, Some(sanity), world.now, world.lib);
    }

    /** The `for parsed in parsed_transactions` loop. */
    method SaveAll(userId: int, cands: seq<P.Candidate>, llmId: int, receiptId: Option<int>)
      returns (r: Result<seq<TS.TxSummary>, Problem>)
      requires Valid()
      modifies store
      ensures (store.transactions, r)
        == SaveFrom(store.accepts, Records(env(), userId, cands, llmId, receiptId), 0, old(store.transactions), [])
      ensures store.ocrTexts == old(store.ocrTexts) && store.llmResponses == old(store.llmResponses)
    {
      ghost var recs := Records(env(), userId, cands, llmId, receiptId);
      var results: seq<TS.TxSummary> := [];
      var i := 0;
      while i < |cands|
        invariant 0 <= i <= |cands|
        invariant SaveFrom(store.accepts, recs, 0, old(store.transactions), [])
          == SaveFrom(store.accepts, recs, i, store.transactions, results)
        invariant store.ocrTexts == old(store.ocrTexts) && store.llmResponses == old(store.llmResponses)
        decreases |cands| - i
      {
        var saved := SaveOne(userId, cands[i].tx, llmId, receiptId);
        if saved.Err? {
          return Err(StoreError(saved.error));
        }
        results := results + [saved.value];
        i := i + 1;
      }
      r := Ok(results);
    }

    /** `parse_llm_response` on the model's reply. */
    method ParseReply(raw: string) returns (r: Result<seq<P.Candidate>, P.Fault>)
      requires Valid()
      ensures r == env().parse(raw)
    {
      r := P.ParseLlmResponse(raw, world.lib);
    }

    /** Prompt, model call, audit record, parse, save. */
    method RunInterpret(userId: int, source: Source, input: string, ocrConfidence: Option<real>, receiptId: Option<int>)
      returns (r: Result<seq<TS.TxSummary>, Problem>)
      requires Valid()
      modifies this, store
      ensures (State(), r) == Interpret(env(), userId, source, input, ocrConfidence, receiptId, old(State()))
    {
      var prompt := Prompts.BuildPrompt(env().templates, input, source.InputSource());
      prompts := prompts + [prompt];
      var reply := env().llm(prompt);
      if reply.None? {
        return Err(LlmApiError);
      }
      r := HandleReply(userId, source, input, prompt, reply.value, ocrConfidence, receiptId);
    }

    /** `save_llm_response`, `parse_llm_response` and the save loop. */
    method HandleReply(userId: int, source: Source, input: string, prompt: string, reply: LlmReply,
                       ocrConfidence: Option<real>, receiptId: Option<int>)
      returns (r: Result<seq<TS.TxSummary>, Problem>)
      requires Valid()
      modifies store
      ensures (State(), r) == Handle(env(), userId, source, input, prompt, reply, ocrConfidence, receiptId, old(State()))
    {
      var llmId := store.SaveLlmResponse(userId, source.InputSource(), input, prompt, reply.text,
                                         AuditMeta(reply.usage, ocrConfidence));
      if llmId.Err? {
        return Err(StoreError(llmId.error));
      }
      var parsed := ParseReply(reply.text);
      if parsed.Err? {
        return Err(ProblemOf(parsed.error));
      }
      r := SaveAll(userId, parsed.value, llmId.value, receiptId);
    }

    /** `process_text_message` */
    method ProcessText(userId: int, text: string) returns (r: Outcome)
      requires Valid()
      modifies this, store
      ensures (State(), r) == TextSpec(env(), userId, text, old(State()))
    {
      var res := RunInterpret(userId, TextSource, text, None, None);
      r := Conclude(TextSource, res, None, None);
    }

    /** `process_image_message`: two OCR passes at most, then the shared pipeline. */
    method ProcessImage(userId: int, filePath: string, receiptId: Option<int>) returns (r: Outcome)
      requires Valid()
      modifies this, store
      ensures (State(), r) == ImageSpec(env(), userId, filePath, receiptId, old(State()))
    {
      var img := env().images(filePath);
      if !img.loads {
        return Failure(Some(ImageSource), ImageFailed, Some(ImageNotLoaded), None);
      }
      var ocrText, ocrMeta := ReadReceipt(img);
      r := ProcessReceipt(userId, ocrText, ocrMeta, receiptId);
    }

    /** The OCR step of `process_image_message`: a second, aggressive pass when the first is weak. */
    static method ReadReceipt(img: OcrService.Image) returns (text: string, meta: Tesseract.Meta)
      ensures (text, meta) == OcrService.FinalPass(img)
    {
      text, meta := OcrService.ExtractOnce(img, false);
      if text == [] || |Strip(text)| < 5 {
        text, meta := OcrService.ExtractOnce(img, true);
      }
    }

    /** The rest of `process_image_message`, from the OCR text on. */
    method ProcessReceipt(userId: int, ocrText: string, ocrMeta: Tesseract.Meta, receiptId: Option<int>) returns (r: Outcome)
      requires Valid()
      modifies this, store
      ensures (State(), r) == ReceiptSpec(env(), userId, ocrText, ocrMeta, receiptId, old(State()))
    {
      var conf := OcrConfidence(ocrMeta);
      if ocrText == [] || |Strip(ocrText)| < 5 {
        return Failure(Some(ImageSource), ReceiptUnreadable, None, Some(conf));
      }
      var stored := StoreOcrText(receiptId, ocrText, ocrMeta);
      if !stored {
        return Failure(Some(ImageSource), ImageFailed, Some(StoreError(TS.OcrNotSaved)), None);
      }
      var res := RunInterpret(userId, ImageSource, ocrText, Some(conf), receiptId);
      r := Conclude(ImageSource, res, Some(conf), None);
    }

    /** `save_ocr_result` for a receipt linked to an upload; nothing is stored for an unlinked one. */
    method StoreOcrText(receiptId: Option<int>, ocrText: string, ocrMeta: Tesseract.Meta) returns (stored: bool)
      modifies store
      ensures var ocr := TS.OcrRecord(if receiptId.Some? then receiptId.value else 0, ocrText, Some(ocrMeta));
        var linked := TS.Linked(receiptId).Some?;
        && (stored <==> !linked || store.accepts(TS.OcrRow(ocr)))
        && State() == (if linked && stored then old(State()).(ocrTexts := old(State()).ocrTexts + [ocr]) else old(State()))
    {
      stored := true;
      if receiptId.Some? && receiptId.value != 0 {
        var saved := store.SaveOcrResult(receiptId.value, ocrText, Some(ocrMeta));
        stored := saved.Ok?;
      }
    }

    /** `process_audio_message` */
    method ProcessAudio(userId: int, filePath: string) returns (r: Outcome)
      requires Valid()
      modifies this, store
      ensures (State(), r) == AudioSpec(env(), userId, filePath, old(State()))
    {
      var transcript := env().recordings(filePath);
      if transcript.None? || transcript.value == [] || |Strip(transcript.value)| < 3 {
        return Failure(Some(AudioSource), VoiceUnclear, None, None);
      }
      var res := RunInterpret(userId, AudioSource, transcript.value, None, None);
      r := Conclude(AudioSource, res, None, Some(transcript.value));
    }

    /** `process_message_background` */
    method ProcessBackground(userId: int, messageType: string, text: Option<string>, filePath: Option<string>, receiptId: Option<int>)
      returns (r: Outcome)
      requires Valid()
      modifies this, store
      ensures (State(), r) == BackgroundSpec(env(), userId, messageType, text, filePath, receiptId, old(State()))
    {
      if messageType == "text" && text.Some? && text.value != [] {
        r := ProcessText(userId, text.value);
      } else if messageType == "image" && filePath.Some? && filePath.value != [] {
        r := ProcessImage(userId, filePath.value, receiptId);
      } else if messageType == "audio" && filePath.Some? && filePath.value != [] {
        r := ProcessAudio(userId, filePath.value);
      } else {
        r := Failure(None, UnknownMessageType(messageType), None, None);
      }
    }
  }

  // ---------------------------------------------------------------------
  // Properties

  /**
   * A saved row went through the sanity checks: its category is a valid
   * one, it is marked for review exactly when a check flagged it, it is
   * linked to the audit record, and it belongs to the user.
   */
  predicate Checked(rec: TS.TxRecord, userId: int, llmId: int) {
    && rec.userId == userId
    && rec.category in S.ValidCategories
    && rec.extra.sanity.Some?
    && (rec.needsReview <==> rec.extra.sanity.value.flags != [])
    && rec.llmResponseId == TS.Linked(Some(llmId))
  }

  lemma SavedRecordChecked(e: Env, userId: int, tx: P.Transaction, llmId: int, receiptId: Option<int>)
    requires Faithful(e)
    ensures Checked(SavedRecord(e, userId, tx, llmId, receiptId), userId, llmId)
  {
    TS.CheckedRecordValid(userId, tx, Some(llmId), receiptId, e.now, e.lib);
  }

  /** Every row the save loop would insert went through the sanity checks. */
  lemma RecordsChecked(e: Env, userId: int, cands: seq<P.Candidate>, llmId: int, receiptId: Option<int>)
    requires Faithful(e)
    ensures forall k :: 0 <= k < |cands| ==> Checked(Records(e, userId, cands, llmId, receiptId)[k], userId, llmId)
  {
    forall k | 0 <= k < |cands|
      ensures Checked(Records(e, userId, cands, llmId, receiptId)[k], userId, llmId)
    {
      SavedRecordChecked(e, userId, cands[k].tx, llmId, receiptId);
    }
  }

  /**
   * The save loop appends a prefix of its rows, in order; it either saves
   * them all, with consecutive ids, or stops with TransactionNotSaved at the
   * first row the store refused.
   */
  lemma {:induction false} SaveFromShape(accepts: TS.Row -> bool, recs: seq<TS.TxRecord>, i: nat,
                                         tx: seq<TS.TxRecord>, acc: seq<TS.TxSummary>)
    requires i <= |recs|
    ensures var (tx1, r) := SaveFrom(accepts, recs, i, tx, acc);
      && |tx| <= |tx1| <= |tx| + |recs| - i
      && tx1 == tx + recs[i..i + |tx1| - |tx|]
      && (forall k :: |tx| <= k < |tx1| ==> tx1[k] == recs[i + (k - |tx|)])
      && (r.Ok? ==> |tx1| == |tx| + |recs| - i && |r.value| == |acc| + |recs| - i && r.value[..|acc|] == acc)
      && (r.Ok? ==> forall k :: |acc| <= k < |r.value| ==> r.value[k] == Summary(|tx| + (k - |acc|) + 1, recs[i + (k - |acc|)]))
      && (r.Err? ==> r.error == StoreError(TS.TransactionNotSaved) && |tx1| < |tx| + |recs| - i
                     && !accepts(TS.TxRow(recs[i + |tx1| - |tx|])))
    decreases |recs| - i
  {
    if i < |recs| && accepts(TS.TxRow(recs[i])) {
      var tx' := tx + [recs[i]];
      var acc' := acc + [Summary(|tx| + 1, recs[i])];
      SaveFromShape(accepts, recs, i + 1, tx', acc');
      var (tx1, r) := SaveFrom(accepts, recs, i + 1, tx', acc');
      var n := |tx1| - |tx'|;
      assert recs[i..i + n + 1] == [recs[i]] + recs[i + 1..i + 1 + n];
      if r.Ok? {
        assert r.value[..|acc'|] == acc';
        assert r.value[..|acc|] == acc'[..|acc|] == acc;
        assert r.value[|acc|] == acc'[|acc|];
        forall k | |acc'| <= k < |r.value|
          ensures r.value[k] == Summary(|tx| + (k - |acc|) + 1, recs[i + (k - |acc|)])
        {
        }
      }
    }
  }

  /** When the store accepts every row, every row is saved. */
  lemma {:induction false} SaveFromComplete(accepts: TS.Row -> bool, recs: seq<TS.TxRecord>, i: nat,
                                            tx: seq<TS.TxRecord>, acc: seq<TS.TxSummary>)
    requires i <= |recs|
    requires forall row :: accepts(row)
    ensures SaveFrom(accepts, recs, i, tx, acc).1.Ok?
    decreases |recs| - i
  {
    if i < |recs| {
      SaveFromComplete(accepts, recs, i + 1, tx + [recs[i]], acc + [Summary(|tx| + 1, recs[i])]);
    }
  }

  /**
   * One run of the pipeline sends exactly one prompt, writes no OCR row and
   * at most one audit row, and only appends to the transaction table.
   */
  lemma InterpretLog(e: Env, userId: int, source: Source, input: string, ocrConfidence: Option<real>,
                     receiptId: Option<int>, s: Log)
    ensures var s1 := Interpret(e, userId, source, input, ocrConfidence, receiptId, s).0;
      && s1.prompts == s.prompts + [Prompts.BuildPrompt(e.templates, input, source.InputSource())]
      && s1.ocrTexts == s.ocrTexts
      && (s1.llmResponses == s.llmResponses || (|s1.llmResponses| == |s.llmResponses| + 1
                                                && s1.llmResponses[..|s.llmResponses|] == s.llmResponses))
  {
    var prompt := Prompts.BuildPrompt(e.templates, input, source.InputSource());
    if e.llm(prompt).Some? {
      HandleLog(e, userId, source, input, prompt, e.llm(prompt).value, ocrConfidence, receiptId, s.(prompts := s.prompts + [prompt]));
    }
  }

  lemma HandleLog(e: Env, userId: int, source: Source, input: string, prompt: string, reply: LlmReply,
                  ocrConfidence: Option<real>, receiptId: Option<int>, s: Log)
    ensures var s1 := Handle(e, userId, source, input, prompt, reply, ocrConfidence, receiptId, s).0;
      && s1.prompts == s.prompts
      && s1.ocrTexts == s.ocrTexts
      && (s1.llmResponses == s.llmResponses || (|s1.llmResponses| == |s.llmResponses| + 1
                                                && s1.llmResponses[..|s.llmResponses|] == s.llmResponses))
  {
    var s1 := Handle(e, userId, source, input, prompt, reply, ocrConfidence, receiptId, s).0;
    if s1.llmResponses != s.llmResponses {
      assert s1.llmResponses[..|s.llmResponses|] == s.llmResponses;
    }
  }

  /**
   * The rows one run of the pipeline may append: those of the parsed
   * candidates, once the reply was obtained and recorded.
   */
  function Planned(e: Env, userId: int, source: Source, input: string, ocrConfidence: Option<real>,
                   receiptId: Option<int>, s: Log): seq<TS.TxRecord>
  {
    var prompt := Prompts.BuildPrompt(e.templates, input, source.InputSource());
    match e.llm(prompt)
    case None => []
    case Some(reply) => PlannedAfter(e, userId, source, input, prompt, reply, ocrConfidence, receiptId, s)
  }

  function PlannedAfter(e: Env, userId: int, source: Source, input: string, prompt: string, reply: LlmReply,
                        ocrConfidence: Option<real>, receiptId: Option<int>, s: Log): seq<TS.TxRecord>
  {
    if !e.accepts(TS.LlmRow(AuditRecord(userId, source, input, prompt, reply, ocrConfidence))) then []
    else
      match e.parse(reply.text)
      case Err(_) => []
      case Ok(cands) => Records(e, userId, cands, |s.llmResponses| + 1, receiptId)
  }

  /** The transaction table after one run is what the save loop makes of the planned rows. */
  lemma InterpretThroughSave(e: Env, userId: int, source: Source, input: string, ocrConfidence: Option<real>,
                             receiptId: Option<int>, s: Log)
    ensures var (s1, r) := Interpret(e, userId, source, input, ocrConfidence, receiptId, s);
      var saved := SaveFrom(e.accepts, Planned(e, userId, source, input, ocrConfidence, receiptId, s), 0, s.transactions, []);
      s1.transactions == saved.0 && (r.Ok? ==> r == saved.1)
  {
    var prompt := Prompts.BuildPrompt(e.templates, input, source.InputSource());
    if e.llm(prompt).Some? {
      HandleThroughSave(e, userId, source, input, prompt, e.llm(prompt).value, ocrConfidence, receiptId, s.(prompts := s.prompts + [prompt]));
    }
  }

  lemma HandleThroughSave(e: Env, userId: int, source: Source, input: string, prompt: string, reply: LlmReply,
                          ocrConfidence: Option<real>, receiptId: Option<int>, s: Log)
    ensures var (s1, r) := Handle(e, userId, source, input, prompt, reply, ocrConfidence, receiptId, s);
      var saved := SaveFrom(e.accepts, PlannedAfter(e, userId, source, input, prompt, reply, ocrConfidence, receiptId, s), 0, s.transactions, []);
      s1.transactions == saved.0 && (r.Ok? ==> r == saved.1)
  {
  }

  /**
   * One run of the pipeline appends a prefix of the planned rows; a success
   * appended all of them, one per transaction it reports.
   */
  lemma InterpretAppends(e: Env, userId: int, source: Source, input: string, ocrConfidence: Option<real>,
                         receiptId: Option<int>, s: Log)
    ensures var (s1, r) := Interpret(e, userId, source, input, ocrConfidence, receiptId, s);
      var planned := Planned(e, userId, source, input, ocrConfidence, receiptId, s);
      && |s.transactions| <= |s1.transactions| <= |s.transactions| + |planned|
      && (forall k :: |s.transactions| <= k < |s1.transactions| ==> s1.transactions[k] == planned[k - |s.transactions|])
      && s1.transactions[..|s.transactions|] == s.transactions
      && (r.Ok? ==> |s1.transactions| == |s.transactions| + |planned| == |s.transactions| + |r.value|)
  {
    var (s1, r) := Interpret(e, userId, source, input, ocrConfidence, receiptId, s);
    InterpretThroughSave(e, userId, source, input, ocrConfidence, receiptId, s);
    SavedPrefix(e.accepts, Planned(e, userId, source, input, ocrConfidence, receiptId, s), s.transactions, s1.transactions, r);
  }

  /** What SaveFromShape says about a whole run of the save loop, for a table and result known to come from it. */
  lemma SavedPrefix(accepts: TS.Row -> bool, planned: seq<TS.TxRecord>, tx: seq<TS.TxRecord>,
                    tx1: seq<TS.TxRecord>, r: Result<seq<TS.TxSummary>, Problem>)
    requires tx1 == SaveFrom(accepts, planned, 0, tx, []).0
    requires r.Ok? ==> r == SaveFrom(accepts, planned, 0, tx, []).1
    ensures |tx| <= |tx1| <= |tx| + |planned|
    ensures forall k :: |tx| <= k < |tx1| ==> tx1[k] == planned[k - |tx|]
    ensures tx1[..|tx|] == tx
    ensures r.Ok? ==> |tx1| == |tx| + |planned| == |tx| + |r.value|
  {
    SaveFromShape(accepts, planned, 0, tx, []);
  }

  /**
   * The rows one run of the pipeline appends went through the sanity checks
   * and point at the audit row it wrote.
   */
  lemma InterpretSavesChecked(e: Env, userId: int, source: Source, input: string, ocrConfidence: Option<real>,
                              receiptId: Option<int>, s: Log)
    requires Faithful(e)
    ensures var s1 := Interpret(e, userId, source, input, ocrConfidence, receiptId, s).0;
      forall k :: |s.transactions| <= k < |s1.transactions| ==> Checked(s1.transactions[k], userId, |s1.llmResponses|)
  {
    var s1 := Interpret(e, userId, source, input, ocrConfidence, receiptId, s).0;
    var planned := Planned(e, userId, source, input, ocrConfidence, receiptId, s);
    InterpretAppends(e, userId, source, input, ocrConfidence, receiptId, s);
    PlannedChecked(e, userId, source, input, ocrConfidence, receiptId, s);
    PlannedAudited(e, userId, source, input, ocrConfidence, receiptId, s);
    forall k | |s.transactions| <= k < |s1.transactions|
      ensures Checked(s1.transactions[k], userId, |s1.llmResponses|)
    {
      assert s1.transactions[k] == planned[k - |s.transactions|];
    }
  }

  lemma PlannedChecked(e: Env, userId: int, source: Source, input: string, ocrConfidence: Option<real>,
                       receiptId: Option<int>, s: Log)
    requires Faithful(e)
    ensures var planned := Planned(e, userId, source, input, ocrConfidence, receiptId, s);
      forall j :: 0 <= j < |planned| ==> Checked(planned[j], userId, |s.llmResponses| + 1)
  {
    var prompt := Prompts.BuildPrompt(e.templates, input, source.InputSource());
    if e.llm(prompt).Some? && e.parse(e.llm(prompt).value.text).Ok? {
      RecordsChecked(e, userId, e.parse(e.llm(prompt).value.text).value, |s.llmResponses| + 1, receiptId);
    }
  }

  /** Rows are planned only after the audit row is written. */
  lemma PlannedAudited(e: Env, userId: int, source: Source, input: string, ocrConfidence: Option<real>,
                       receiptId: Option<int>, s: Log)
    ensures Planned(e, userId, source, input, ocrConfidence, receiptId, s) != [] ==>
      |Interpret(e, userId, source, input, ocrConfidence, receiptId, s).0.llmResponses| == |s.llmResponses| + 1
  {
  }

  /**
   * When the reply was recorded but could not be parsed, exactly one audit
   * row is added and no transaction: the failure is still auditable.
   */
  lemma ParserErrorAudited(e: Env, userId: int, source: Source, input: string, ocrConfidence: Option<real>,
                           receiptId: Option<int>, s: Log)
    requires var prompt := Prompts.BuildPrompt(e.templates, input, source.InputSource());
      && e.llm(prompt).Some?
      && e.accepts(TS.LlmRow(AuditRecord(userId, source, input, prompt, e.llm(prompt).value, ocrConfidence)))
      && e.parse(e.llm(prompt).value.text).Err?
    ensures var (s1, r) := Interpret(e, userId, source, input, ocrConfidence, receiptId, s);
      && |s1.llmResponses| == |s.llmResponses| + 1
      && s1.llmResponses[..|s.llmResponses|] == s.llmResponses
      && s1.llmResponses[|s.llmResponses|].rawOutput == e.llm(Prompts.BuildPrompt(e.templates, input, source.InputSource())).value.text
      && s1.transactions == s.transactions
      && r.Err? && (r.error.ParserError? || r.error == AttributeError)
  {
    var s1 := Interpret(e, userId, source, input, ocrConfidence, receiptId, s).0;
    assert s1.llmResponses[..|s.llmResponses|] == s.llmResponses;
  }

  /** With a working model and store, a parsable reply saves every transaction it holds. */
  lemma ParsedReplySaved(e: Env, userId: int, source: Source, input: string, ocrConfidence: Option<real>,
                         receiptId: Option<int>, s: Log)
    requires forall row :: e.accepts(row)
    requires var prompt := Prompts.BuildPrompt(e.templates, input, source.InputSource());
      e.llm(prompt).Some? && e.parse(e.llm(prompt).value.text).Ok?
    ensures var prompt := Prompts.BuildPrompt(e.templates, input, source.InputSource());
      var (s1, r) := Interpret(e, userId, source, input, ocrConfidence, receiptId, s);
      && r.Ok?
      && |r.value| == |e.parse(e.llm(prompt).value.text).value|
      && |s1.transactions| == |s.transactions| + |r.value|
  {
    var planned := Planned(e, userId, source, input, ocrConfidence, receiptId, s);
    InterpretThroughSave(e, userId, source, input, ocrConfidence, receiptId, s);
    SaveFromComplete(e.accepts, planned, 0, s.transactions, []);
    SaveFromShape(e.accepts, planned, 0, s.transactions, []);
  }

  /** A receipt whose final OCR text is too short fails with its confidence, without a model call or any row. */
  lemma UnreadableReceiptSkipsModel(e: Env, userId: int, filePath: string, receiptId: Option<int>, s: Log)
    requires e.images(filePath).loads && OcrService.Weak(OcrService.FinalPass(e.images(filePath)).0)
    ensures ImageSpec(e, userId, filePath, receiptId, s)
      == (s, Failure(Some(ImageSource), ReceiptUnreadable, None, Some(OcrConfidence(OcrService.FinalPass(e.images(filePath)).1))))
  {
  }

  /** An unclear voice note fails without a model call or any row. */
  lemma UnclearVoiceSkipsModel(e: Env, userId: int, filePath: string, s: Log)
    requires Unclear(e.recordings(filePath))
    ensures AudioSpec(e, userId, filePath, s) == (s, Failure(Some(AudioSource), VoiceUnclear, None, None))
  {
  }

  /** A text message is sent to the model once, in the text template. */
  lemma TextCallsModelOnce(e: Env, userId: int, text: string, s: Log)
    ensures TextSpec(e, userId, text, s).0.prompts == s.prompts + [Prompts.TextPrompt(e.templates, text)]
  {
    InterpretLog(e, userId, TextSource, text, None, None, s);
  }

  /** A photo reaches the model at most once, with its final OCR text in the receipt template. */
  lemma ImageCallsModelAtMostOnce(e: Env, userId: int, filePath: string, receiptId: Option<int>, s: Log)
    ensures var s1 := ImageSpec(e, userId, filePath, receiptId, s).0;
      s1.prompts == s.prompts
      || s1.prompts == s.prompts + [Prompts.ReceiptPrompt(e.templates, OcrService.FinalPass(e.images(filePath)).0)]
  {
    var img := e.images(filePath);
    if img.loads {
      var final := OcrService.FinalPass(img);
      ReceiptCallsModelAtMostOnce(e, userId, final.0, final.1, receiptId, s);
    }
  }

  lemma ReceiptCallsModelAtMostOnce(e: Env, userId: int, text: string, meta: Tesseract.Meta, receiptId: Option<int>, s: Log)
    ensures var s1 := ReceiptSpec(e, userId, text, meta, receiptId, s).0;
      s1.prompts == s.prompts || s1.prompts == s.prompts + [Prompts.ReceiptPrompt(e.templates, text)]
  {
    if !OcrService.Weak(text) {
      var ocr := TS.OcrRecord(if receiptId.Some? then receiptId.value else 0, text, Some(meta));
      var s1 := if TS.Linked(receiptId).Some? then s.(ocrTexts := s.ocrTexts + [ocr]) else s;
      InterpretLog(e, userId, ImageSource, text, Some(OcrConfidence(meta)), receiptId, s1);
    }
  }

  /** A voice note reaches the model at most once, with its transcription in the audio template. */
  lemma AudioCallsModelAtMostOnce(e: Env, userId: int, filePath: string, s: Log)
    ensures var s1 := AudioSpec(e, userId, filePath, s).0;
      s1.prompts == s.prompts
      || (e.recordings(filePath).Some? && s1.prompts == s.prompts + [Prompts.AudioPrompt(e.templates, e.recordings(filePath).value)])
  {
    if !Unclear(e.recordings(filePath)) {
      InterpretLog(e, userId, AudioSource, e.recordings(filePath).value, None, None, s);
    }
  }

  /** A message without the input its type needs, or of an unknown type, changes nothing. */
  lemma MissingInputRejected(e: Env, userId: int, messageType: string, text: Option<string>, filePath: Option<string>,
                             receiptId: Option<int>, s: Log)
    requires !(messageType == "text" && Given(text))
    requires !(messageType in {"image", "audio"} && Given(filePath))
    ensures BackgroundSpec(e, userId, messageType, text, filePath, receiptId, s)
      == (s, Failure(None, UnknownMessageType(messageType), None, None))
  {
  }

  /**
   * Only text messages tell a model outage apart from an internal error;
   * photos and voice notes show their generic failure for both.
   */
  lemma OutageNotices()
    ensures NoticeFor(TextSource, LlmApiError) != NoticeFor(TextSource, StoreError(TS.TransactionNotSaved))
    ensures NoticeFor(ImageSource, LlmApiError) == NoticeFor(ImageSource, StoreError(TS.TransactionNotSaved))
    ensures NoticeFor(AudioSource, LlmApiError) == NoticeFor(AudioSource, StoreError(TS.TransactionNotSaved))
  {
  }

  /** A receipt's OCR row is written only for a truthy receipt id. */
  lemma OcrRowOnlyWithReceipt(e: Env, userId: int, text: string, meta: Tesseract.Meta, receiptId: Option<int>, s: Log)
    requires TS.Linked(receiptId).None?
    ensures ReceiptSpec(e, userId, text, meta, receiptId, s).0.ocrTexts == s.ocrTexts
  {
    if !OcrService.Weak(text) {
      InterpretLog(e, userId, ImageSource, text, Some(OcrConfidence(meta)), receiptId, s);
    }
  }
}
