/**
 * The bot's Telegram front end (app/webhook/telegram.py): which handler an
 * update goes to, how a command line is split, the period defaults, the
 * credit gate in front of every model-backed feature, the routing of
 * classified free text, the reply for a processed message, and the
 * health-score colour bands. Sending messages is outside the model: each
 * handler is modelled by the action or reply it decides on.
 */
module Telegram {
  import opened Wrappers
  import opened Text
  import opened Json
  import Plans
  import S = Subscription
  import IC = IntentClassifier
  import W = Worker
  import TS = TransactionService
  import P = LlmParser
  import H = History
  import A = Analysis
  import Prompts
  import Payment
  import Helpers

  // ---------------------------------------------------------------------
  // _handle_update

  /** The handler an update goes to. */
  datatype Route =
    | CommandRoute(text: string)
    | PhotoRoute(isDocument: bool)
    | AudioRoute
    | TextRoute(text: string)
    | Unsupported
    | Crashed

  /** `message.get("text", "")` */
  function TextOf(message: map<string, Json>): Json {
    Get(message, "text", JStr(""))
  }

  /** A document whose `mime_type` starts with "image/"; None where reading it raises. */
  function ImageDocument(doc: Json): (r: Option<bool>)
    ensures r.Some? <==> doc.JObj? && Get(doc.fields, "mime_type", JStr("")).JStr?
    ensures r.Some? ==> (r.value <==> StartsWith(Get(doc.fields, "mime_type", JStr("")).s, "image/"))
  {
    if !doc.JObj? then None
    else
      var mime := Get(doc.fields, "mime_type", JStr(""));
      if !mime.JStr? then None else Some(StartsWith(mime.s, "image/"))
  }

  /**
   * `_handle_update`: a "/" text is a command whatever else the message
   * carries; then a photo, then a voice note or audio file, then any other
   * non-empty text, then a document with an image type; anything else is
   * refused. A message whose parts have the wrong type ends in the
   * handler's generic error.
   */
  function RouteUpdate(message: map<string, Json>): (r: Route)
    ensures r.CommandRoute? <==> TextOf(message).JStr? && StartsWith(TextOf(message).s, "/")
    ensures r == PhotoRoute(false) <==>
      TextOf(message).JStr? && !StartsWith(TextOf(message).s, "/") && "photo" in message
    ensures r == AudioRoute <==>
      TextOf(message).JStr? && !StartsWith(TextOf(message).s, "/") && "photo" !in message
      && ("voice" in message || "audio" in message)
    ensures r.TextRoute? <==>
      TextOf(message).JStr? && !StartsWith(TextOf(message).s, "/") && "photo" !in message
      && "voice" !in message && "audio" !in message && TextOf(message).s != []
    ensures r == PhotoRoute(true) <==>
      TextOf(message) == JStr([]) && "photo" !in message && "voice" !in message && "audio" !in message
      && "document" in message && ImageDocument(message["document"]) == Some(true)
    ensures r.CommandRoute? ==> r.text == TextOf(message).s
    ensures r.TextRoute? ==> r.text == TextOf(message).s
  {
    var text := TextOf(message);
    if !text.JStr? then Crashed
    else if StartsWith(text.s, "/") then CommandRoute(text.s)
    else if "photo" in message then PhotoRoute(false)
    else if "voice" in message || "audio" in message then AudioRoute
    else if text.s != [] then TextRoute(text.s)
    else if "document" in message then
      match ImageDocument(message["document"])
      case None => Crashed
      case Some(isImage) => if isImage then PhotoRoute(true) else Unsupported
    else Unsupported
  }

  // ---------------------------------------------------------------------
  // _handle_command

  /** The command handlers. */
  datatype Command =
    | HelpCmd | StatusCmd | UpgradeCmd | BuyCmd | HistoryCmd | ExportCmd | InsightCmd
    | PredictCmd | SavingCmd | HealthCmd | SimulateCmd | AnalysisCmd | UnknownCmd

  const KnownCommands: set<string> := {
    "/start", "/help", "/status", "/upgrade", "/buy", "/history", "/export",
    "/insight", "/predict", "/saving", "/health", "/simulate", "/analysis"}

  /** The handler of a command word; anything else is answered "Perintah tidak dikenali". */
  function CommandOf(name: string): (c: Command)
    ensures c == HelpCmd <==> name in {"/start", "/help"}
    ensures c == UnknownCmd <==> name !in KnownCommands
  {
    if name in {"/start", "/help"} then HelpCmd
    else if name == "/status" then StatusCmd
    else if name == "/upgrade" then UpgradeCmd
    else if name == "/buy" then BuyCmd
    else if name == "/history" then HistoryCmd
    else if name == "/export" then ExportCmd
    else if name == "/insight" then InsightCmd
    else if name == "/predict" then PredictCmd
    else if name == "/saving" then SavingCmd
    else if name == "/health" then HealthCmd
    else if name == "/simulate" then SimulateCmd
    else if name == "/analysis" then AnalysisCmd
    else UnknownCmd
  }

  const BotMention: string := "@finot_bot"

  /**
   * The command word and its arguments: the first whitespace-separated
   * token, lower-cased, with the bot's mention removed, and the tokens
   * after it; None where there is no token and indexing raises.
   */
  function ParseCommand(text: string): (r: Option<(string, seq<string>)>)
    ensures r.None? <==> Words(text) == []
    ensures r.Some? ==> r.value == (CommandWord(Words(text)[0]), Words(text)[1..])
  {
    var parts := Words(text);
    if parts == [] then None
    else Some((CommandWord(parts[0]), parts[1..]))
  }

  /** `text.strip().split()` */
  function Words(text: string): seq<string> {
    Split(Strip(text))
  }

  /** A token as a command word: lower-cased, the bot's mention removed. */
  function CommandWord(token: string): string {
    Replace(Lower(token), BotMention, "")
  }

  /** A single word with no whitespace splits into itself and no arguments. */
  lemma SingleWord(w: string)
    requires w != [] && forall i :: 0 <= i < |w| ==> !IsSpace(w[i])
    ensures Split(Strip(w)) == [w]
  {
    StripUnpadded(w);
    assert LStrip(w) == w;
    var t := TakeWord(w);
    assert |t| == |w|;
    assert t == w;
    assert w[|w|..] == [];
  }

  /** A command addressed to the bot in capitals reaches the same handler. */
  lemma MentionAndCaseIgnored()
    ensures ParseCommand("/Help" + BotMention) == Some(("/help", []))
    ensures CommandOf("/help") == HelpCmd
  {
    var t := "/Help" + BotMention;
    SingleWord(t);
    LoweredMention();
    MentionRemoved();
    assert [t][1..] == [];
  }

  lemma LoweredMention()
    ensures Lower("/Help" + BotMention) == "/help" + BotMention
  {
    assert Lower("/Help") == "/help";
    LowerOfNonUpper(BotMention);
    LowerAppend("/Help", BotMention);
  }

  lemma MentionRemoved()
    ensures Replace("/help" + BotMention, BotMention, "") == "/help"
  {
    ReplaceAfter("/help", BotMention, BotMention, "");
    ReplaceWhole(BotMention, "");
    assert "/help" + "" == "/help";
  }

  // ---------------------------------------------------------------------
  // Period defaults

  const Periods: set<string> := {"today", "week", "month", "year"}

  /** `args[0].lower() if args else default`, replaced by the default when it is not a period. */
  function PeriodArg(args: seq<string>, default: string): (p: string)
    requires default in Periods
    ensures p in Periods
    ensures args != [] && Lower(args[0]) in Periods ==> p == Lower(args[0])
    ensures (args == [] || Lower(args[0]) !in Periods) ==> p == default
  {
    if args != [] && Lower(args[0]) in Periods then Lower(args[0]) else default
  }

  /** `/history`: a week unless a known period is named. */
  function HistoryPeriod(args: seq<string>): string {
    PeriodArg(args, "week")
  }

  /** `/export`: a month unless a known period is named. */
  function ExportPeriod(args: seq<string>): string {
    PeriodArg(args, "month")
  }

  /** Whatever the user types, the period handed to the history query is one it accepts. */
  lemma HistoryPeriodAccepted(args: seq<string>, now: int)
    ensures H.PeriodRange(HistoryPeriod(args), now).Ok?
    ensures H.PeriodRange(ExportPeriod(args), now).Ok?
    ensures args == [] ==> HistoryPeriod(args) == "week" && ExportPeriod(args) == "month"
  {
  }

  /** `/analysis`: monthly only when asked for by name, weekly otherwise. */
  function AnalysisMonthly(args: seq<string>): (monthly: bool)
    ensures monthly <==> args != [] && Lower(args[0]) == "monthly"
  {
    args != [] && Lower(args[0]) == "monthly"
  }

  /** `/buy`: the plan named, when it is one that can be bought. */
  function BuyPlan(args: seq<string>): (plan: Option<string>)
    ensures plan.Some? <==> args != [] && Lower(args[0]) in {"pro", "elite"}
    ensures plan.Some? ==> plan.value == Lower(args[0])
  {
    if args != [] && Lower(args[0]) in {"pro", "elite"} then Some(Lower(args[0])) else None
  }

  /** A plan `/buy` accepts is one the payment service takes an order for. */
  lemma BuyPlanOrderable(args: seq<string>, payments: seq<Payment.PaymentRow>, userId: int, now: int, nonce: string)
    requires BuyPlan(args).Some?
    ensures Payment.OrderSpec(payments, userId, BuyPlan(args).value, now, nonce).1.Ok?
  {
  }

  // ---------------------------------------------------------------------
  // check_credits_and_consume

  /** Why the gate refused. */
  datatype Denial =
    | PremiumOnly
    | FreeCreditsUsed
    | WeeklyCreditsUsed(remaining: int, total: int)
    | ConsumeFailed

  /** The gate's answer: `allowed` with the credits left, or the refusal shown to the user. */
  datatype Access = Allowed(creditsRemaining: int) | Denied(reason: Denial)

  /** `feature and not check_feature_access(plan, feature)` */
  predicate FeatureLocked(plan: string, feature: Option<string>) {
    feature.Some? && feature.value != [] && !S.FeatureAccess(plan, feature.value)
  }

  /**
   * `check_credits_and_consume`: the plan (which may downgrade the user),
   * then the feature, then the credit check, then a charge of one.
   */
  function AccessSpec(a: S.Accounts, userId: int, feature: Option<string>, now: int): (S.Accounts, Access) {
    var (a1, plan) := S.PlanSpec(a, userId, now);
    if FeatureLocked(plan, feature) then (a1, Denied(PremiumOnly))
    else
      var (a2, info) := S.CreditsSpec(a1, userId, now);
      if !info.hasCredits then
        (a2, Denied(if plan == "free" then FreeCreditsUsed else WeeklyCreditsUsed(info.remaining, info.total)))
      else
        var (a3, ok) := S.ConsumeSpec(a2, userId, 1, now);
        if !ok then (a3, Denied(ConsumeFailed)) else (a3, Allowed(info.remaining - 1))
  }

  /** `check_credits_and_consume` against the account tables. */
  method CheckCreditsAndConsume(db: S.AccountDb, userId: int, feature: Option<string>, now: int) returns (r: Access)
    modifies db
    ensures (db.State(), r) == AccessSpec(old(db.State()), userId, feature, now)
  {
    var plan := db.GetUserPlan(userId, now);
    if FeatureLocked(plan, feature) {
      return Denied(PremiumOnly);
    }
    var credits := db.CheckAiCredits(userId, now);
    if !credits.hasCredits {
      return Denied(if plan == "free" then FreeCreditsUsed else WeeklyCreditsUsed(credits.remaining, credits.total));
    }
    var consumed := db.ConsumeAiCredit(userId, 1, now);
    if !consumed {
      return Denied(ConsumeFailed);
    }
    r := Allowed(credits.remaining - 1);
  }

  /**
   * The feature is checked before any credit: a locked feature is refused
   * as premium-only even with credits to spare, and the credit table is
   * left as it was.
   */
  lemma LockedFeatureChargesNothing(a: S.Accounts, userId: int, feature: Option<string>, now: int)
    ensures AccessSpec(a, userId, feature, now).1 == Denied(PremiumOnly)
      <==> FeatureLocked(S.PlanSpec(a, userId, now).1, feature)
    ensures AccessSpec(a, userId, feature, now).1 == Denied(PremiumOnly) ==>
      AccessSpec(a, userId, feature, now).0.credits == a.credits
  {
    S.PlanDowngrade(a, userId, now);
  }

  /**
   * Past the feature check, the gate lets the user through exactly when the
   * credit check reports credits; it then charges one credit to the row it
   * reported on and reports one fewer left; a refusal charges nothing.
   */
  lemma GateChargesOne(a: S.Accounts, userId: int, feature: Option<string>, now: int)
    requires !FeatureLocked(S.PlanSpec(a, userId, now).1, feature)
    ensures var (a2, info) := S.CreditsSpec(S.PlanSpec(a, userId, now).0, userId, now);
      var (a3, access) := AccessSpec(a, userId, feature, now);
      && (access.Allowed? <==> info.hasCredits)
      && (access.Allowed? ==> access.creditsRemaining == info.remaining - 1 >= 0
                              && exists i :: S.ChargedAt(a2, a3, i, userId, 1, info))
      && (access.Denied? ==> a3 == a2 && access.reason != ConsumeFailed)
  {
    var a1 := S.PlanSpec(a, userId, now).0;
    var (a2, info) := S.CreditsSpec(a1, userId, now);
    S.CreditsIdempotent(a1, userId, now);
    S.ConsumeCharges(a2, userId, 1, now);
    S.CreditsReport(a1, userId, now);
  }

  // ---------------------------------------------------------------------
  // _handle_photo, _handle_predict_command

  /** The photo handler's gate: receipt scanning must be in the plan before any credit is asked for. */
  datatype PhotoGate = ScanLocked | PhotoGated(access: Access)

  function PhotoSpec(a: S.Accounts, userId: int, now: int): (S.Accounts, PhotoGate) {
    var (a1, plan) := S.PlanSpec(a, userId, now);
    if !S.FeatureAccess(plan, "scan_receipt") then (a1, ScanLocked)
    else
      var (a2, access) := AccessSpec(a1, userId, None, now);
      (a2, PhotoGated(access))
  }

  /** `_handle_photo` up to the download. */
  method HandlePhotoGate(db: S.AccountDb, userId: int, now: int) returns (g: PhotoGate)
    modifies db
    ensures (db.State(), g) == PhotoSpec(old(db.State()), userId, now)
  {
    var plan := db.GetUserPlan(userId, now);
    if !S.FeatureAccess(plan, "scan_receipt") {
      return ScanLocked;
    }
    var access := CheckCreditsAndConsume(db, userId, None, now);
    g := PhotoGated(access);
  }

  /** A user on the free plan is refused a scan before any credit is read or spent. */
  lemma FreePhotoCostsNothing(a: S.Accounts, userId: int, now: int)
    ensures PhotoSpec(a, userId, now).1 == ScanLocked <==> S.PlanSpec(a, userId, now).1 !in {"pro", "elite"}
    ensures PhotoSpec(a, userId, now).1 == ScanLocked ==> PhotoSpec(a, userId, now).0.credits == a.credits
  {
    S.PlanDowngrade(a, userId, now);
    Plans.FeaturesMonotone();
    assert Plans.ScanReceipt in Plans.ProPlan.features;
  }

  /** `int(...)` of the balance after dropping separators and expanding "rb" and "jt". */
  function PredictBalance(arg: string): Option<int> {
    PyInt(Replace(Replace(Replace(Replace(arg, ".", ""), ",", ""), "rb", "000"), "jt", "000000"))
  }

  datatype PredictStep = PredictUsage | BadBalance | PredictDenied(reason: Denial) | PredictRun(balance: int)

  /** `_handle_predict_command` up to the model call. */
  function PredictSpec(a: S.Accounts, userId: int, args: seq<string>, now: int): (S.Accounts, PredictStep) {
    if args == [] then (a, PredictUsage)
    else
      match PredictBalance(args[0])
      case None => (a, BadBalance)
      case Some(balance) =>
        var (a1, access) := AccessSpec(a, userId, None, now);
        if access.Denied? then (a1, PredictDenied(access.reason)) else (a1, PredictRun(balance))
  }

  /** A missing or unreadable balance is answered before the gate: nothing is charged or downgraded. */
  lemma PredictRejectsBeforeCharging(a: S.Accounts, userId: int, args: seq<string>, now: int)
    ensures PredictSpec(a, userId, args, now).1 in {PredictUsage, BadBalance} ==> PredictSpec(a, userId, args, now).0 == a
    ensures PredictSpec(a, userId, args, now).1 in {PredictUsage, BadBalance}
      <==> args == [] || PredictBalance(args[0]).None?
    ensures PredictSpec(a, userId, args, now).1.PredictRun? ==> AccessSpec(a, userId, None, now).1.Allowed?
  {
  }

  // ---------------------------------------------------------------------
  // _handle_text

  /** What `_handle_text` does with a classified message. */
  datatype TextAction =
    | ShowHelp | ShowHistory(period: string) | ShowExport(period: string) | RunInsight | PredictHint
    | RunSaving | RunHealth | SimulateHint | RunAnalysis(monthly: bool) | ShowUpgrade | ShowStatus
    | SmallTalkReply | ProcessTransaction | TextCrashed

  /**
   * `classification.get("period", default) or default` handed on as the
   * only argument; a truthy period that is not a string makes the
   * handler's `.lower()` raise.
   */
  function PeriodFromIntent(period: Json, default: string): (r: Option<string>)
    requires default in Periods
    ensures r.Some? ==> r.value in Periods
    ensures !Truthy(period) ==> r == Some(default)
    ensures r.None? <==> Truthy(period) && !period.JStr?
  {
    if !Truthy(period) then Some(default)
    else if period.JStr? then Some(PeriodArg([period.s], default))
    else None
  }

  /** `_handle_text` */
  function RouteIntent(c: IC.Classification): (r: TextAction)
    ensures c.intent in {IC.Transaction, IC.Unknown} ==> r == ProcessTransaction
    ensures r == ProcessTransaction <==> c.intent in {IC.Transaction, IC.Unknown}
    ensures c.intent == IC.Analysis ==> r == RunAnalysis(c.period == JStr("month"))
    ensures r.ShowHistory? ==> r.period in Periods
  {
    match c.intent
    case Help => ShowHelp
    case History =>
      (match PeriodFromIntent(c.period, "week") case Some(p) => ShowHistory(p) case None => TextCrashed)
    case Export =>
      (match PeriodFromIntent(c.period, "month") case Some(p) => ShowExport(p) case None => TextCrashed)
    case Insight => RunInsight
    case Prediction => PredictHint
    case SavingRec => RunSaving
    case HealthScore => RunHealth
    case Simulation => SimulateHint
    case Analysis => RunAnalysis(c.period == JStr("month"))
    case Upgrade => ShowUpgrade
    case Status => ShowStatus
    case SmallTalk => SmallTalkReply
    case _ => ProcessTransaction
  }

  /**
   * The confidence never changes the route, and when the classifier fails
   * or cannot read its reply the message is processed as a transaction.
   */
  lemma ConfidenceIgnored(c: IC.Classification, x: real)
    ensures RouteIntent(c.(confidence := x)) == RouteIntent(c)
    ensures RouteIntent(IC.Fallback) == ProcessTransaction
    ensures RouteIntent(IC.ParseFailure) == ProcessTransaction
  {
  }

  /** The feature each gated handler asks for; the others only need credits. */
  function GatedFeature(cmd: Command, args: seq<string>): (f: Option<string>)
    ensures f.Some? <==> cmd in {InsightCmd, SavingCmd, AnalysisCmd}
  {
    match cmd
    case InsightCmd => Some("daily_insight")
    case SavingCmd => Some("daily_insight")
    case AnalysisCmd => Some(if AnalysisMonthly(args) then "monthly_analysis" else "weekly_summary")
    case _ => None
  }

  /**
   * A free user is refused every gated report as premium-only, and only a
   * subscriber to elite gets the monthly analysis.
   */
  lemma GatedReportsNeedPlan(cmd: Command, args: seq<string>, plan: string)
    requires GatedFeature(cmd, args).Some?
    ensures plan !in {"pro", "elite"} ==> FeatureLocked(plan, GatedFeature(cmd, args))
    ensures cmd == AnalysisCmd && AnalysisMonthly(args) ==> (FeatureLocked(plan, GatedFeature(cmd, args)) <==> plan != "elite")
    ensures cmd != AnalysisCmd || !AnalysisMonthly(args) ==> (FeatureLocked(plan, GatedFeature(cmd, args)) <==> plan !in {"pro", "elite"})
  {
    assert Plans.FeatureOf("daily_insight") == Some(Plans.DailyInsight);
    assert Plans.FeatureOf("weekly_summary") == Some(Plans.WeeklySummary);
    assert Plans.FeatureOf("monthly_analysis") == Some(Plans.MonthlyAnalysis);
  }

  // ---------------------------------------------------------------------
  // format_transaction_response

  /** The `error` text of each failed result (worker/worker_main.py). */
  function NoticeText(n: W.Notice): string {
    match n
    case NotUnderstood => "Maaf, saya tidak bisa memahami pesan kamu. Coba ketik ulang seperti: 'beli makan 25rb'"
    case AiUnavailable => "Maaf, AI sedang bermasalah. Coba lagi nanti ya."
    case InternalError => "Terjadi kesalahan internal. Silakan coba lagi."
    case ReceiptUnreadable => "Maaf, saya tidak bisa membaca struk ini. Pastikan foto jelas dan teks terlihat."
    case ReceiptNotExtracted => "Struk terbaca tapi saya tidak bisa mengekstrak transaksinya. Coba foto ulang dengan lebih jelas."
    case ImageFailed => "Gagal memproses gambar. Silakan coba lagi."
    case VoiceUnclear => "Maaf, saya tidak bisa mendengar pesan suaramu dengan jelas. Coba rekam ulang atau ketik saja."
    case VoiceNotUnderstood => "Pesan suara terbaca tapi saya tidak bisa memahami transaksinya. Coba sebutkan dengan lebih jelas."
    case AudioFailed => "Gagal memproses pesan suara. Silakan coba lagi."
    case UnknownMessageType(t) => "Unknown message type: " + t
  }

  function SourceEmoji(s: W.Source): string {
    match s
    case TextSource => "\U{1F4AC}"
    case ImageSource => "\U{1F4F8}"
    case AudioSource => "\U{1F399}\U{FE0F}"
  }

  const NothingDetected: string := "⚠️ Tidak ada transaksi yang terdeteksi."
  const ReviewLine: string := "⚠️ <i>Perlu review</i>"

  /** The amount line of one transaction. */
  function AmountLine(tx: TS.TxSummary): (line: string)
    ensures line != [] && line[0] in {'\U{1F4B0}', '\U{1F4B8}'}
    ensures line[0] == '\U{1F4B0}' <==> tx.intent == P.Income
  {
    (if tx.intent == P.Income then "\U{1F4B0} Pemasukan" else "\U{1F4B8} Pengeluaran")
    + ": <b>Rp " + Group(tx.amount, ",") + "</b>"
  }

  /** The lines of the `k`-th transaction (counting from one). */
  function TxBlock(k: nat, tx: TS.TxSummary, numbered: bool): seq<string> {
    (if numbered then ["<b>#" + IntToString(k) + "</b>"] else [])
    + [AmountLine(tx), "\U{1F4C2} Kategori: " + tx.category]
    + (if tx.needsReview then [ReviewLine] else [])
    + [""]
  }

  /** The blocks of all transactions, in order. */
  function Blocks(txs: seq<TS.TxSummary>, numbered: bool): seq<string> {
    if txs == [] then []
    else Blocks(txs[..|txs| - 1], numbered) + TxBlock(|txs|, txs[|txs| - 1], numbered)
  }

  /** The header lines: source, the transcription cut to 100 characters if there is one, a blank line. */
  function Intro(source: W.Source, transcription: Option<string>): seq<string> {
    [SourceEmoji(source) + " <b>Transaksi Tercatat!</b>"]
    + (if transcription.Some? && transcription.value != []
       then ["\U{1F5E3}\U{FE0F} <i>Transkripsi: \"" + Helpers.PrefixPy(transcription.value, 100) + "\"</i>"]
       else [])
    + [""]
  }

  /** What `format_transaction_response` returns. */
  function ResponseSpec(o: W.Outcome): (text: string)
    ensures o.Failure? ==> text == "❌ " + NoticeText(o.notice)
    ensures o.Processed? && o.transactions == [] ==> text == NothingDetected
  {
    if o.Failure? then "❌ " + NoticeText(o.notice)
    else if o.transactions == [] then NothingDetected
    else Join("\n", Intro(o.source, o.transcription) + Blocks(o.transactions, |o.transactions| > 1))
  }

  /** The loop of `format_transaction_response`: one transaction's lines after another. */
  method CollectBlocks(txs: seq<TS.TxSummary>, numbered: bool) returns (lines: seq<string>)
    ensures lines == Blocks(txs, numbered)
  {
    lines := [];
    for i := 0 to |txs|
      invariant lines == Blocks(txs[..i], numbered)
    {
      assert txs[..i + 1][..i] == txs[..i];
      lines := lines + TxBlock(i + 1, txs[i], numbered);
    }
    assert txs[..|txs|] == txs;
  }

  /** `format_transaction_response` */
  method FormatTransactionResponse(o: W.Outcome) returns (text: string)
    ensures text == ResponseSpec(o)
  {
    if o.Failure? {
      return "❌ " + NoticeText(o.notice);
    }
    if o.transactions == [] {
      return NothingDetected;
    }
    var blocks := CollectBlocks(o.transactions, |o.transactions| > 1);
    text := Join("\n", Intro(o.source, o.transcription) + blocks);
  }

  /** The review warning appears in a transaction's lines exactly when it needs review. */
  lemma ReviewLineIffFlagged(k: nat, tx: TS.TxSummary, numbered: bool)
    ensures ReviewLine in TxBlock(k, tx, numbered) <==> tx.needsReview
  {
    var head := if numbered then ["<b>#" + IntToString(k) + "</b>"] else [];
    var body := [AmountLine(tx), "\U{1F4C2} Kategori: " + tx.category];
    assert ReviewLine[0] == '⚠';
    assert ("<b>#" + IntToString(k) + "</b>")[0] == '<';
    assert ("\U{1F4C2} Kategori: " + tx.category)[0] == '\U{1F4C2}';
    assert ReviewLine !in head;
    assert ReviewLine !in body;
    assert ReviewLine != "";
  }

  /** The blocks of a prefix of the transactions begin the blocks of all of them. */
  lemma {:induction false} BlocksPrefix(txs: seq<TS.TxSummary>, numbered: bool, j: nat)
    requires j <= |txs|
    ensures Blocks(txs[..j], numbered) <= Blocks(txs, numbered)
    decreases |txs|
  {
    if j < |txs| {
      var init := txs[..|txs| - 1];
      assert init[..j] == txs[..j];
      BlocksPrefix(init, numbered, j);
    } else {
      assert txs[..j] == txs;
    }
  }

  /**
   * Every transaction is listed, in order: the `k`-th block of the reply is
   * the `k`-th transaction's, numbered `#k` exactly when there are several.
   */
  lemma BlockPlaced(txs: seq<TS.TxSummary>, numbered: bool, k: nat)
    requires k < |txs|
    ensures var lo := |Blocks(txs[..k], numbered)|;
      var b := TxBlock(k + 1, txs[k], numbered);
      lo + |b| <= |Blocks(txs, numbered)| && Blocks(txs, numbered)[lo..lo + |b|] == b
  {
    var pre := txs[..k + 1];
    assert pre[..k] == txs[..k];
    var front := Blocks(txs[..k], numbered);
    var b := TxBlock(k + 1, txs[k], numbered);
    var upto := Blocks(pre, numbered);
    assert upto == front + b;
    BlocksPrefix(txs, numbered, k + 1);
    var all := Blocks(txs, numbered);
    assert upto == all[..|upto|];
    assert all[|front|..|front| + |b|] == upto[|front|..] == b;
  }

  // ---------------------------------------------------------------------
  // _handle_health_command

  datatype Band = Green | Yellow | Orange | Red

  /** The colour of a health score: 80 and up green, 60 yellow, 40 orange, below that red. */
  function ScoreBand(score: real): (b: Band)
    ensures b == Green <==> score >= 80.0
    ensures b == Yellow <==> 60.0 <= score < 80.0
    ensures b == Orange <==> 40.0 <= score < 60.0
    ensures b == Red <==> score < 40.0
  {
    if score >= 80.0 then Green
    else if score >= 60.0 then Yellow
    else if score >= 40.0 then Orange
    else Red
  }

  /** `data.get("total_score", 0)` as a number; None where the comparison raises. */
  function HealthScore(data: Json): (score: Option<real>)
    ensures data.JObj? && "total_score" !in data.fields ==> score == Some(0.0)
  {
    if !data.JObj? then None
    else
      match Get(data.fields, "total_score", JInt(0))
      case JInt(i) => Some(i as real)
      case JFloat(f) => Some(f)
      case JBool(b) => Some(if b then 1.0 else 0.0)
      case _ => None
  }

  // ---------------------------------------------------------------------
  // _handle_simulate_command

  /** `int(args[0] ...)` with "." and "," dropped and "rb" expanded, 10000 when absent or unreadable. */
  function DailyCut(args: seq<string>): (cut: int)
    ensures args == [] ==> cut == 10000
  {
    if args == [] then 10000
    else PyInt(Replace(Replace(Replace(args[0], ".", ""), ",", ""), "rb", "000")).GetOr(10000)
  }

  datatype SimulateReply =
    | SimulateDenied(reason: Denial)
    | SimulationFailed
    | SimulationNoData
    | SimulationShown(data: Json)

  /**
   * `_handle_simulate_command` as written: after the gate has charged a
   * credit, the call passes a keyword the analysis function does not take,
   * so it raises TypeError and the handler answers with its error.
   */
  function SimulateAsWritten(a: S.Accounts, userId: int, args: seq<string>, now: int): (S.Accounts, SimulateReply) {
    var (a1, access) := AccessSpec(a, userId, None, now);
    if access.Denied? then (a1, SimulateDenied(access.reason)) else (a1, SimulationFailed)
  }

  /** Every simulation that passes the gate costs a credit and fails. */
  lemma SimulationAlwaysFails(a: S.Accounts, userId: int, args: seq<string>, now: int)
    requires AccessSpec(a, userId, None, now).1.Allowed?
    ensures SimulateAsWritten(a, userId, args, now).1 == SimulationFailed
    ensures var (a2, info) := S.CreditsSpec(S.PlanSpec(a, userId, now).0, userId, now);
      exists i :: S.ChargedAt(a2, SimulateAsWritten(a, userId, args, now).0, i, userId, 1, info)
  {
    GateChargesOne(a, userId, None, now);
  }

  /** The scenario sentence for a daily cut, in the analysis service's own default wording. */
  function Scenario(cut: int): string {
    "hemat " + IntToString(cut) + " per hari"
  }

  /** With no argument the corrected call asks exactly the analysis service's default scenario. */
  lemma DefaultScenario()
    ensures Scenario(DailyCut([])) == "hemat 10000 per hari"
  {
    assert IntToString(10000) == "10000" by {
      assert NatToString(1) == "1";
      assert NatToString(10) == "10";
      assert NatToString(100) == "100";
      assert NatToString(1000) == "1000";
    }
  }

  /**
   * `_handle_simulate_command` with the call corrected: the daily cut is
   * passed as the scenario and the simulation's report is shown.
   */
  function SimulateCorrected(a: S.Accounts, table: seq<H.StoredTx>, userId: int, args: seq<string>, now: int,
                             dateStr: int -> string, t: Prompts.Templates,
                             llm: string -> Result<string, string>, lib: Foreign): (S.Accounts, SimulateReply) {
    var (a1, access) := AccessSpec(a, userId, None, now);
    if access.Denied? then (a1, SimulateDenied(access.reason))
    else
      match A.SimulationSpec(table, userId, Scenario(DailyCut(args)), now, dateStr, t, llm, lib)
      case Failed(_) => (a1, SimulationNoData)
      case Done(d) => (a1, SimulationShown(d))
      case DoneWithBalance(d, _) => (a1, SimulationShown(d))
  }

  /**
   * Corrected, a simulation that passes the gate never ends in the
   * handler's error: it shows the model's answer to the user's scenario,
   * or says there is not enough data when the model call fails; the
   * charge is the same as before.
   */
  lemma CorrectedSimulationAnswers(a: S.Accounts, table: seq<H.StoredTx>, userId: int, args: seq<string>, now: int,
                                   dateStr: int -> string, t: Prompts.Templates,
                                   llm: string -> Result<string, string>, lib: Foreign)
    requires AccessSpec(a, userId, None, now).1.Allowed?
    ensures var r := SimulateCorrected(a, table, userId, args, now, dateStr, t, llm, lib);
      var p := Prompts.SavingSimulationPrompt(t, Scenario(DailyCut(args)), A.ClampedBalance(table, userId),
                                              A.DailyAverage(table, userId, now),
                                              A.SummaryText(A.Window(table, userId, 30, now), dateStr));
      && r.0 == SimulateAsWritten(a, userId, args, now).0
      && r.1 != SimulationFailed
      && (llm(p).Ok? ==> r.1 == SimulationShown(A.AnalysisJson(llm(p).value, lib)))
      && (llm(p).Err? ==> r.1 == SimulationNoData)
  {
  }
}
