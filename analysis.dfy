/**
 * The premium analysis service (worker/analysis_service.py): the
 * transaction summary handed to the model, the reading of the model's
 * JSON reply, and the arithmetic around it: the automatic balance of the
 * balance prediction and the daily average and clamped balance of the
 * saving simulation. The model call is a parameter that either answers
 * with text or raises with a message; dates are rendered by a calendar
 * function outside the model.
 */
module Analysis {
  import opened Wrappers
  import opened Text
  import opened Json
  import H = History
  import Prompts
  import IntentClassifier

  const SecondsPerDay: int := 86400

  const NoTransactions: string := "Tidak ada transaksi dalam periode ini."

  /** `find_many(where={"userId": u, "createdAt": {"gte": since}})` */
  function Since(table: seq<H.StoredTx>, userId: int, since: int): seq<H.StoredTx> {
    H.Filter(table, (t: H.StoredTx) => t.userId == userId && t.createdAt >= since)
  }

  /** `find_many(where={"userId": u})` */
  function OfUser(table: seq<H.StoredTx>, userId: int): seq<H.StoredTx> {
    H.Filter(table, (t: H.StoredTx) => t.userId == userId)
  }

  /** The sum of the amounts of every transaction that is not income. */
  function NonIncome(txs: seq<H.StoredTx>): int {
    if txs == [] then 0
    else NonIncome(txs[..|txs| - 1]) + (if txs[|txs| - 1].intent != "income" then txs[|txs| - 1].amount else 0)
  }

  /**
   * The summary's expense total takes in every transaction that is not
   * income: the expenses proper and those of any other intent.
   */
  lemma {:induction false} NonIncomeSplit(txs: seq<H.StoredTx>)
    ensures NonIncome(txs) == H.SumIntent(txs, "expense") + H.SumOther(txs)
  {
    if txs != [] {
      NonIncomeSplit(txs[..|txs| - 1]);
    }
  }

  /** The kind word of a listed transaction. */
  function Kind(t: H.StoredTx): (k: string)
    ensures k == "Pemasukan" <==> t.intent == "income"
  {
    if t.intent == "income" then "Pemasukan" else "Pengeluaran"
  }

  /** `tx.note or ''` */
  function NoteText(note: Option<string>): (s: string)
    ensures note.None? ==> s == ""
  {
    note.GetOr("")
  }

  /** One detail line of the summary. */
  function SummaryLine(t: H.StoredTx, dateStr: int -> string): string {
    "- " + dateStr(H.ShownDate(t)) + ": " + Kind(t) + " Rp" + Group(t.amount, ",") + " [" + t.category + "] " + NoteText(t.note)
  }

  /** `f` applied to each element, in order. */
  function MapSeq<T, U>(xs: seq<T>, f: T -> U): (ys: seq<U>)
    ensures |ys| == |xs|
    ensures forall i :: 0 <= i < |xs| ==> ys[i] == f(xs[i])
  {
    seq(|xs|, i requires 0 <= i < |xs| => f(xs[i]))
  }

  lemma MapSeqSnoc<T, U>(xs: seq<T>, f: T -> U)
    requires xs != []
    ensures MapSeq(xs, f) == MapSeq(xs[..|xs| - 1], f) + [f(xs[|xs| - 1])]
  {
    var init := xs[..|xs| - 1];
    forall i | 0 <= i < |init| ensures MapSeq(xs, f)[i] == MapSeq(init, f)[i] {
      assert init[i] == xs[i];
    }
  }

  /** The detail line of each row. */
  function LineOf(dateStr: int -> string): H.StoredTx -> string {
    t => SummaryLine(t, dateStr)
  }

  /** The detail lines, one per transaction in order. */
  function SummaryLines(txs: seq<H.StoredTx>, dateStr: int -> string): (lines: seq<string>)
    ensures |lines| == |txs|
    ensures forall i :: 0 <= i < |txs| ==> lines[i] == SummaryLine(txs[i], dateStr)
  {
    MapSeq(txs, LineOf(dateStr))
  }

  /** The lines of a longer list extend those of its prefix by the last row's line. */
  lemma SummaryLinesSnoc(txs: seq<H.StoredTx>, dateStr: int -> string)
    requires txs != []
    ensures SummaryLines(txs, dateStr) == SummaryLines(txs[..|txs| - 1], dateStr) + [SummaryLine(txs[|txs| - 1], dateStr)]
  {
    MapSeqSnoc(txs, LineOf(dateStr));
  }

  /** The four totals lines above the details. */
  function SummaryHead(count: int, income: int, expense: int): string {
    "Total transaksi: " + IntToString(count) + "\n"
    + "Total pemasukan: Rp" + Group(income, ",") + "\n"
    + "Total pengeluaran: Rp" + Group(expense, ",") + "\n"
    + "Net: Rp" + Group(income - expense, ",") + "\n\n"
    + "Detail transaksi:\n"
  }

  /** What `_get_transaction_summary` returns for the rows of its window. */
  function SummaryText(txs: seq<H.StoredTx>, dateStr: int -> string): string {
    if txs == [] then NoTransactions
    else SummaryHead(|txs|, H.SumIntent(txs, "income"), NonIncome(txs)) + Join("\n", SummaryLines(txs, dateStr))
  }

  /** The rows of the summary window of `days` days ending now. */
  function Window(table: seq<H.StoredTx>, userId: int, days: int, now: int): seq<H.StoredTx> {
    Since(table, userId, now - days * SecondsPerDay)
  }

  /** The loop of `_get_transaction_summary`: a line per row, income and everything else summed apart. */
  method Tally(txs: seq<H.StoredTx>, dateStr: int -> string) returns (lines: seq<string>, income: int, expense: int)
    ensures lines == SummaryLines(txs, dateStr)
    ensures income == H.SumIntent(txs, "income") && expense == NonIncome(txs)
  {
    lines, income, expense := [], 0, 0;
    for i := 0 to |txs|
      invariant lines == SummaryLines(txs[..i], dateStr)
      invariant income == H.SumIntent(txs[..i], "income")
      invariant expense == NonIncome(txs[..i])
    {
      assert txs[..i + 1][..i] == txs[..i];
      SummaryLinesSnoc(txs[..i + 1], dateStr);
      lines := lines + [SummaryLine(txs[i], dateStr)];
      if txs[i].intent == "income" {
        income := income + txs[i].amount;
      } else {
        expense := expense + txs[i].amount;
      }
    }
    assert txs[..|txs|] == txs;
  }

  /** `_get_transaction_summary` */
  method TransactionSummary(table: seq<H.StoredTx>, userId: int, days: int, now: int, dateStr: int -> string)
    returns (summary: string)
    ensures summary == SummaryText(Window(table, userId, days, now), dateStr)
  {
    var txs := Window(table, userId, days, now);
    if txs == [] {
      return NoTransactions;
    }
    var lines, income, expense := Tally(txs, dateStr);
    summary := SummaryHead(|txs|, income, expense) + Join("\n", lines);
  }

  /**
   * The analysis summary and the /history summary disagree on a
   * transaction that is neither income nor expense: the first counts it
   * as spending, the second ignores it.
   */
  lemma ExpenseTotalsDisagree(t: H.StoredTx)
    requires t.intent !in {"income", "expense"}
    ensures NonIncome([t]) == t.amount
    ensures H.SumIntent([t], "expense") == 0
  {
    assert [t][..0] == [];
  }

  /** The error object returned when the reply does not decode. */
  function Unreadable(text: string): Json {
    JObj(map["error" := JStr("Gagal menganalisis data"), "raw" := JStr(text)])
  }

  /**
   * The text `_call_analysis_llm` hands to the decoder: from the first `{`
   * to the last `}` when the first comes before the last, and otherwise
   * the whole reply.
   */
  function AnalysisSpan(text: string): (span: string)
    ensures 0 <= FindChar(text, '{') < RFindChar(text, '}') + 1 ==>
      span == text[FindChar(text, '{')..RFindChar(text, '}') + 1] && span[0] == '{' && span[|span| - 1] == '}'
    ensures !(0 <= FindChar(text, '{') < RFindChar(text, '}') + 1) ==> span == text
  {
    var start := FindChar(text, '{');
    var end := RFindChar(text, '}') + 1;
    if start >= 0 && end > start then text[start..end] else text
  }

  /** `_call_analysis_llm` after the reply arrives: a decoding failure is reported, not raised. */
  function AnalysisJson(text: string, lib: Foreign): (r: Json)
    ensures lib.decode(AnalysisSpan(text)).Some? ==> r == lib.decode(AnalysisSpan(text)).value
    ensures lib.decode(AnalysisSpan(text)).None? ==> r.JObj? && "error" in r.fields && "raw" in r.fields && r.fields["raw"] == JStr(text)
  {
    match lib.decode(AnalysisSpan(text))
    case Some(v) => v
    case None => Unreadable(text)
  }

  /**
   * Where both braces are present in order, the analysis slice is the
   * intent classifier's; where the only `}` comes before the first `{`,
   * the classifier decodes the empty slice and the analysis the whole text.
   */
  lemma AnalysisSpanAgainstClassifier(text: string)
    ensures '{' in text && '}' in text && FindChar(text, '{') <= RFindChar(text, '}') ==>
      IntentClassifier.OuterSpan(text) == Some(AnalysisSpan(text))
    ensures AnalysisSpan("}{") == "}{" && IntentClassifier.OuterSpan("}{") == Some([])
    ensures AnalysisSpan("{") == "{" && IntentClassifier.OuterSpan("{") == None
  {
    assert FindChar("}{", '{') == 1 && RFindChar("}{", '}') == 0;
    assert FindChar("{", '{') == 0 && RFindChar("{", '}') == -1;
  }

  /** `_call_analysis_llm`: the model's failure message, or the decoded reply. */
  function CallAnalysis(prompt: string, llm: string -> Result<string, string>, lib: Foreign): (r: Result<Json, string>)
    ensures llm(prompt).Err? ==> r == Err(llm(prompt).error)
    ensures llm(prompt).Ok? ==> r == Ok(AnalysisJson(llm(prompt).value, lib))
  {
    match llm(prompt)
    case Err(m) => Err(m)
    case Ok(text) => Ok(AnalysisJson(text, lib))
  }

  /** What a public analysis function returns. */
  datatype Report =
    | Done(data: Json)
    | DoneWithBalance(data: Json, balance: int)
    | Failed(error: string)

  /** The reports that summarise a window and ask the model about it. */
  datatype Insight = DailyInsight | SavingRecommendation | HealthScore | WeeklyAnalysis | MonthlyAnalysis

  /** The window each report reads. */
  function InsightDays(kind: Insight): (d: int)
    ensures d == 1 <==> kind == DailyInsight
    ensures d == 7 <==> kind == WeeklyAnalysis
    ensures d == 30 <==> kind in {SavingRecommendation, HealthScore, MonthlyAnalysis}
  {
    match kind
    case DailyInsight => 1
    case WeeklyAnalysis => 7
    case _ => 30
  }

  /**
   * `get_daily_insight`, `get_saving_recommendation`,
   * `get_financial_health_score`, `get_weekly_analysis` and
   * `get_monthly_analysis`; `prompt` is the report's prompt builder.
   */
  function InsightSpec(kind: Insight, table: seq<H.StoredTx>, userId: int, now: int, dateStr: int -> string,
                       prompt: string -> string, llm: string -> Result<string, string>, lib: Foreign): (r: Report)
    ensures r.Failed? <==> llm(prompt(SummaryText(Window(table, userId, InsightDays(kind), now), dateStr))).Err?
    ensures r.Done? ==> r.data == AnalysisJson(llm(prompt(SummaryText(Window(table, userId, InsightDays(kind), now), dateStr))).value, lib)
  {
    var summary := SummaryText(Window(table, userId, InsightDays(kind), now), dateStr);
    match CallAnalysis(prompt(summary), llm, lib)
    case Err(m) => Failed(m)
    case Ok(d) => Done(d)
  }

  /** Income minus expense over all of the user's rows; other intents count in neither. */
  function AutoBalance(table: seq<H.StoredTx>, userId: int): int {
    H.SumIntent(OfUser(table, userId), "income") - H.SumIntent(OfUser(table, userId), "expense")
  }

  /** The balance the prediction uses: the given one unless it is None or 0. */
  function BalanceUsed(table: seq<H.StoredTx>, userId: int, given: Option<int>): (b: int)
    ensures given.Some? && given.value != 0 ==> b == given.value
    ensures (given.None? || given.value == 0) ==> b == AutoBalance(table, userId)
  {
    if given.None? || given.value == 0 then AutoBalance(table, userId) else given.value
  }

  /** The canned answer for a balance that is not positive. */
  const NoBalanceData: Json := JObj(map[
    "daily_avg_expense" := JInt(0),
    "daily_avg_income" := JInt(0),
    "predicted_days" := JInt(0),
    "prediction_confidence" := JFloat(0.5),
    "explanation" := JStr("Saldo kamu saat ini minus atau nol. Catat pemasukan terlebih dahulu agar prediksi bisa akurat.")])

  /** `get_balance_prediction` */
  function BalanceSpec(table: seq<H.StoredTx>, userId: int, given: Option<int>, now: int, dateStr: int -> string,
                       t: Prompts.Templates, llm: string -> Result<string, string>, lib: Foreign): (r: Report)
    ensures BalanceUsed(table, userId, given) <= 0 ==> r == Done(NoBalanceData)
    ensures r.DoneWithBalance? ==> r.balance == BalanceUsed(table, userId, given) > 0
    ensures r.Failed? ==> BalanceUsed(table, userId, given) > 0
  {
    var summary := SummaryText(Window(table, userId, 30, now), dateStr);
    var balance := BalanceUsed(table, userId, given);
    if balance <= 0 then Done(NoBalanceData)
    else
      match CallAnalysis(Prompts.BalancePredictionPrompt(t, summary, balance), llm, lib)
      case Err(m) => Failed(m)
      case Ok(d) => DoneWithBalance(d, balance)
  }

  /** A balance that is not positive is answered without the model: any two models give the same report. */
  lemma NoBalanceNoModel(table: seq<H.StoredTx>, userId: int, given: Option<int>, now: int, dateStr: int -> string,
                         t: Prompts.Templates, llm1: string -> Result<string, string>, llm2: string -> Result<string, string>, lib: Foreign)
    requires BalanceUsed(table, userId, given) <= 0
    ensures BalanceSpec(table, userId, given, now, dateStr, t, llm1, lib) == BalanceSpec(table, userId, given, now, dateStr, t, llm2, lib)
    ensures BalanceSpec(table, userId, given, now, dateStr, t, llm1, lib).data.fields["predicted_days"] == JInt(0)
  {
  }

  /** A positive balance is passed to the model and echoed in the report. */
  lemma PositiveBalancePrompted(table: seq<H.StoredTx>, userId: int, given: Option<int>, now: int, dateStr: int -> string,
                                t: Prompts.Templates, llm: string -> Result<string, string>, lib: Foreign)
    requires BalanceUsed(table, userId, given) > 0
    requires llm(Prompts.BalancePredictionPrompt(t, SummaryText(Window(table, userId, 30, now), dateStr), BalanceUsed(table, userId, given))).Ok?
    ensures BalanceSpec(table, userId, given, now, dateStr, t, llm, lib)
      == DoneWithBalance(
           AnalysisJson(llm(Prompts.BalancePredictionPrompt(t, SummaryText(Window(table, userId, 30, now), dateStr), BalanceUsed(table, userId, given))).value, lib),
           BalanceUsed(table, userId, given))
  {
  }

  /** The expense rows of the last thirty days. */
  function RecentExpenses(table: seq<H.StoredTx>, userId: int, now: int): seq<H.StoredTx> {
    H.Filter(table, (t: H.StoredTx) => t.userId == userId && t.intent == "expense" && t.createdAt >= now - 30 * SecondsPerDay)
  }

  /** `total_expense // 30 if txs else 0` */
  function DailyAverage(table: seq<H.StoredTx>, userId: int, now: int): (avg: int)
    ensures RecentExpenses(table, userId, now) == [] ==> avg == 0
    ensures RecentExpenses(table, userId, now) != [] ==>
      30 * avg <= H.SumAll(RecentExpenses(table, userId, now)) < 30 * avg + 30
  {
    var txs := RecentExpenses(table, userId, now);
    if txs != [] then H.SumAll(txs) / 30 else 0
  }

  /** `max(total_income - total_all_expense, 0)` */
  function ClampedBalance(table: seq<H.StoredTx>, userId: int): (b: int)
    ensures b >= 0 && b >= AutoBalance(table, userId)
    ensures b == AutoBalance(table, userId) || b == 0
  {
    if AutoBalance(table, userId) > 0 then AutoBalance(table, userId) else 0
  }

  /** `get_saving_simulation` */
  function SimulationSpec(table: seq<H.StoredTx>, userId: int, scenario: string, now: int, dateStr: int -> string,
                          t: Prompts.Templates, llm: string -> Result<string, string>, lib: Foreign): (r: Report)
    ensures var p := Prompts.SavingSimulationPrompt(t, scenario, ClampedBalance(table, userId), DailyAverage(table, userId, now),
                                                    SummaryText(Window(table, userId, 30, now), dateStr));
      && (llm(p).Err? <==> r.Failed?)
      && (llm(p).Ok? ==> r == Done(AnalysisJson(llm(p).value, lib)))
  {
    var summary := SummaryText(Window(table, userId, 30, now), dateStr);
    var prompt := Prompts.SavingSimulationPrompt(t, scenario, ClampedBalance(table, userId), DailyAverage(table, userId, now), summary);
    match CallAnalysis(prompt, llm, lib)
    case Err(m) => Failed(m)
    case Ok(d) => Done(d)
  }

  /** Rows outside the last thirty days or of another intent do not move the daily average. */
  lemma {:induction false} ExpensesOnlyAverage(table: seq<H.StoredTx>, userId: int, now: int, t: H.StoredTx)
    requires t.userId != userId || t.intent != "expense" || t.createdAt < now - 30 * SecondsPerDay
    ensures RecentExpenses(table + [t], userId, now) == RecentExpenses(table, userId, now)
    ensures DailyAverage(table + [t], userId, now) == DailyAverage(table, userId, now)
  {
    H.FilterSkips(table, t, (x: H.StoredTx) => x.userId == userId && x.intent == "expense" && x.createdAt >= now - 30 * SecondsPerDay);
  }

  /** The simulation balance is never negative, and is exactly the balance when that is positive. */
  lemma SimulationBalanceClamped(table: seq<H.StoredTx>, userId: int)
    ensures AutoBalance(table, userId) > 0 ==> ClampedBalance(table, userId) == AutoBalance(table, userId)
    ensures AutoBalance(table, userId) <= 0 ==> ClampedBalance(table, userId) == 0
  {
  }
}
