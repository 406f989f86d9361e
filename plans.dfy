/**
 * The plan table (`PLAN_CONFIG` in app/config.py): three plans keyed by
 * name, each with a price, optional duration and credit allowances, and
 * seven feature switches. The marketing bullet list is kept only as the
 * number of its bullets.
 */
module Plans {
  import opened Wrappers

  /** The seven feature switches. */
  datatype Feature =
    | ScanReceipt | DailyInsight | WeeklySummary | MonthlyAnalysis
    | Forecast3Month | AdvancedTracking | PriorityAi
  {
    function Key(): string {
      match this
      case ScanReceipt => "scan_receipt"
      case DailyInsight => "daily_insight"
      case WeeklySummary => "weekly_summary"
      case MonthlyAnalysis => "monthly_analysis"
      case Forecast3Month => "forecast_3month"
      case AdvancedTracking => "advanced_tracking"
      case PriorityAi => "priority_ai"
    }
  }

  /** The switch named by a string, if any. */
  function FeatureOf(key: string): (f: Option<Feature>)
    ensures f.Some? ==> f.value.Key() == key
  {
    if key == "scan_receipt" then Some(ScanReceipt)
    else if key == "daily_insight" then Some(DailyInsight)
    else if key == "weekly_summary" then Some(WeeklySummary)
    else if key == "monthly_analysis" then Some(MonthlyAnalysis)
    else if key == "forecast_3month" then Some(Forecast3Month)
    else if key == "advanced_tracking" then Some(AdvancedTracking)
    else if key == "priority_ai" then Some(PriorityAi)
    else None
  }

  lemma FeatureKeyRoundTrip(f: Feature)
    ensures FeatureOf(f.Key()) == Some(f)
  {
  }

  /** One entry of the table; absent keys are None. */
  datatype PlanEntry = PlanEntry(
    name: string,
    price: int,
    durationDays: Option<int>,
    monthlyCredits: Option<int>,
    totalCredits: Option<int>,
    weeklyCredits: Option<int>,
    bulletCount: nat,
    features: set<Feature>)

  const FreePlan: PlanEntry :=
    PlanEntry("Free Plan", 0, None, Some(5), None, None, 3, {})

  const ProPlan: PlanEntry :=
    PlanEntry("Pro – Rp19.000/bulan", 19000, Some(30), None, Some(0), Some(50), 5,
              {ScanReceipt, DailyInsight, WeeklySummary})

  const ElitePlan: PlanEntry :=
    PlanEntry("Elite – Rp49.000/bulan", 49000, Some(30), None, Some(0), Some(150), 5,
              {ScanReceipt, DailyInsight, WeeklySummary, MonthlyAnalysis, Forecast3Month, AdvancedTracking, PriorityAi})

  /** `PLAN_CONFIG.get(name)` */
  function PlanConfig(name: string): (p: Option<PlanEntry>)
    ensures p.Some? <==> name in {"free", "pro", "elite"}
  {
    if name == "free" then Some(FreePlan)
    else if name == "pro" then Some(ProPlan)
    else if name == "elite" then Some(ElitePlan)
    else None
  }

  /** `PLAN_CONFIG.get(name, PLAN_CONFIG["free"])`: an unknown plan reads as free. */
  function PlanOrFree(name: string): (p: PlanEntry)
    ensures name !in {"pro", "elite"} ==> p == FreePlan
  {
    PlanConfig(name).GetOr(FreePlan)
  }

  /** `plan_config.get("ai_credits_weekly", 0)` */
  function WeeklyAllowance(name: string): (n: int)
    ensures n > 0 <==> name in {"pro", "elite"}
  {
    PlanOrFree(name).weeklyCredits.GetOr(0)
  }

  /** The keys of a plan's config dict other than the switches. */
  const ConfigKeys: set<string> :=
    {"name", "price", "duration_days", "ai_credits_monthly", "ai_credits_total", "ai_credits_weekly", "features"}

  /** Python truthiness of an optional number: absent and zero are false. */
  predicate NonZero(v: Option<int>) {
    v.Some? && v.value != 0
  }

  /** Python truthiness of `entry.get(key, False)`. */
  predicate EntryTruthy(p: PlanEntry, key: string) {
    match FeatureOf(key)
    case Some(f) => f in p.features
    case None =>
      if key == "name" then p.name != []
      else if key == "price" then p.price != 0
      else if key == "duration_days" then NonZero(p.durationDays)
      else if key == "ai_credits_monthly" then NonZero(p.monthlyCredits)
      else if key == "ai_credits_total" then NonZero(p.totalCredits)
      else if key == "ai_credits_weekly" then NonZero(p.weeklyCredits)
      else if key == "features" then p.bulletCount > 0
      else false
  }

  /** The free plan has every switch off. */
  lemma FreeHasNoFeatures(f: Feature)
    ensures f !in PlanConfig("free").value.features
  {
  }

  /** Each plan has every switch the cheaper one has. */
  lemma FeaturesMonotone()
    ensures PlanConfig("free").value.features <= PlanConfig("pro").value.features
    ensures PlanConfig("pro").value.features <= PlanConfig("elite").value.features
    ensures PlanConfig("pro").value.features != PlanConfig("elite").value.features
  {
    assert MonthlyAnalysis !in ProPlan.features;
  }

  /** Prices strictly increase and both paid plans last thirty days. */
  lemma PricesAndDurations()
    ensures 0 == PlanConfig("free").value.price < PlanConfig("pro").value.price < PlanConfig("elite").value.price
    ensures PlanConfig("pro").value.price == 19000 && PlanConfig("elite").value.price == 49000
    ensures PlanConfig("pro").value.durationDays == Some(30) && PlanConfig("elite").value.durationDays == Some(30)
  {
  }

  /** Weekly allowances: pro 50, elite 150, and none for free or an unknown plan. */
  lemma WeeklyAllowances(name: string)
    ensures WeeklyAllowance("pro") == 50 && WeeklyAllowance("elite") == 150
    ensures name !in {"pro", "elite"} ==> WeeklyAllowance(name) == 0
  {
  }
}
