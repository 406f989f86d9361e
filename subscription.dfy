/**
 * Plans, subscriptions and AI credits (app/services/subscription_service.py).
 * The three tables the service reads and writes (users with their plan,
 * subscriptions, credit records) are fields of a class; rows are kept in
 * creation order, so "the newest matching row" is the last one. Time is
 * seconds since the epoch, passed in where the source reads the clock.
 */
module Subscription {
  import opened Wrappers
  import Plans

  const SecondsPerDay: int := 86400

  /** Credits a free user gets once, for good. */
  const FreeCredits: int := 5

  /** Monday 00:00 of the week holding `now` (the epoch fell on a Thursday). */
  function WeekStart(now: int): (ws: int)
    ensures ws <= now < ws + 7 * SecondsPerDay
    ensures ws % SecondsPerDay == 0 && (ws / SecondsPerDay + 3) % 7 == 0
  {
    var day := now / SecondsPerDay;
    (day - (day + 3) % 7) * SecondsPerDay
  }

  datatype SubRecord = SubRecord(userId: int, plan: string, startDate: int, endDate: int, isActive: bool, paymentId: Option<int>)

  datatype CreditRecord = CreditRecord(userId: int, totalCredits: int, usedCredits: int, weekStartAt: int)

  /** The three tables. */
  datatype Accounts = Accounts(users: map<int, string>, subscriptions: seq<SubRecord>, credits: seq<CreditRecord>)

  /** A subscription that keeps a paid plan alive at `now`. */
  predicate Current(s: SubRecord, userId: int, now: int) {
    s.userId == userId && s.isActive && s.endDate >= now
  }

  predicate HasCurrent(subs: seq<SubRecord>, userId: int, now: int) {
    exists i :: 0 <= i < |subs| && Current(subs[i], userId, now)
  }

  /** `update_many(where userId and isActive, isActive = False)` */
  function Deactivate(subs: seq<SubRecord>, userId: int): (r: seq<SubRecord>)
    ensures |r| == |subs|
    ensures forall i :: 0 <= i < |subs| ==> r[i].isActive == (subs[i].isActive && subs[i].userId != userId)
    ensures forall i :: 0 <= i < |subs| ==> r[i] == subs[i].(isActive := r[i].isActive)
  {
    seq(|subs|, i requires 0 <= i < |subs| => if subs[i].userId == userId then subs[i].(isActive := false) else subs[i])
  }

  /** The credit rows a lookup considers: the user's, and with a week start when one is given. */
  predicate Matches(c: CreditRecord, userId: int, from: Option<int>) {
    c.userId == userId && (from.None? || c.weekStartAt >= from.value)
  }

  /** `find_first(..., order createdAt desc)`: the index of the newest matching row. */
  function LastCredit(credits: seq<CreditRecord>, userId: int, from: Option<int>): (r: Option<nat>)
    ensures r.Some? ==> r.value < |credits| && Matches(credits[r.value], userId, from)
    ensures r.Some? ==> forall j :: r.value < j < |credits| ==> !Matches(credits[j], userId, from)
    ensures r.None? ==> forall j :: 0 <= j < |credits| ==> !Matches(credits[j], userId, from)
  {
    if |credits| == 0 then None
    else if Matches(credits[|credits| - 1], userId, from) then Some(|credits| - 1)
    else LastCredit(credits[..|credits| - 1], userId, from)
  }

  /** `get_user_plan`: a paid plan without a current subscription is downgraded to free. */
  function PlanSpec(a: Accounts, userId: int, now: int): (Accounts, string) {
    if userId !in a.users then (a, "free")
    else if a.users[userId] in {"pro", "elite"} && !HasCurrent(a.subscriptions, userId, now) then
      (a.(users := a.users[userId := "free"], subscriptions := Deactivate(a.subscriptions, userId)), "free")
    else (a, a.users[userId])
  }

  /** What `check_ai_credits` returns. */
  datatype CreditInfo = CreditInfo(hasCredits: bool, remaining: int, total: int, plan: string)

  /** The report on one credit row. */
  function View(c: CreditRecord, plan: string): (info: CreditInfo)
    ensures info.hasCredits <==> info.remaining > 0
    ensures info.remaining >= 0 && info.remaining >= c.totalCredits - c.usedCredits
    ensures info.hasCredits ==> info.remaining == c.totalCredits - c.usedCredits
  {
    var remaining := c.totalCredits - c.usedCredits;
    CreditInfo(remaining > 0, if remaining > 0 then remaining else 0, c.totalCredits, plan)
  }

  /** The error answer: no credits, plan free. */
  const NoCredits: CreditInfo := CreditInfo(false, 0, 0, "free")

  /**
   * The row a paid plan's credits come from, and the row to create when
   * there is none (None when the plan has no weekly allowance, where the
   * source's `plan_config["ai_credits_weekly"]` raises KeyError).
   */
  function WeeklyRow(plan: string, userId: int, now: int): Option<CreditRecord> {
    match Plans.PlanOrFree(plan).weeklyCredits
    case None => None
    case Some(weekly) => Some(CreditRecord(userId, weekly, 0, WeekStart(now)))
  }

  /** `check_ai_credits` */
  function CreditsSpec(a: Accounts, userId: int, now: int): (Accounts, CreditInfo) {
    var (a1, plan) := PlanSpec(a, userId, now);
    if plan == "free" then
      match LastCredit(a1.credits, userId, None)
      case Some(i) => (a1, View(a1.credits[i], plan))
      case None =>
        var c := CreditRecord(userId, FreeCredits, 0, now);
        (a1.(credits := a1.credits + [c]), View(c, plan))
    else
      match WeeklyRow(plan, userId, now)
      case None => (a1, NoCredits)
      case Some(row) =>
        match LastCredit(a1.credits, userId, Some(WeekStart(now)))
        case Some(i) => (a1, View(a1.credits[i], plan))
        case None => (a1.(credits := a1.credits + [row]), View(row, plan))
  }

  /** The row `consume_ai_credit` charges, looked up as for the plan it was told. */
  function ChargedRow(credits: seq<CreditRecord>, userId: int, plan: string, now: int): Option<nat> {
    if plan == "free" then LastCredit(credits, userId, None)
    else LastCredit(credits, userId, Some(WeekStart(now)))
  }

  /** `consume_ai_credit`: only the credit check gates it, so `amount` may overdraw. */
  function ConsumeSpec(a: Accounts, userId: int, amount: int, now: int): (Accounts, bool) {
    var (a1, info) := CreditsSpec(a, userId, now);
    if !info.hasCredits then (a1, false)
    else
      match ChargedRow(a1.credits, userId, info.plan, now)
      case None => (a1, false)
      case Some(i) =>
        (a1.(credits := a1.credits[i := a1.credits[i].(usedCredits := a1.credits[i].usedCredits + amount)]), true)
  }

  /** What `activate_subscription` returns. */
  datatype Activation = Activation(subscriptionId: int, plan: string, startDate: int, endDate: int, weeklyCredits: int)

  /**
   * `activate_subscription`: deactivate, insert the new subscription, set the
   * plan (an update of a missing user changes nothing), and open a weekly
   * credit row when the plan has a weekly allowance.
   */
  function ActivateSpec(a: Accounts, userId: int, plan: string, paymentId: Option<int>, durationDays: int, now: int): (Accounts, Activation) {
    var end := now + durationDays * SecondsPerDay;
    var subs := Deactivate(a.subscriptions, userId) + [SubRecord(userId, plan, now, end, true, paymentId)];
    var users := if userId in a.users then a.users[userId := plan] else a.users;
    var weekly := Plans.WeeklyAllowance(plan);
    var credits := if weekly > 0 then a.credits + [CreditRecord(userId, weekly, 0, WeekStart(now))] else a.credits;
    (Accounts(users, subs, credits), Activation(|subs|, plan, now, end, weekly))
  }

  /** The newest-ending active subscription of a user. */
  function LatestActive(subs: seq<SubRecord>, userId: int): (r: Option<nat>)
    ensures r.Some? ==> r.value < |subs| && subs[r.value].userId == userId && subs[r.value].isActive
    ensures r.Some? ==> forall j :: 0 <= j < |subs| && subs[j].userId == userId && subs[j].isActive ==> subs[j].endDate <= subs[r.value].endDate
    ensures r.None? ==> forall j :: 0 <= j < |subs| ==> !(subs[j].userId == userId && subs[j].isActive)
  {
    if |subs| == 0 then None
    else
      var rest := LatestActive(subs[..|subs| - 1], userId);
      var last := subs[|subs| - 1];
      if last.userId == userId && last.isActive && (rest.None? || subs[rest.value].endDate < last.endDate) then Some(|subs| - 1)
      else rest
  }

  datatype SubView = SubView(endDate: int, daysLeft: int, isActive: bool)

  datatype Status = Status(plan: string, planName: string, credits: CreditInfo, subscription: Option<SubView>)

  /** `timedelta.days` of `end - now`, floored, and never below zero. */
  function DaysLeft(end: int, now: int): (d: int)
    ensures d >= 0
    ensures end >= now ==> d * SecondsPerDay <= end - now < (d + 1) * SecondsPerDay
    ensures end < now ==> d == 0
  {
    var days := (end - now) / SecondsPerDay;
    if days > 0 then days else 0
  }

  /** `PLAN_CONFIG.get(plan, {}).get("name", "Unknown")` */
  function PlanName(plan: string): (n: string)
    ensures Plans.PlanConfig(plan).None? ==> n == "Unknown"
  {
    match Plans.PlanConfig(plan)
    case Some(p) => p.name
    case None => "Unknown"
  }

  /** `get_subscription_status` */
  function StatusSpec(a: Accounts, userId: int, now: int): (Accounts, Status) {
    var (a1, plan) := PlanSpec(a, userId, now);
    var (a2, credits) := CreditsSpec(a1, userId, now);
    var sub :=
      if plan in {"pro", "elite"} then
        match LatestActive(a2.subscriptions, userId)
        case Some(i) => Some(SubView(a2.subscriptions[i].endDate, DaysLeft(a2.subscriptions[i].endDate, now), a2.subscriptions[i].isActive))
        case None => None
      else None;
    (a2, Status(plan, PlanName(plan), credits, sub))
  }

  /**
   * `check_feature_access`, as its callers read it: the truthiness of
   * whatever the plan's config dict holds under the key, with an unknown
   * plan read as free and a missing key as False.
   */
  function FeatureAccess(plan: string, feature: string): (ok: bool)
    ensures Plans.FeatureOf(feature).Some? ==> (ok <==> Plans.FeatureOf(feature).value in Plans.PlanOrFree(plan).features)
    ensures Plans.FeatureOf(feature).None? && feature !in Plans.ConfigKeys ==> !ok
  {
    Plans.EntryTruthy(Plans.PlanOrFree(plan), feature)
  }

  /**
   * The other keys of the config dict answer too: the name and the bullet
   * list are truthy on every plan, the price and duration only on paid
   * plans, and the monthly allowance only on free (and so on an unknown plan).
   */
  lemma ConfigKeysAnswer(plan: string)
    ensures FeatureAccess(plan, "name") && FeatureAccess(plan, "features")
    ensures FeatureAccess(plan, "price") <==> plan in {"pro", "elite"}
    ensures FeatureAccess(plan, "duration_days") <==> plan in {"pro", "elite"}
    ensures FeatureAccess(plan, "ai_credits_weekly") <==> plan in {"pro", "elite"}
    ensures FeatureAccess(plan, "ai_credits_monthly") <==> plan !in {"pro", "elite"}
    ensures !FeatureAccess(plan, "ai_credits_total")
  {
  }

  /** So the lookup is not monotone in the plan once non-switch keys are asked. */
  lemma MonthlyCreditsNotMonotone()
    ensures FeatureAccess("free", "ai_credits_monthly") && !FeatureAccess("pro", "ai_credits_monthly")
  {
    ConfigKeysAnswer("free");
    ConfigKeysAnswer("pro");
  }

  /**
   * `get_user_plan` reports a paid plan only while a subscription is
   * current; otherwise it downgrades the user and deactivates all their
   * subscriptions. Nobody else's rows change, and credits never do.
   */
  lemma PlanDowngrade(a: Accounts, userId: int, now: int)
    ensures var (a1, plan) := PlanSpec(a, userId, now);
      && (plan in {"pro", "elite"} ==> HasCurrent(a1.subscriptions, userId, now))
      && (userId !in a.users ==> plan == "free" && a1 == a)
      && (userId in a.users && a.users[userId] in {"pro", "elite"} && !HasCurrent(a.subscriptions, userId, now) ==>
            && plan == "free" && a1.users[userId] == "free"
            && forall i :: 0 <= i < |a1.subscriptions| && a1.subscriptions[i].userId == userId ==> !a1.subscriptions[i].isActive)
      && (userId in a.users && (a.users[userId] !in {"pro", "elite"} || HasCurrent(a.subscriptions, userId, now)) ==>
            plan == a.users[userId] && a1 == a)
      && a1.credits == a.credits && a1.users.Keys == a.users.Keys && |a1.subscriptions| == |a.subscriptions|
      && (forall v :: v in a.users && v != userId ==> a1.users[v] == a.users[v])
      && (forall i :: 0 <= i < |a.subscriptions| && a.subscriptions[i].userId != userId ==> a1.subscriptions[i] == a.subscriptions[i])
  {
  }

  /** Asking twice changes nothing more and gives the same plan. */
  lemma PlanIdempotent(a: Accounts, userId: int, now: int)
    ensures PlanSpec(PlanSpec(a, userId, now).0, userId, now) == PlanSpec(a, userId, now)
  {
  }

  /**
   * `check_ai_credits` reports credits left exactly when the row it reads
   * has total above used, never reports a negative remainder, and adds at
   * most one row, a fresh unused one of this user, when none matched.
   */
  lemma CreditsReport(a: Accounts, userId: int, now: int)
    ensures var (a1, info) := CreditsSpec(a, userId, now);
      && (info.hasCredits <==> info.remaining > 0) && info.remaining >= 0
      && a1.credits[..|a.credits|] == a.credits
      && (|a1.credits| == |a.credits| || |a1.credits| == |a.credits| + 1)
      && (|a1.credits| == |a.credits| + 1 ==>
            a1.credits[|a.credits|].userId == userId && a1.credits[|a.credits|].usedCredits == 0 && info.hasCredits)
      && (info != NoCredits ==> info.plan == PlanSpec(a, userId, now).1)
  {
  }

  /** A second credit check finds the row the first one read or opened, and changes nothing. */
  lemma CreditsIdempotent(a: Accounts, userId: int, now: int)
    ensures CreditsSpec(CreditsSpec(a, userId, now).0, userId, now) == CreditsSpec(a, userId, now)
  {
    var (a0, plan) := PlanSpec(a, userId, now);
    var (a1, info) := CreditsSpec(a, userId, now);
    assert a1.users == a0.users && a1.subscriptions == a0.subscriptions;
    assert PlanSpec(a1, userId, now) == (a1, plan) by {
      PlanIdempotent(a, userId, now);
    }
    if info != NoCredits || plan == "free" {
      var from := if plan == "free" then None else Some(WeekStart(now));
      if LastCredit(a0.credits, userId, from).None? {
        var n := |a0.credits|;
        assert a1.credits[..n] == a0.credits;
        assert LastCredit(a1.credits, userId, from) == Some(n);
      }
    }
  }

  /** A free user's first check opens their one lifetime row of five credits. */
  lemma FirstFreeCheck(a: Accounts, userId: int, now: int)
    requires PlanSpec(a, userId, now).1 == "free"
    requires forall j :: 0 <= j < |a.credits| ==> a.credits[j].userId != userId
    ensures var (a1, info) := CreditsSpec(a, userId, now);
      && a1.credits == a.credits + [CreditRecord(userId, FreeCredits, 0, now)]
      && info == CreditInfo(true, 5, 5, "free")
  {
    var a1 := PlanSpec(a, userId, now).0;
    assert a1.credits == a.credits;
    assert LastCredit(a1.credits, userId, None).None?;
  }

  /** When the check reports credits, the row it read is the row a charge will find. */
  lemma {:induction false} CheckedRow(a: Accounts, userId: int, now: int) returns (i: nat)
    requires CreditsSpec(a, userId, now).1.hasCredits
    ensures var (a1, info) := CreditsSpec(a, userId, now);
      && ChargedRow(a1.credits, userId, info.plan, now) == Some(i)
      && i < |a1.credits| && a1.credits[i].userId == userId && View(a1.credits[i], info.plan) == info
  {
    var (a0, plan) := PlanSpec(a, userId, now);
    var (a1, info) := CreditsSpec(a, userId, now);
    var from := if plan == "free" then None else Some(WeekStart(now));
    assert ChargedRow(a1.credits, userId, info.plan, now) == LastCredit(a1.credits, userId, from);
    match LastCredit(a0.credits, userId, from)
    case Some(k) =>
      i := k;
    case None =>
      i := |a0.credits|;
      assert a1.credits[..i] == a0.credits;
  }

  /** `a2` is `a1` with `amount` charged to row `i`, the user's row that `info` reports on. */
  predicate ChargedAt(a1: Accounts, a2: Accounts, i: int, userId: int, amount: int, info: CreditInfo) {
    && 0 <= i < |a1.credits| && a1.credits[i].userId == userId
    && View(a1.credits[i], info.plan) == info
    && a2 == a1.(credits := a1.credits[i := a1.credits[i].(usedCredits := a1.credits[i].usedCredits + amount)])
  }

  /**
   * `consume_ai_credit` succeeds exactly when the check reports credits,
   * and then charges `amount` to the very row the check reported on, and
   * changes nothing else.
   */
  lemma ConsumeCharges(a: Accounts, userId: int, amount: int, now: int)
    ensures var (a1, info) := CreditsSpec(a, userId, now);
      var (a2, ok) := ConsumeSpec(a, userId, amount, now);
      && (ok <==> info.hasCredits)
      && (!ok ==> a2 == a1)
      && (ok ==> exists i :: ChargedAt(a1, a2, i, userId, amount, info))
  {
    if CreditsSpec(a, userId, now).1.hasCredits {
      var i := CheckedRow(a, userId, now);
      assert ChargedAt(CreditsSpec(a, userId, now).0, ConsumeSpec(a, userId, amount, now).0, i, userId, amount, CreditsSpec(a, userId, now).1);
    }
  }

  /**
   * Nothing stops a charge from taking `used` past `total`: whenever the
   * check reports credits, a charge larger than the remainder is accepted
   * and leaves the charged row of this user overdrawn.
   */
  lemma ConsumeMayOverdraw(a: Accounts, userId: int, amount: int, now: int) returns (i: nat)
    requires CreditsSpec(a, userId, now).1.hasCredits
    requires amount > CreditsSpec(a, userId, now).1.remaining
    ensures var (a2, ok) := ConsumeSpec(a, userId, amount, now);
      && ok && i < |a2.credits| && a2.credits[i].userId == userId
      && a2.credits[i].usedCredits > a2.credits[i].totalCredits
  {
    i := CheckedRow(a, userId, now);
  }

  /**
   * After `activate_subscription` the new subscription is the user's only
   * active one, the user's plan is the new plan, and a weekly credit row
   * is added exactly when the plan has a weekly allowance.
   */
  lemma ActivationLeavesOneActive(a: Accounts, userId: int, plan: string, paymentId: Option<int>, durationDays: int, now: int)
    ensures var (a1, r) := ActivateSpec(a, userId, plan, paymentId, durationDays, now);
      var n := |a.subscriptions|;
      && |a1.subscriptions| == n + 1 && r.subscriptionId == n + 1
      && a1.subscriptions[n] == SubRecord(userId, plan, now, now + durationDays * SecondsPerDay, true, paymentId)
      && (forall i :: 0 <= i < n && a1.subscriptions[i].userId == userId ==> !a1.subscriptions[i].isActive)
      && (userId in a.users ==> a1.users == a.users[userId := plan])
      && (Plans.WeeklyAllowance(plan) > 0 <==> |a1.credits| == |a.credits| + 1)
      && (plan in {"pro", "elite"} ==> a1.credits[|a.credits|] == CreditRecord(userId, r.weeklyCredits, 0, WeekStart(now)))
  {
  }

  /**
   * A paid activation keeps the plan exactly until its end date: any later
   * check downgrades the user, because every older subscription is inactive.
   */
  lemma ActivatedPlanHolds(a: Accounts, userId: int, plan: string, paymentId: Option<int>, durationDays: int, now: int, t: int)
    requires userId in a.users && plan in {"pro", "elite"}
    ensures var a1 := ActivateSpec(a, userId, plan, paymentId, durationDays, now).0;
      var end := now + durationDays * SecondsPerDay;
      && (t <= end ==> PlanSpec(a1, userId, t) == (a1, plan))
      && (t > end ==> PlanSpec(a1, userId, t).1 == "free")
  {
    var a1 := ActivateSpec(a, userId, plan, paymentId, durationDays, now).0;
    var n := |a.subscriptions|;
    var end := now + durationDays * SecondsPerDay;
    ActivationLeavesOneActive(a, userId, plan, paymentId, durationDays, now);
    if t <= end {
      assert Current(a1.subscriptions[n], userId, t);
    } else {
      assert forall i :: 0 <= i < |a1.subscriptions| ==> !Current(a1.subscriptions[i], userId, t);
    }
  }

  /** Within the activation's week, a paid user's credit check reads the fresh row: the full weekly allowance. */
  lemma ActivatedCreditsFull(a: Accounts, userId: int, plan: string, paymentId: Option<int>, durationDays: int, now: int, t: int)
    requires userId in a.users && plan in {"pro", "elite"}
    requires now <= t <= now + durationDays * SecondsPerDay && WeekStart(t) == WeekStart(now)
    ensures var a1 := ActivateSpec(a, userId, plan, paymentId, durationDays, now).0;
      CreditsSpec(a1, userId, t) == (a1, CreditInfo(true, Plans.WeeklyAllowance(plan), Plans.WeeklyAllowance(plan), plan))
  {
    var a1 := ActivateSpec(a, userId, plan, paymentId, durationDays, now).0;
    ActivatedPlanHolds(a, userId, plan, paymentId, durationDays, now, t);
    ActivationLeavesOneActive(a, userId, plan, paymentId, durationDays, now);
    assert LastCredit(a1.credits, userId, Some(WeekStart(t))) == Some(|a.credits|);
  }

  /** A paid plan in the status always comes with its active subscription, whose days left are never negative. */
  lemma StatusShowsSubscription(a: Accounts, userId: int, now: int)
    ensures var s := StatusSpec(a, userId, now).1;
      && (s.plan in {"pro", "elite"} ==> s.subscription.Some? && s.subscription.value.isActive && s.subscription.value.endDate >= now)
      && (s.subscription.Some? ==> s.subscription.value.daysLeft >= 0)
      && (s.plan !in {"pro", "elite"} ==> s.subscription.None?)
  {
    var (a1, plan) := PlanSpec(a, userId, now);
    var a2 := CreditsSpec(a1, userId, now).0;
    if plan in {"pro", "elite"} {
      PlanDowngrade(a, userId, now);
      assert a2.subscriptions == a1.subscriptions;
      var k :| 0 <= k < |a2.subscriptions| && Current(a2.subscriptions[k], userId, now);
      assert LatestActive(a2.subscriptions, userId).Some?;
    }
  }

  /** Access to each switch only grows from free to pro to elite; free and unknown plans get none. */
  lemma AccessMonotone(f: Plans.Feature, plan: string)
    ensures FeatureAccess("free", f.Key()) ==> FeatureAccess("pro", f.Key())
    ensures FeatureAccess("pro", f.Key()) ==> FeatureAccess("elite", f.Key())
    ensures plan !in {"pro", "elite"} ==> !FeatureAccess(plan, f.Key())
  {
    Plans.FeatureKeyRoundTrip(f);
    Plans.FeaturesMonotone();
  }

  class AccountDb {
    var users: map<int, string>
    var subscriptions: seq<SubRecord>
    var credits: seq<CreditRecord>

    function State(): Accounts
      reads this
    {
      Accounts(users, subscriptions, credits)
    }

    constructor(a: Accounts)
      ensures State() == a
    {
      users := a.users;
      subscriptions := a.subscriptions;
      credits := a.credits;
    }

    /** `get_user_plan` */
    method GetUserPlan(userId: int, now: int) returns (plan: string)
      modifies this
      ensures (State(), plan) == PlanSpec(old(State()), userId, now)
    {
      if userId !in users {
        return "free";
      }
      if users[userId] in {"pro", "elite"} && !HasCurrent(subscriptions, userId, now) {
        users := users[userId := "free"];
        subscriptions := Deactivate(subscriptions, userId);
        return "free";
      }
      plan := users[userId];
    }

    /** `check_ai_credits` */
    method CheckAiCredits(userId: int, now: int) returns (info: CreditInfo)
      modifies this
      ensures (State(), info) == CreditsSpec(old(State()), userId, now)
    {
      var plan := GetUserPlan(userId, now);
      var row: CreditRecord;
      var found: Option<nat>;
      if plan == "free" {
        found := LastCredit(credits, userId, None);
        row := CreditRecord(userId, FreeCredits, 0, now);
      } else {
        var weekly := WeeklyRow(plan, userId, now);
        if weekly.None? {
          return NoCredits;
        }
        found := LastCredit(credits, userId, Some(WeekStart(now)));
        row := weekly.value;
      }
      if found.Some? {
        row := credits[found.value];
      } else {
        credits := credits + [row];
      }
      info := View(row, plan);
    }

    /** `consume_ai_credit` */
    method ConsumeAiCredit(userId: int, amount: int, now: int) returns (ok: bool)
      modifies this
      ensures (State(), ok) == ConsumeSpec(old(State()), userId, amount, now)
    {
      var info := CheckAiCredits(userId, now);
      if !info.hasCredits {
        return false;
      }
      var found := ChargedRow(credits, userId, info.plan, now);
      if found.None? {
        return false;
      }
      var i := found.value;
      credits := credits[i := credits[i].(usedCredits := credits[i].usedCredits + amount)];
      ok := true;
    }

    /** `activate_subscription` */
    method ActivateSubscription(userId: int, plan: string, paymentId: Option<int>, durationDays: int, now: int) returns (r: Activation)
      modifies this
      ensures (State(), r) == ActivateSpec(old(State()), userId, plan, paymentId, durationDays, now)
    {
      var end := now + durationDays * SecondsPerDay;
      subscriptions := Deactivate(subscriptions, userId);
      subscriptions := subscriptions + [SubRecord(userId, plan, now, end, true, paymentId)];
      var id := |subscriptions|;
      if userId in users {
        users := users[userId := plan];
      }
      var weekly := Plans.WeeklyAllowance(plan);
      if weekly > 0 {
        credits := credits + [CreditRecord(userId, weekly, 0, WeekStart(now))];
      }
      r := Activation(id, plan, now, end, weekly);
    }

    /** `get_subscription_status` */
    method GetSubscriptionStatus(userId: int, now: int) returns (s: Status)
      modifies this
      ensures (State(), s) == StatusSpec(old(State()), userId, now)
    {
      var plan := GetUserPlan(userId, now);
      var creditInfo := CheckAiCredits(userId, now);
      var sub: Option<SubView> := None;
      if plan in {"pro", "elite"} {
        var latest := LatestActive(subscriptions, userId);
        if latest.Some? {
          var row := subscriptions[latest.value];
          sub := Some(SubView(row.endDate, DaysLeft(row.endDate, now), row.isActive));
        }
      }
      s := Status(plan, PlanName(plan), creditInfo, sub);
    }
  }
}
