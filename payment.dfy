/**
 * Payments for plan upgrades (app/services/payment_service.py): an order is
 * a pending payment row that expires after thirty minutes; the payment
 * provider's webhook marks it paid and activates the subscription, or
 * overwrites its status; a status check expires a pending order that is
 * past its deadline. Row ids count from 1 in creation order.
 */
module Payment {
  import opened Wrappers
  import opened Text
  import opened Json
  import Plans
  import Subscription

  /** An order lives thirty minutes. */
  const OrderLifetime: int := 30 * 60

  datatype PaymentRow = PaymentRow(
    userId: int,
    trakteerId: string,
    plan: string,
    amount: int,
    status: string,
    expiresAt: Option<int>,
    paidAt: Option<int>)

  /** The payment table next to the account tables the webhook writes. */
  datatype Billing = Billing(payments: seq<PaymentRow>, accounts: Subscription.Accounts)

  /** What `create_payment_order` returns. */
  datatype Order = Order(paymentId: int, transactionId: string, plan: string, planName: string, amount: int, expiresAt: int, status: string)

  /** `ValueError` for a plan that cannot be bought. */
  datatype OrderError = InvalidPlan(plan: string)

  /**
   * The provider reference: "TRK-", the creation time in whole seconds, "-",
   * and the first eight hex digits of a random UUID (`nonce`).
   */
  function TransactionRef(now: int, nonce: string): (ref: string)
    ensures StartsWith(ref, "TRK-")
  {
    "TRK-" + IntToString(now) + "-" + nonce
  }

  /**
   * The reference is unique per creation time and nonce: with the eight
   * characters `uuid4().hex[:8]` always has, different pairs give different
   * references.
   */
  lemma RefInjective(t1: int, n1: string, t2: int, n2: string)
    requires |n1| == 8 && |n2| == 8
    requires TransactionRef(t1, n1) == TransactionRef(t2, n2)
    ensures t1 == t2 && n1 == n2
  {
    var r := TransactionRef(t1, n1);
    var s1, s2 := IntToString(t1), IntToString(t2);
    assert r == ("TRK-" + s1 + "-") + n1 && r == ("TRK-" + s2 + "-") + n2;
    assert n1 == r[|r| - 8..] == n2;
    assert |s1| == |s2|;
    assert forall k :: 0 <= k < |s1| ==> s1[k] == r[4 + k] == s2[k];
    assert s1 == s2;
    IntToStringInjective(t1, t2);
  }

  /** `create_payment_order` */
  function OrderSpec(payments: seq<PaymentRow>, userId: int, plan: string, now: int, nonce: string): (seq<PaymentRow>, Result<Order, OrderError>) {
    if plan !in {"pro", "elite"} then (payments, Err(InvalidPlan(plan)))
    else
      var entry := Plans.PlanConfig(plan).value;
      var ref := TransactionRef(now, nonce);
      var row := PaymentRow(userId, ref, plan, entry.price, "pending", Some(now + OrderLifetime), None);
      (payments + [row], Ok(Order(|payments| + 1, ref, plan, entry.name, entry.price, now + OrderLifetime, "pending")))
  }

  /** An order charges the plan's price, starts pending, and expires thirty minutes after it was made; other plans are refused. */
  lemma OrderShape(payments: seq<PaymentRow>, userId: int, plan: string, now: int, nonce: string)
    ensures var (ps, r) := OrderSpec(payments, userId, plan, now, nonce);
      && (plan !in {"pro", "elite"} <==> r.Err?)
      && (r.Err? ==> ps == payments)
      && (r.Ok? ==>
            && |ps| == |payments| + 1 && ps[..|payments|] == payments
            && ps[|payments|].status == "pending" && ps[|payments|].userId == userId && ps[|payments|].plan == plan
            && ps[|payments|].amount == Plans.PlanConfig(plan).value.price && ps[|payments|].amount > 0
            && ps[|payments|].expiresAt == Some(now + 30 * 60)
            && r.value.paymentId == |ps| && r.value.transactionId == ps[|payments|].trakteerId)
  {
  }

  /** The statuses a webhook may report for a completed payment, after lower-casing. */
  predicate PaidStatus(status: string) {
    status in {"paid", "success", "completed"}
  }

  /** What `handle_trakteer_webhook` returns. */
  datatype WebhookResult =
    | NoTransactionId
    | PaymentNotFound
    | AlreadyProcessed
    | Confirmed(userId: int, plan: string, subscription: Subscription.Activation)
    | StatusUpdated(status: string)
    /** An exception inside the handler, reported as `{success: false, error}`. */
    | WebhookFailed

  /** Whether the handler reports success. */
  predicate Succeeded(r: WebhookResult) {
    r.AlreadyProcessed? || r.Confirmed? || r.StatusUpdated?
  }

  /** `payload.get("id") or payload.get("transaction_id")` */
  function ReferenceOf(payload: map<string, Json>): (v: Json)
    ensures Truthy(Get(payload, "id", JNull)) ==> v == payload["id"]
    ensures !Truthy(Get(payload, "id", JNull)) ==> v == Get(payload, "transaction_id", JNull)
  {
    var id := Get(payload, "id", JNull);
    if Truthy(id) then id else Get(payload, "transaction_id", JNull)
  }

  /** The first payment with this provider reference. */
  function FindByRef(payments: seq<PaymentRow>, ref: string): (r: Option<nat>)
    ensures r.Some? ==> r.value < |payments| && payments[r.value].trakteerId == ref
    ensures r.Some? ==> forall j :: 0 <= j < r.value ==> payments[j].trakteerId != ref
    ensures r.None? ==> forall j :: 0 <= j < |payments| ==> payments[j].trakteerId != ref
  {
    if |payments| == 0 then None
    else if payments[0].trakteerId == ref then Some(0)
    else
      var rest := FindByRef(payments[1..], ref);
      if rest.Some? then Some(rest.value + 1) else None
  }

  /** A paid status: the payment is marked paid and the subscription activated for thirty days. */
  function MarkPaid(b: Billing, i: nat, now: int): (Billing, WebhookResult)
    requires i < |b.payments|
  {
    var p := b.payments[i];
    var payments := b.payments[i := p.(status := "paid", paidAt := Some(now))];
    var (accounts, sub) := Subscription.ActivateSpec(b.accounts, p.userId, p.plan, Some(i + 1), 30, now);
    (Billing(payments, accounts), Confirmed(p.userId, p.plan, sub))
  }

  /**
   * `handle_trakteer_webhook`. A status that is not a string fails
   * `.lower()`, and a reference that is not a string fails the lookup;
   * both end in the error answer with nothing changed.
   */
  function WebhookSpec(b: Billing, payload: map<string, Json>, now: int): (Billing, WebhookResult) {
    var status := Get(payload, "status", JStr(""));
    var ref := ReferenceOf(payload);
    if !status.JStr? then (b, WebhookFailed)
    else if !Truthy(ref) then (b, NoTransactionId)
    else if !ref.JStr? then (b, WebhookFailed)
    else
      match FindByRef(b.payments, ref.s)
      case None => (b, PaymentNotFound)
      case Some(i) =>
        var p := b.payments[i];
        if p.status == "paid" then (b, AlreadyProcessed)
        else if PaidStatus(Lower(status.s)) then MarkPaid(b, i, now)
        else
          (b.(payments := b.payments[i := p.(status := Lower(status.s))]), StatusUpdated(Lower(status.s)))
  }

  /**
   * The webhook changes nothing when the reference is missing or unknown or
   * the payment is already paid; otherwise it rewrites only that payment's
   * status, and the account tables change only on a paid status.
   */
  lemma WebhookEffects(b: Billing, payload: map<string, Json>, now: int)
    ensures var (b1, r) := WebhookSpec(b, payload, now);
      && (r.NoTransactionId? || r.PaymentNotFound? || r.AlreadyProcessed? || r.WebhookFailed? ==> b1 == b)
      && |b1.payments| == |b.payments|
      && (r.StatusUpdated? ==> b1.accounts == b.accounts)
      && (forall j :: 0 <= j < |b.payments| && b1.payments[j] != b.payments[j] ==>
            b1.payments[j] == b.payments[j].(status := b1.payments[j].status, paidAt := b1.payments[j].paidAt)
            && b.payments[j].status != "paid")
  {
  }

  /** A paid status confirms the payment and activates a thirty-day subscription for its user and plan. */
  lemma PaidWebhookActivates(b: Billing, payload: map<string, Json>, now: int, i: nat)
    requires Get(payload, "status", JStr("")).JStr? && PaidStatus(Lower(Get(payload, "status", JStr("")).s))
    requires ReferenceOf(payload).JStr? && ReferenceOf(payload).s != []
    requires FindByRef(b.payments, ReferenceOf(payload).s) == Some(i) && b.payments[i].status != "paid"
    ensures var (b1, r) := WebhookSpec(b, payload, now);
      var p := b.payments[i];
      && r == Confirmed(p.userId, p.plan, Subscription.ActivateSpec(b.accounts, p.userId, p.plan, Some(i + 1), 30, now).1)
      && b1.payments[i].status == "paid" && b1.payments[i].paidAt == Some(now)
      && b1.accounts == Subscription.ActivateSpec(b.accounts, p.userId, p.plan, Some(i + 1), 30, now).0
  {
    var p := b.payments[i];
    assert Truthy(ReferenceOf(payload));
    assert WebhookSpec(b, payload, now) == MarkPaid(b, i, now);
  }

  /** A second delivery of the same paid webhook changes nothing and activates nothing. */
  lemma {:induction false} WebhookIdempotent(b: Billing, payload: map<string, Json>, now: int, later: int)
    requires Get(payload, "status", JStr("")).JStr? && PaidStatus(Lower(Get(payload, "status", JStr("")).s))
    ensures var b1 := WebhookSpec(b, payload, now).0;
      var (b2, r2) := WebhookSpec(b1, payload, later);
      b2 == b1 && (WebhookSpec(b, payload, now).1.Confirmed? ==> r2 == AlreadyProcessed)
  {
    var ref := ReferenceOf(payload);
    if Truthy(ref) && ref.JStr? {
      var found := FindByRef(b.payments, ref.s);
      if found.Some? && b.payments[found.value].status != "paid" {
        var i := found.value;
        var b1 := WebhookSpec(b, payload, now).0;
        assert b1.payments[i].trakteerId == ref.s;
        assert forall j :: 0 <= j < i ==> b1.payments[j] == b.payments[j];
        assert FindByRef(b1.payments, ref.s) == Some(i);
      }
    }
  }

  /** Any other status overwrites the stored one, even on an expired order. */
  lemma OtherStatusOverwrites(b: Billing, payload: map<string, Json>, now: int, i: nat)
    requires Get(payload, "status", JStr("")).JStr? && !PaidStatus(Lower(Get(payload, "status", JStr("")).s))
    requires ReferenceOf(payload).JStr? && ReferenceOf(payload).s != []
    requires FindByRef(b.payments, ReferenceOf(payload).s) == Some(i) && b.payments[i].status == "expired"
    ensures WebhookSpec(b, payload, now).0.payments[i].status == Lower(Get(payload, "status", JStr("")).s)
  {
  }

  /** What `check_payment_status` returns. */
  datatype StatusReport =
    | NotFound
    | Expired
    | Found(paymentId: int, status: string, plan: string, amount: int)

  /** A pending order past its deadline. */
  predicate Overdue(p: PaymentRow, now: int) {
    p.expiresAt.Some? && p.expiresAt.value < now && p.status == "pending"
  }

  /** `check_payment_status` */
  function CheckSpec(payments: seq<PaymentRow>, paymentId: int, now: int): (seq<PaymentRow>, StatusReport) {
    if !(1 <= paymentId <= |payments|) then (payments, NotFound)
    else
      var p := payments[paymentId - 1];
      if Overdue(p, now) then (payments[paymentId - 1 := p.(status := "expired")], Expired)
      else (payments, Found(paymentId, p.status, p.plan, p.amount))
  }

  /** Only an overdue pending order changes, and only to "expired"; anything else is reported as stored. */
  lemma CheckExpires(payments: seq<PaymentRow>, paymentId: int, now: int)
    ensures var (ps, r) := CheckSpec(payments, paymentId, now);
      && (r.Expired? <==> 1 <= paymentId <= |payments| && Overdue(payments[paymentId - 1], now))
      && (r.Expired? ==> ps == payments[paymentId - 1 := payments[paymentId - 1].(status := "expired")])
      && (!r.Expired? ==> ps == payments)
      && (r.Found? ==> r.status == payments[paymentId - 1].status)
  {
  }

  /** An expired order is reported as found, not expired again. */
  lemma CheckSettles(payments: seq<PaymentRow>, paymentId: int, now: int)
    ensures var ps := CheckSpec(payments, paymentId, now).0;
      CheckSpec(ps, paymentId, now) == (ps, CheckSpec(ps, paymentId, now).1)
      && !CheckSpec(ps, paymentId, now).1.Expired?
  {
  }

  /**
   * `verify_trakteer_signature`: with no secret configured every payload is
   * accepted; otherwise the signature must equal the HMAC-SHA256 hex digest
   * of the payload (`hmac`, outside the model).
   */
  function VerifySignature(secret: string, payload: string, signature: string, hmac: (string, string) -> string): (ok: bool)
    ensures secret == [] ==> ok
    ensures secret != [] ==> (ok <==> signature == hmac(secret, payload))
  {
    if secret == [] then true else hmac(secret, payload) == signature
  }

  /** The payment service over its table and the account tables. */
  class PaymentService {
    var payments: seq<PaymentRow>
    const accounts: Subscription.AccountDb

    function State(): Billing
      reads this, accounts
    {
      Billing(payments, accounts.State())
    }

    constructor(accounts: Subscription.AccountDb)
      ensures this.accounts == accounts && payments == []
    {
      this.accounts := accounts;
      payments := [];
    }

    /** `create_payment_order`; `nonce` stands for the random UUID prefix. */
    method CreatePaymentOrder(userId: int, plan: string, now: int, nonce: string) returns (r: Result<Order, OrderError>)
      modifies this
      ensures (payments, r) == OrderSpec(old(payments), userId, plan, now, nonce)
    {
      if plan !in {"pro", "elite"} {
        return Err(InvalidPlan(plan));
      }
      var entry := Plans.PlanConfig(plan).value;
      var ref := TransactionRef(now, nonce);
      payments := payments + [PaymentRow(userId, ref, plan, entry.price, "pending", Some(now + OrderLifetime), None)];
      r := Ok(Order(|payments|, ref, plan, entry.name, entry.price, now + OrderLifetime, "pending"));
    }

    /** `handle_trakteer_webhook` */
    method HandleWebhook(payload: map<string, Json>, now: int) returns (r: WebhookResult)
      modifies this, accounts
      ensures (State(), r) == WebhookSpec(old(State()), payload, now)
    {
      var status := Get(payload, "status", JStr(""));
      var ref := ReferenceOf(payload);
      if !status.JStr? {
        return WebhookFailed;
      }
      if !Truthy(ref) {
        return NoTransactionId;
      }
      if !ref.JStr? {
        return WebhookFailed;
      }
      var found := FindByRef(payments, ref.s);
      if found.None? {
        return PaymentNotFound;
      }
      var i := found.value;
      var p := payments[i];
      if p.status == "paid" {
        return AlreadyProcessed;
      }
      var lowered := Lower(status.s);
      if PaidStatus(lowered) {
        payments := payments[i := p.(status := "paid", paidAt := Some(now))];
        var sub := accounts.ActivateSubscription(p.userId, p.plan, Some(i + 1), 30, now);
        r := Confirmed(p.userId, p.plan, sub);
      } else {
        payments := payments[i := p.(status := lowered)];
        r := StatusUpdated(lowered);
      }
    }

    /** `check_payment_status` */
    method CheckPaymentStatus(paymentId: int, now: int) returns (r: StatusReport)
      modifies this
      ensures (payments, r) == CheckSpec(old(payments), paymentId, now)
    {
      if !(1 <= paymentId <= |payments|) {
        return NotFound;
      }
      var p := payments[paymentId - 1];
      if p.expiresAt.Some? && p.expiresAt.value < now && p.status == "pending" {
        payments := payments[paymentId - 1 := p.(status := "expired")];
        return Expired;
      }
      r := Found(paymentId, p.status, p.plan, p.amount);
    }
  }
}
