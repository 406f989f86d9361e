/**
 * Single-use voucher codes (app/services/voucher_service.py): generated codes
 * are "FN-" plus random upper-case letters and digits; redeeming a code
 * activates its plan for its duration and marks it used by the redeemer.
 */
module Voucher {
  import opened Wrappers
  import opened Text
  import Subscription

  const Prefix: string := "FN-"

  /** The `k`-th character of `string.ascii_uppercase + string.digits`. */
  function AlphabetAt(k: nat): (c: char)
    requires k < 36
    ensures IsUpperAscii(c) || IsDigit(c)
  {
    if k < 26 then ('A' as int + k) as char else ('0' as int + (k - 26)) as char
  }

  predicate AlphabetChar(c: char) {
    IsUpperAscii(c) || IsDigit(c)
  }

  /** A code as `generate_voucher_code` makes them with `length` random characters. */
  predicate CodeShape(code: string, length: nat) {
    && |code| == |Prefix| + length
    && code[..|Prefix|] == Prefix
    && forall i :: |Prefix| <= i < |code| ==> AlphabetChar(code[i])
  }

  /**
   * `generate_voucher_code(length)`: `picks` are the positions in the
   * alphabet that `secrets.choice` drew.
   */
  function GenerateCode(length: nat, picks: seq<nat>): (code: string)
    requires |picks| == length && forall i :: 0 <= i < |picks| ==> picks[i] < 36
    ensures CodeShape(code, length)
  {
    Prefix + seq(length, i requires 0 <= i < length => AlphabetAt(picks[i]))
  }

  /** The position of an alphabet character: `AlphabetAt` read backwards. */
  function AlphabetIndex(c: char): (k: nat)
    requires AlphabetChar(c)
    ensures k < 36 && AlphabetAt(k) == c
  {
    if IsUpperAscii(c) then c as int - 'A' as int else 26 + (c as int - '0' as int)
  }

  /** Different draws give different codes. */
  lemma CodesDistinct(length: nat, p1: seq<nat>, p2: seq<nat>)
    requires |p1| == length && forall i :: 0 <= i < |p1| ==> p1[i] < 36
    requires |p2| == length && forall i :: 0 <= i < |p2| ==> p2[i] < 36
    requires GenerateCode(length, p1) == GenerateCode(length, p2)
    ensures p1 == p2
  {
    forall i | 0 <= i < length
      ensures p1[i] == p2[i]
    {
      assert GenerateCode(length, p1)[|Prefix| + i] == AlphabetAt(p1[i]);
      assert GenerateCode(length, p2)[|Prefix| + i] == AlphabetAt(p2[i]);
    }
  }

  /** Every code of the shape is the code of some draw: the generator reaches all 36^length codes. */
  lemma CodesCover(code: string, length: nat) returns (picks: seq<nat>)
    requires CodeShape(code, length)
    ensures |picks| == length && forall i :: 0 <= i < |picks| ==> picks[i] < 36
    ensures GenerateCode(length, picks) == code
  {
    picks := seq<nat>(length, i requires 0 <= i < length => AlphabetIndex(code[|Prefix| + i]));
    forall i | 0 <= i < length
      ensures picks[i] < 36 && AlphabetAt(picks[i]) == code[|Prefix| + i]
    {
      assert AlphabetChar(code[|Prefix| + i]);
      assert picks[i] == AlphabetIndex(code[|Prefix| + i]);
    }
    var g := GenerateCode(length, picks);
    assert g[..|Prefix|] == code[..|Prefix|];
    assert forall i :: |Prefix| <= i < |code| ==> g[i] == code[i];
  }

  /** The redeem-side normalisation: strip, upper-case, and add "FN-" when there is no dash at all. */
  function NormalizeCode(code: string): (r: string)
    ensures var u := Upper(Strip(code));
      && ('-' in u ==> r == u)
      && ('-' !in u ==> r == Prefix + u)
  {
    var u := Upper(Strip(code));
    assert StartsWith(u, Prefix) ==> u[2] == Prefix[2] == '-';
    if !StartsWith(u, Prefix) && '-' !in u then Prefix + u else u
  }

  /** A generated code has no whitespace and no lower-case letter, and its only dash is the prefix's. */
  lemma CodeChars(code: string, length: nat)
    requires CodeShape(code, length)
    ensures forall i :: 0 <= i < |code| ==> !IsSpace(code[i]) && !IsLowerAscii(code[i])
    ensures code[2] == '-' && '-' !in code[|Prefix|..]
    ensures code == Prefix + code[|Prefix|..]
  {
    assert forall i :: 0 <= i < |Prefix| ==> code[i] == Prefix[i];
  }

  /** Upper-casing a generated code typed in any letter case gives it back. */
  lemma {:induction false} UpperRestoresCode(code: string, length: nat)
    requires CodeShape(code, length)
    ensures Upper(code) == code && Upper(Lower(code)) == code
  {
    CodeChars(code, length);
    assert forall i :: 0 <= i < |code| ==> Upper(code)[i] == code[i];
    assert forall i :: 0 <= i < |code| ==> Upper(Lower(code))[i] == code[i];
  }

  /** A generated code is found again when typed in any letter case. */
  lemma {:induction false} NormalizeFindsCode(code: string, length: nat, typed: string)
    requires CodeShape(code, length)
    requires typed == code || typed == Lower(code)
    ensures NormalizeCode(typed) == code
  {
    CodeChars(code, length);
    UpperRestoresCode(code, length);
    assert !IsSpace(typed[0]) && !IsSpace(typed[|typed| - 1]) by {
      if typed == Lower(code) {
        assert typed[0] == LowerChar(code[0]) && typed[|typed| - 1] == LowerChar(code[|code| - 1]);
      }
    }
    StripUnpadded(typed);
    assert Upper(typed) == code;
    assert code[2] == '-';
  }

  /** Text made of alphabet characters is its own strip and its own upper case, and has no dash. */
  lemma AlphabetText(body: string)
    requires forall i :: 0 <= i < |body| ==> AlphabetChar(body[i])
    ensures Upper(Strip(body)) == body && '-' !in body
  {
    if body != [] {
      StripUnpadded(body);
    }
    assert forall i :: 0 <= i < |body| ==> Upper(body)[i] == body[i];
  }

  /** A generated code is found again from its random part alone, the prefix being added back. */
  lemma NormalizeFindsBody(code: string, length: nat)
    requires CodeShape(code, length)
    ensures NormalizeCode(code[|Prefix|..]) == code
  {
    CodeChars(code, length);
    AlphabetText(code[|Prefix|..]);
  }

  datatype VoucherRow = VoucherRow(
    code: string,
    plan: string,
    durationDays: int,
    targetUser: Option<string>,
    isUsed: bool,
    usedByUserId: Option<int>,
    usedAt: Option<int>)

  /** The voucher table next to the account tables a redeem writes. */
  datatype Ledger = Ledger(vouchers: seq<VoucherRow>, accounts: Subscription.Accounts)

  /** The voucher with this code; codes are unique. */
  function FindCode(vouchers: seq<VoucherRow>, code: string): (r: Option<nat>)
    ensures r.Some? ==> r.value < |vouchers| && vouchers[r.value].code == code
    ensures r.None? ==> forall j :: 0 <= j < |vouchers| ==> vouchers[j].code != code
  {
    if |vouchers| == 0 then None
    else if vouchers[|vouchers| - 1].code == code then Some(|vouchers| - 1)
    else FindCode(vouchers[..|vouchers| - 1], code)
  }

  /** What `create_voucher` returns; a code already taken violates the table's uniqueness. */
  datatype Created = Created(code: string, plan: string, duration: int) | DuplicateCode

  /** `create_voucher` with the drawn code. */
  function CreateSpec(vouchers: seq<VoucherRow>, code: string, plan: string, durationDays: int, targetUser: Option<string>): (seq<VoucherRow>, Created) {
    if FindCode(vouchers, code).Some? then (vouchers, DuplicateCode)
    else (vouchers + [VoucherRow(code, Lower(plan), durationDays, targetUser, false, None, None)], Created(code, Lower(plan), durationDays))
  }

  /** A new voucher is unused, has its plan lower-cased, and keeps codes unique. */
  lemma CreateKeepsCodesUnique(vouchers: seq<VoucherRow>, code: string, plan: string, durationDays: int, targetUser: Option<string>)
    requires UniqueCodes(vouchers)
    ensures var (vs, r) := CreateSpec(vouchers, code, plan, durationDays, targetUser);
      && UniqueCodes(vs)
      && (r.Created? ==> vs == vouchers + [VoucherRow(code, Lower(plan), durationDays, targetUser, false, None, None)])
      && (r.DuplicateCode? <==> exists j :: 0 <= j < |vouchers| && vouchers[j].code == code)
      && (r.DuplicateCode? ==> vs == vouchers)
  {
  }

  predicate UniqueCodes(vouchers: seq<VoucherRow>) {
    forall i, j :: 0 <= i < j < |vouchers| ==> vouchers[i].code != vouchers[j].code
  }

  /** What `redeem_voucher` returns. */
  datatype Redemption =
    | InvalidCode
    | AlreadyUsed(usedAt: Option<int>)
    | Redeemed(plan: string, duration: int, subscription: Subscription.Activation)

  /** The plan a voucher grants: its own when pro or elite, pro otherwise. */
  function GrantedPlan(plan: string): (p: string)
    ensures p in {"pro", "elite"}
    ensures Lower(plan) in {"pro", "elite"} ==> p == Lower(plan)
  {
    var lowered := Lower(plan);
    if lowered in {"pro", "elite"} then lowered else "pro"
  }

  /** `redeem_voucher` */
  function RedeemSpec(l: Ledger, userId: int, code: string, now: int): (Ledger, Redemption) {
    match FindCode(l.vouchers, NormalizeCode(code))
    case None => (l, InvalidCode)
    case Some(i) =>
      var v := l.vouchers[i];
      if v.isUsed then (l, AlreadyUsed(v.usedAt))
      else RedeemAt(l, userId, i, now)
  }

  /** Redeeming the voucher at index `i`: its plan is activated and the voucher marked used. */
  function RedeemAt(l: Ledger, userId: int, i: nat, now: int): (Ledger, Redemption)
    requires i < |l.vouchers|
  {
    var v := l.vouchers[i];
    var plan := GrantedPlan(v.plan);
    var (accounts, sub) := Subscription.ActivateSpec(l.accounts, userId, plan, None, v.durationDays, now);
    var vouchers := l.vouchers[i := v.(isUsed := true, usedByUserId := Some(userId), usedAt := Some(now))];
    (Ledger(vouchers, accounts), Redeemed(plan, v.durationDays, sub))
  }

  /**
   * An unknown or used code changes nothing; a fresh one activates the
   * voucher's plan (pro when it names no paid plan) for its duration and
   * marks that voucher, and only it, used by this user.
   */
  lemma RedeemEffects(l: Ledger, userId: int, code: string, now: int)
    ensures var (l1, r) := RedeemSpec(l, userId, code, now);
      && (r.InvalidCode? <==> FindCode(l.vouchers, NormalizeCode(code)).None?)
      && (!r.Redeemed? ==> l1 == l)
      && (r.Redeemed? ==>
            var i := FindCode(l.vouchers, NormalizeCode(code)).value;
            && !l.vouchers[i].isUsed
            && r.plan == GrantedPlan(l.vouchers[i].plan)
            && l1.accounts == Subscription.ActivateSpec(l.accounts, userId, r.plan, None, l.vouchers[i].durationDays, now).0
            && l1.vouchers == l.vouchers[i := l.vouchers[i].(isUsed := true, usedByUserId := Some(userId), usedAt := Some(now))])
  {
  }

  /** A code redeemed once is refused the second time, by anyone, and nothing is activated again. */
  lemma RedeemOnce(l: Ledger, userId: int, other: int, code: string, now: int, later: int)
    requires RedeemSpec(l, userId, code, now).1.Redeemed?
    ensures var l1 := RedeemSpec(l, userId, code, now).0;
      RedeemSpec(l1, other, code, later) == (l1, AlreadyUsed(Some(now)))
  {
    var c := NormalizeCode(code);
    var i := FindCode(l.vouchers, c).value;
    var l1 := RedeemSpec(l, userId, code, now).0;
    RedeemEffects(l, userId, code, now);
    assert l1.vouchers == l.vouchers[i := l.vouchers[i].(isUsed := true, usedByUserId := Some(userId), usedAt := Some(now))];
    FindCodeUnchanged(l.vouchers, l1.vouchers, c);
    RedeemUsed(l1, other, code, later, i);
  }

  /** A code that finds a used voucher is refused with the time it was used. */
  lemma RedeemUsed(l: Ledger, userId: int, code: string, now: int, i: int)
    requires FindCode(l.vouchers, NormalizeCode(code)) == Some(i)
    requires 0 <= i < |l.vouchers| && l.vouchers[i].isUsed
    ensures RedeemSpec(l, userId, code, now) == (l, AlreadyUsed(l.vouchers[i].usedAt))
  {
  }

  /** Changing only the usage fields of vouchers does not change which one a code finds. */
  lemma {:induction false} FindCodeUnchanged(vs: seq<VoucherRow>, ws: seq<VoucherRow>, code: string)
    requires |vs| == |ws| && forall j :: 0 <= j < |vs| ==> vs[j].code == ws[j].code
    ensures FindCode(vs, code) == FindCode(ws, code)
  {
    if |vs| > 0 && vs[|vs| - 1].code != code {
      FindCodeUnchanged(vs[..|vs| - 1], ws[..|ws| - 1], code);
    }
  }

  /** The voucher service over its table and the account tables. */
  class VoucherService {
    var vouchers: seq<VoucherRow>
    const accounts: Subscription.AccountDb

    function State(): Ledger
      reads this, accounts
    {
      Ledger(vouchers, accounts.State())
    }

    constructor(accounts: Subscription.AccountDb)
      ensures this.accounts == accounts && vouchers == []
    {
      this.accounts := accounts;
      vouchers := [];
    }

    /** `create_voucher`; `picks` stands for the random draw of the code. */
    method CreateVoucher(plan: string, durationDays: int, targetUser: Option<string>, picks: seq<nat>) returns (r: Created)
      requires |picks| == 12 && forall i :: 0 <= i < |picks| ==> picks[i] < 36
      modifies this
      ensures (vouchers, r) == CreateSpec(old(vouchers), GenerateCode(12, picks), plan, durationDays, targetUser)
    {
      var code := GenerateCode(12, picks);
      if FindCode(vouchers, code).Some? {
        return DuplicateCode;
      }
      vouchers := vouchers + [VoucherRow(code, Lower(plan), durationDays, targetUser, false, None, None)];
      r := Created(code, Lower(plan), durationDays);
    }

    /** `redeem_voucher` */
    method RedeemVoucher(userId: int, code: string, now: int) returns (r: Redemption)
      modifies this, accounts
      ensures (State(), r) == RedeemSpec(old(State()), userId, code, now)
    {
      var normalized := NormalizeCode(code);
      var found := FindCode(vouchers, normalized);
      if found.None? {
        return InvalidCode;
      }
      var i := found.value;
      var v := vouchers[i];
      if v.isUsed {
        return AlreadyUsed(v.usedAt);
      }
      r := RedeemFresh(userId, i, now);
    }

    /** The redeeming branch of `redeem_voucher`, for the unused voucher at index `i`. */
    method RedeemFresh(userId: int, i: nat, now: int) returns (r: Redemption)
      requires i < |vouchers|
      modifies this, accounts
      ensures (State(), r) == RedeemAt(old(State()), userId, i, now)
    {
      var v := vouchers[i];
      var plan := GrantedPlan(v.plan);
      var sub := accounts.ActivateSubscription(userId, plan, None, v.durationDays, now);
      vouchers := vouchers[i := v.(isUsed := true, usedByUserId := Some(userId), usedAt := Some(now))];
      r := Redeemed(plan, v.durationDays, sub);
    }
  }
}
