/** The payment ledger of app.py (`PaymentManager`) and the two request
    handlers that drive it: a user initiates a payment for a plan, which is
    recorded as pending at the plan's price and flags the user as having a
    payment pending; an administrator then verifies it, which marks it
    verified and activates the owner's premium. The id stamp, the random
    suffix and the clock are parameters. */
module Payments {
  import opened Wrappers
  import opened Plans
  import opened Quota
  import opened Accounts

  /** The two statuses app.py ever writes. */
  datatype Status = Pending | Verified

  datatype Payment = Payment(
    id: string,
    userId: string,
    plan: Plan,
    phoneNumber: string,
    name: Option<string>,
    amount: nat,
    status: Status,
    createdAt: Instant,
    verifiedAt: Option<Instant>)

  /** The status and its time stamp agree. */
  predicate Settled(p: Payment)
  {
    p.status == Verified <==> p.verifiedAt.Some?
  }

  /** "pay_", the creation time stamp, '_' and the random suffix. */
  function PaymentId(stamp: string, suffix: string): string
  {
    "pay_" + stamp + "_" + suffix
  }

  /** The payments, keyed by id. */
  class Ledger {
    var payments: map<string, Payment>

    /** Every record sits under its own id, charges its plan's price, and
        carries a verification time exactly when it is verified. */
    ghost predicate Valid()
      reads this
    {
      forall k :: k in payments ==> payments[k].id == k && payments[k].amount == Price(payments[k].plan) &&
                                    Settled(payments[k])
    }

    constructor ()
      ensures payments == map[] && Valid()
    {
      payments := map[];
    }

    /** `get_payment`. */
    method GetPayment(paymentId: string) returns (p: Option<Payment>)
      ensures p.Some? <==> paymentId in payments
      ensures p.Some? ==> p.value == payments[paymentId]
    {
      if paymentId in payments {
        return Some(payments[paymentId]);
      }
      return None;
    }

    /** `update_payment` with the status and verification time the
        administrator sets: an unknown id changes nothing and is refused. */
    method UpdatePayment(paymentId: string, status: Status, verifiedAt: Option<Instant>) returns (ok: bool)
      requires Valid() && (status == Verified <==> verifiedAt.Some?)
      modifies this
      ensures Valid()
      ensures ok <==> paymentId in old(payments)
      ensures !ok ==> payments == old(payments)
      ensures ok ==> payments == old(payments)[paymentId := old(payments)[paymentId].(status := status, verifiedAt := verifiedAt)]
    {
      if paymentId in payments {
        payments := payments[paymentId := payments[paymentId].(status := status, verifiedAt := verifiedAt)];
        return true;
      }
      return false;
    }
  }

  /** A new pending payment as `create_payment` records it. */
  function NewPayment(id: string, userId: string, plan: Plan, phoneNumber: string, name: Option<string>,
                      now: Instant): (p: Payment)
    ensures p.status == Pending && p.amount == Price(plan) && p.verifiedAt == None && Settled(p)
  {
    Payment(id, userId, plan, phoneNumber, name, Price(plan), Pending, now, None)
  }

  /** The owner's record after `create_payment`: a payment is pending, and a
      given non-empty name fills in a missing one. */
  function MarkPending(a: Account, name: Option<string>): (r: Account)
    ensures r.paymentPending
    ensures r.name == (if a.name == "" && name.Some? && name.value != "" then name.value else a.name)
    ensures r.(paymentPending := a.paymentPending, name := a.name) == a
  {
    if name.Some? && name.value != "" && a.name == "" then a.(paymentPending := true, name := name.value)
    else a.(paymentPending := true)
  }

  /** `create_payment`: records the pending payment (replacing one created in
      the same second with the same suffix) and flags the owner, when the
      owner exists. */
  method CreatePayment(ledger: Ledger, store: UserStore, userId: string, plan: Plan, phoneNumber: string,
                       name: Option<string>, stamp: string, suffix: string, now: Instant)
    returns (p: Payment)
    requires ledger.Valid() && store.Valid()
    modifies ledger, store
    ensures ledger.Valid() && store.Valid()
    ensures p == NewPayment(PaymentId(stamp, suffix), userId, plan, phoneNumber, name, now)
    ensures ledger.payments == old(ledger.payments)[p.id := p]
    ensures userId in old(store.users) ==> store.users == old(store.users)[userId := MarkPending(old(store.users)[userId], name)]
    ensures userId !in old(store.users) ==> store.users == old(store.users)
  {
    p := NewPayment(PaymentId(stamp, suffix), userId, plan, phoneNumber, name, now);
    ledger.payments := ledger.payments[p.id := p];
    if userId in store.users {
      var user := new User.Load(store.users[userId]);
      user.paymentPending := true;
      if name.Some? && name.value != "" && user.name == "" {
        user.name := name.value;
      }
      store.Save(user);
    }
  }

  /** The answers of `api_initiate_payment`. */
  datatype Initiation = MissingFields | InvalidPlanType | Initiated(paymentId: string)

  /** `api_initiate_payment`: the user id, plan key and phone number must be
      given (an empty string counts as missing), and the key must name a
      plan; then the payment is created. */
  method InitiatePayment(ledger: Ledger, store: UserStore, userId: string, planKey: string, phoneNumber: string,
                         name: Option<string>, stamp: string, suffix: string, now: Instant)
    returns (r: Initiation)
    requires ledger.Valid() && store.Valid()
    modifies ledger, store
    ensures ledger.Valid() && store.Valid()
    ensures userId == "" || planKey == "" || phoneNumber == "" ==>
              r == MissingFields && ledger.payments == old(ledger.payments) && store.users == old(store.users)
    ensures userId != "" && planKey != "" && phoneNumber != "" && ParsePlan(planKey).None? ==>
              r == InvalidPlanType && ledger.payments == old(ledger.payments) && store.users == old(store.users)
    ensures r.Initiated? ==>
              r.paymentId == PaymentId(stamp, suffix) && r.paymentId in ledger.payments &&
              ledger.payments[r.paymentId].status == Pending &&
              Key(ledger.payments[r.paymentId].plan) == planKey &&
              ledger.payments[r.paymentId].amount == Price(ledger.payments[r.paymentId].plan)
    ensures r.Initiated? ==>
              ledger.payments == old(ledger.payments)[r.paymentId :=
                NewPayment(PaymentId(stamp, suffix), userId, ParsePlan(planKey).value, phoneNumber, name, now)]
    ensures r.Initiated? && userId in old(store.users) ==>
              store.users == old(store.users)[userId := MarkPending(old(store.users)[userId], name)]
    ensures r.Initiated? && userId !in old(store.users) ==> store.users == old(store.users)
    ensures r.Initiated? <==> userId != "" && planKey != "" && phoneNumber != "" && ParsePlan(planKey).Some?
  {
    if userId == "" || planKey == "" || phoneNumber == "" {
      return MissingFields;
    }
    var plan := ParsePlan(planKey);
    if plan.None? {
      return InvalidPlanType;
    }
    var p := CreatePayment(ledger, store, userId, plan.value, phoneNumber, name, stamp, suffix, now);
    return Initiated(p.id);
  }

  /** `api_admin_verify_payment`: an unknown payment is refused with nothing
      changed; otherwise the payment is marked verified now, whatever its
      status was, and the owner, if there is one, gets the plan's premium
      from today. */
  method VerifyPayment(ledger: Ledger, store: UserStore, paymentId: string, now: Instant, today: Day)
    returns (ok: bool)
    requires ledger.Valid() && store.Valid()
    modifies ledger, store
    ensures ledger.Valid() && store.Valid()
    ensures ok <==> paymentId in old(ledger.payments)
    ensures !ok ==> ledger.payments == old(ledger.payments) && store.users == old(store.users)
    ensures ok ==>
              var p := old(ledger.payments)[paymentId];
              ledger.payments == old(ledger.payments)[paymentId := p.(status := Verified, verifiedAt := Some(now))] &&
              (p.userId in old(store.users) ==>
                 store.users == old(store.users)[p.userId := Activated(old(store.users)[p.userId], p.plan, today)]) &&
              (p.userId !in old(store.users) ==> store.users == old(store.users))
  {
    var found := ledger.GetPayment(paymentId);
    if found.None? {
      return false;
    }
    var p := found.value;
    var _ := ledger.UpdatePayment(paymentId, Verified, Some(now));
    if p.userId in store.users {
      var user := new User.Load(store.users[p.userId]);
      user.ActivatePremium(p.plan, today);
      store.Save(user);
    }
    return true;
  }

  /** Verification restarts premium from the day it happens: a second
      verification, or one while premium still runs, does not add to the days
      left but replaces them. */
  lemma ReactivationRestartsFromToday(a: Account, first: Plan, second: Plan, day1: Day, day2: Day)
    ensures Activated(Activated(a, first, day1), second, day2).premiumUntil == Some(day2 + DurationDays(second))
    ensures Activated(Activated(a, first, day1), second, day2) == Activated(a, second, day2)
  {
  }
}
