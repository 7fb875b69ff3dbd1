/** The account and payment layer of app_enhanced.py: module-level maps of
    user profiles and payments, the daily free-check quota, premium
    activation, the expiry test of the check handlers, payment initiation
    and the administrator's approve/reject action.

    The user map holds the profile objects themselves: `get_user` hands out
    the stored object, so a handler's changes to it are visible in the map
    before any save, while an unknown id gets a fresh default profile that
    is not in the map until it is saved. Premium expiry dates are
    'YYYY-MM-DD' strings compared as strings in the source; here they are
    day numbers (the `IsoDates` module shows the two orders agree). */
module EnhancedStore {
  import opened Wrappers
  import opened Plans
  import opened Quota

  /** The fields of a profile at one moment. */
  datatype ProfileState = ProfileState(
    id: string,
    isPremium: bool,
    premiumUntil: Option<Day>,
    premiumPlan: Option<Plan>,
    checksToday: nat,
    lastCheckDate: Option<Day>,
    totalChecks: nat,
    paymentPending: bool)

  /** The record `get_user` makes up for an unknown id. */
  function DefaultState(id: string): (s: ProfileState)
    ensures s.id == id && !s.isPremium && s.premiumUntil == None && s.premiumPlan == None
    ensures s.checksToday == 0 && s.lastCheckDate == None && s.totalChecks == 0 && !s.paymentPending
  {
    ProfileState(id, false, None, None, 0, None, 0, false)
  }

  /** `can_make_free_check`: the counter restarts when the last check was
      not today, and the answer is "fewer than five today, or premium". */
  function FreeCheck(s: ProfileState, today: Day): (r: (bool, ProfileState))
    ensures r.0 <==> UsedToday(s, today) < FreeChecksPerDay || s.isPremium
    ensures r.1 == s.(checksToday := UsedToday(s, today), lastCheckDate := Some(today))
  {
    var r := if s.lastCheckDate != Some(today) then s.(checksToday := 0, lastCheckDate := Some(today)) else s;
    (r.checksToday < FreeChecksPerDay || r.isPremium, r)
  }

  /** `record_check`: one more check today and overall, dated today. The
      day's count is not restarted here, so a count left from an earlier day
      grows on. */
  function Recorded(s: ProfileState, today: Day): (r: ProfileState)
    ensures r.checksToday == s.checksToday + 1
    ensures s.lastCheckDate == Some(today) ==> UsedToday(r, today) == UsedToday(s, today) + 1
    ensures r.totalChecks == s.totalChecks + 1 && r.lastCheckDate == Some(today)
    ensures r.(checksToday := s.checksToday, totalChecks := s.totalChecks, lastCheckDate := s.lastCheckDate) == s
  {
    s.(checksToday := s.checksToday + 1, totalChecks := s.totalChecks + 1, lastCheckDate := Some(today))
  }

  /** `activate_premium` for a given number of days: premium on the plan
      until today plus those days, and no payment pending. */
  function Activated(s: ProfileState, plan: Plan, durationDays: nat, today: Day): (r: ProfileState)
    ensures r.isPremium && r.premiumPlan == Some(plan) && r.premiumUntil == Some(today + durationDays)
    ensures !r.paymentPending && r.id == s.id && r.checksToday == s.checksToday && r.totalChecks == s.totalChecks
  {
    s.(isPremium := true, premiumPlan := Some(plan), premiumUntil := Some(today + durationDays), paymentPending := false)
  }

  /** The expiry test of the check handlers: after the expiry day, premium
      and its plan are cleared, but the expiry date is kept. */
  function Expired(s: ProfileState, today: Day): (r: ProfileState)
    ensures s.premiumUntil.Some? && today > s.premiumUntil.value ==>
              !r.isPremium && r.premiumPlan == None && r.premiumUntil == s.premiumUntil
    ensures !(s.premiumUntil.Some? && today > s.premiumUntil.value) ==> r == s
  {
    if s.premiumUntil.Some? && today > s.premiumUntil.value then s.(isPremium := false, premiumPlan := None) else s
  }

  /** The quota step of the check handlers: the expiry test, then the
      free-check test for a profile that is not premium, then the record
      of the check. The answer and the profile afterwards, refused or not. */
  function Gate(s: ProfileState, today: Day): (r: (bool, ProfileState))
    ensures r.0 <==> (s.isPremium && !(s.premiumUntil.Some? && today > s.premiumUntil.value)) ||
                     UsedToday(s, today) < FreeChecksPerDay
    ensures r.1.totalChecks == s.totalChecks + (if r.0 then 1 else 0)
    ensures r.1.premiumUntil == s.premiumUntil && r.1.lastCheckDate == Some(today)
  {
    var e := Expired(s, today);
    if e.isPremium then (true, Recorded(e, today))
    else
      var (ok, r) := FreeCheck(e, today);
      if ok then (true, Recorded(r, today)) else (false, r)
  }

  /** `n` check requests in a row on the same day, through the gate: the
      profile afterwards and how many were admitted. */
  function Requests(s: ProfileState, today: Day, n: nat): (r: (ProfileState, nat))
    ensures r.1 <= n && r.0.totalChecks == s.totalChecks + r.1
    ensures r.0.premiumUntil == s.premiumUntil
  {
    if n == 0 then (s, 0)
    else
      var (r, k) := Requests(s, today, n - 1);
      var (ok, t) := Gate(r, today);
      (t, if ok then k + 1 else k)
  }

  /** Checks already counted today. */
  function UsedToday(s: ProfileState, today: Day): nat
  {
    if s.lastCheckDate == Some(today) then s.checksToday else 0
  }

  /** What is left of today's free quota. */
  function Remaining(s: ProfileState, today: Day): nat
  {
    Left(UsedToday(s, today))
  }

  /** Premium that has passed its expiry day, or no premium at all, is
      metered: of `n` requests on one day exactly as many are admitted as
      the quota has left, and the profile ends up not premium. */
  lemma {:induction false} LapsedPremiumIsMetered(s: ProfileState, today: Day, n: nat)
    requires !s.isPremium || (s.premiumUntil.Some? && today > s.premiumUntil.value)
    ensures var (r, k) := Requests(s, today, n);
      k == Min(n, Remaining(s, today)) &&
      (n > 0 ==> !r.isPremium && r.lastCheckDate == Some(today) &&
                 r.checksToday == UsedToday(s, today) + k)
  {
    if n > 0 {
      LapsedPremiumIsMetered(s, today, n - 1);
      var (r, k) := Requests(s, today, n - 1);
      MeteredStep(r, today);
    }
  }

  /** One request through the gate by a profile that is not premium, or
      whose premium has lapsed: it is admitted exactly while fewer than five
      checks are counted today, and it leaves the profile not premium and
      dated today. */
  lemma MeteredStep(s: ProfileState, today: Day)
    requires !s.isPremium || (s.premiumUntil.Some? && today > s.premiumUntil.value)
    ensures var (ok, r) := Gate(s, today);
      (ok <==> UsedToday(s, today) < FreeChecksPerDay) &&
      !r.isPremium && r.lastCheckDate == Some(today) &&
      r.checksToday == UsedToday(s, today) + (if ok then 1 else 0)
  {
  }

  /** On a fresh day a free profile gets five checks and the sixth is
      refused. */
  lemma SixthCheckRefused(s: ProfileState, today: Day)
    requires !s.isPremium && s.lastCheckDate != Some(today)
    ensures Requests(s, today, 5).1 == 5 && Requests(s, today, 6).1 == 5
  {
    LapsedPremiumIsMetered(s, today, 5);
    LapsedPremiumIsMetered(s, today, 6);
  }

  /** Premium that still runs today is admitted every time. */
  lemma {:induction false} RunningPremiumIsUnmetered(s: ProfileState, today: Day, n: nat)
    requires s.isPremium && (s.premiumUntil.None? || today <= s.premiumUntil.value)
    ensures Requests(s, today, n).1 == n
    ensures Requests(s, today, n).0.isPremium && Requests(s, today, n).0.premiumUntil == s.premiumUntil
  {
    if n > 0 {
      RunningPremiumIsUnmetered(s, today, n - 1);
    }
  }

  /** Activation runs for the given number of days and from then until the
      expiry day the profile is never metered; the day after, it is. */
  lemma ActivationLasts(s: ProfileState, plan: Plan, durationDays: nat, today: Day, day: Day)
    requires today <= day
    ensures var a := Activated(s, plan, durationDays, today);
      (day <= today + durationDays ==> Gate(a, day).0 && Gate(a, day).1.isPremium) &&
      (day > today + durationDays ==> !Expired(a, day).isPremium)
  {
  }

  /** A user profile object. */
  class Profile {
    const id: string
    var isPremium: bool
    var premiumUntil: Option<Day>
    var premiumPlan: Option<Plan>
    var checksToday: nat
    var lastCheckDate: Option<Day>
    var totalChecks: nat
    var paymentPending: bool

    function State(): ProfileState
      reads this
    {
      ProfileState(id, isPremium, premiumUntil, premiumPlan, checksToday, lastCheckDate, totalChecks, paymentPending)
    }

    /** The default profile `get_user` makes up. */
    constructor Default(userId: string)
      ensures State() == DefaultState(userId)
    {
      id := userId;
      isPremium, premiumUntil, premiumPlan := false, None, None;
      checksToday, lastCheckDate, totalChecks, paymentPending := 0, None, 0, false;
    }

    /** `can_make_free_check`. */
    method CanMakeFreeCheck(today: Day) returns (allowed: bool)
      modifies this
      ensures (allowed, State()) == FreeCheck(old(State()), today)
    {
      if lastCheckDate != Some(today) {
        checksToday := 0;
        lastCheckDate := Some(today);
      }
      allowed := checksToday < FreeChecksPerDay || isPremium;
    }

    /** The field updates of `record_check`. */
    method CountCheck(today: Day)
      modifies this
      ensures State() == Recorded(old(State()), today)
    {
      checksToday := checksToday + 1;
      totalChecks := totalChecks + 1;
      lastCheckDate := Some(today);
    }

    /** The field updates of `activate_premium`. */
    method GrantPremium(plan: Plan, durationDays: nat, today: Day)
      modifies this
      ensures State() == Activated(old(State()), plan, durationDays, today)
    {
      isPremium := true;
      premiumPlan := Some(plan);
      premiumUntil := Some(today + durationDays);
      paymentPending := false;
    }

    /** The expiry test of the check handlers. */
    method ExpireIfLapsed(today: Day)
      modifies this
      ensures State() == Expired(old(State()), today)
    {
      if premiumUntil.Some? && today > premiumUntil.value {
        isPremium := false;
        premiumPlan := None;
      }
    }

    /** The expiry test and the free-check test of the check handlers, up to
        the record of an admitted check. */
    method Screen(today: Day) returns (allowed: bool)
      modifies this
      ensures allowed == Gate(old(State()), today).0
      ensures allowed ==> Recorded(State(), today) == Gate(old(State()), today).1
      ensures !allowed ==> State() == Gate(old(State()), today).1
    {
      ExpireIfLapsed(today);
      allowed := true;
      if !isPremium {
        allowed := CanMakeFreeCheck(today);
      }
    }
  }

  datatype Status = Pending | Verified | Rejected

  datatype Payment = Payment(
    id: string,
    userId: string,
    plan: Plan,
    phoneNumber: string,
    amount: nat,
    status: Status,
    createdAt: Instant,
    verifiedAt: Option<Instant>)

  /** "pay_", the creation time stamp, '_' and the user id. */
  function PaymentId(stamp: string, userId: string): string
  {
    "pay_" + stamp + "_" + userId
  }

  /** The record `create_payment` makes: pending, at the plan's price, not
      yet verified, filed under the id made of the time stamp and the user. */
  function NewPayment(userId: string, plan: Plan, phoneNumber: string, stamp: string, now: Instant): (p: Payment)
    ensures p.id == PaymentId(stamp, userId) && p.userId == userId && p.plan == plan
    ensures p.status == Pending && p.amount == Price(plan) && p.verifiedAt == None
  {
    Payment(PaymentId(stamp, userId), userId, plan, phoneNumber, Price(plan), Pending, now, None)
  }

  /** The status a payment gets from `update_payment_status`: the time of
      verification is kept only for a verified payment. */
  function WithStatus(p: Payment, status: Status, now: Instant): (q: Payment)
    ensures q.verifiedAt.Some? <==> status == Verified
    ensures q.status == status && q.(status := p.status, verifiedAt := p.verifiedAt) == p
  {
    p.(status := status, verifiedAt := if status == Verified then Some(now) else None)
  }

  /** The answers of the two payment endpoints. */
  datatype Reply = MissingFields | InvalidPlanType | PaymentNotFound | InvalidAction
                 | Initiated(paymentId: string) | Approved | PaymentRejected

  /** `users_db` and `payments_db`. */
  class Service {
    var users: map<string, Profile>
    var payments: map<string, Payment>

    /** Every profile sits under its own id, and every payment under its
        own id at its plan's price. */
    ghost predicate Valid()
      reads this
    {
      (forall k :: k in users ==> users[k].id == k) &&
      (forall k :: k in payments ==> payments[k].id == k && payments[k].amount == Price(payments[k].plan))
    }

    /** The stored profiles' fields. */
    ghost function States(): map<string, ProfileState>
      reads `users, users.Values
    {
      map k | k in users :: users[k].State()
    }

    constructor ()
      ensures Valid() && users == map[] && payments == map[]
    {
      users, payments := map[], map[];
    }

    /** `get_user`: the stored profile itself, or a fresh default one that
        is not stored. */
    method GetUser(userId: string) returns (user: Profile)
      ensures userId in users ==> user == users[userId]
      ensures userId !in users ==> fresh(user) && user.State() == DefaultState(userId)
    {
      if userId in users {
        return users[userId];
      }
      user := new Profile.Default(userId);
    }

    /** `save_user`. */
    method SaveUser(user: Profile)
      requires Valid()
      modifies this
      ensures Valid() && payments == old(payments)
      ensures users == old(users)[user.id := user]
      ensures States() == old(States())[user.id := user.State()]
    {
      users := users[user.id := user];
    }

    /** `record_check`: counts the check and saves the profile. */
    method RecordCheck(user: Profile, today: Day)
      requires Valid()
      modifies this, user
      ensures Valid() && payments == old(payments)
      ensures users == old(users)[user.id := user]
      ensures States() == old(States())[user.id := Recorded(old(user.State()), today)]
    {
      assert forall k :: k in users && k != user.id ==> users[k] != user;
      user.CountCheck(today);
      OnlyOneChanged(user);
      SaveUser(user);
    }

    /** `activate_premium`: grants the plan and saves the profile. */
    method ActivatePremium(user: Profile, plan: Plan, durationDays: nat, today: Day)
      requires Valid()
      modifies this, user
      ensures Valid() && payments == old(payments)
      ensures users == old(users)[user.id := user]
      ensures States() == old(States())[user.id := Activated(old(user.State()), plan, durationDays, today)]
    {
      assert forall k :: k in users && k != user.id ==> users[k] != user;
      user.GrantPremium(plan, durationDays, today);
      OnlyOneChanged(user);
      SaveUser(user);
    }

    /** The quota step of the two check handlers on the profile `get_user`
        returns. A stored profile keeps the expiry and the day rollover even
        when the check is refused; a default profile is stored only once a
        check is recorded, and it always is. */
    method AdmitCheck(userId: string, today: Day) returns (admitted: bool)
      requires Valid()
      modifies this, users.Values
      ensures Valid() && payments == old(payments)
      ensures var s := old(Current(userId));
        admitted == Gate(s, today).0 &&
        (admitted || userId in old(users)) &&
        States() == old(States())[userId := Gate(s, today).1]
    {
      var user := GetUser(userId);
      ghost var s := user.State();
      assert s == old(Current(userId));
      assert forall k :: k in users && k != userId ==> users[k] != user;
      admitted := user.Screen(today);
      OnlyOneChanged(user);
      if admitted {
        ghost var mid := States();
        RecordCheck(user, today);
        assert States() == mid[userId := Gate(s, today).1];
      }
    }

    /** `create_payment`: a pending payment at the plan's price, replacing one
        created for the same user in the same second. */
    method CreatePayment(userId: string, plan: Plan, phoneNumber: string, stamp: string, now: Instant)
      returns (p: Payment)
      requires Valid()
      modifies this
      ensures Valid() && users == old(users)
      ensures p == NewPayment(userId, plan, phoneNumber, stamp, now)
      ensures payments == old(payments)[p.id := p]
    {
      p := NewPayment(userId, plan, phoneNumber, stamp, now);
      payments := payments[p.id := p];
    }

    /** `update_payment_status`: an unknown id is refused. */
    method UpdatePaymentStatus(paymentId: string, status: Status, now: Instant) returns (ok: bool)
      requires Valid()
      modifies this
      ensures Valid() && users == old(users)
      ensures ok <==> paymentId in old(payments)
      ensures !ok ==> payments == old(payments)
      ensures ok ==> payments == old(payments)[paymentId := WithStatus(old(payments)[paymentId], status, now)]
    {
      if paymentId in payments {
        payments := payments[paymentId := WithStatus(payments[paymentId], status, now)];
        return true;
      }
      return false;
    }

    /** When the map did not change and of the stored profiles at most
        `user` did, the stored states change at most at its id. */
    twostate lemma OnlyOneChanged(new user: Profile)
      requires old(Valid()) && users == old(users)
      requires forall k :: k in users && k != user.id ==> users[k] != user
      requires forall k :: k in users && users[k] != user ==> unchanged(users[k])
      ensures user.id in users && users[user.id] == user ==> States() == old(States())[user.id := user.State()]
      ensures !(user.id in users && users[user.id] == user) ==> States() == old(States())
      ensures States()[user.id := user.State()] == old(States())[user.id := user.State()]
    {
    }

    /** The profile `get_user` would return for the id: the stored one, or
        the default. */
    ghost function Current(userId: string): ProfileState
      reads `users, users.Values
    {
      if userId in users then users[userId].State() else DefaultState(userId)
    }

    /** Sets the pending flag on the profile `get_user` returns and saves it. */
    method SetPaymentPending(userId: string, pending: bool)
      requires Valid()
      modifies this, users.Values
      ensures Valid() && payments == old(payments)
      ensures States() == old(States())[userId := old(Current(userId)).(paymentPending := pending)]
    {
      var user := GetUser(userId);
      assert forall k :: k in users && k != userId ==> users[k] != user;
      user.paymentPending := pending;
      OnlyOneChanged(user);
      SaveUser(user);
    }

    /** `activate_premium` on the profile `get_user` returns. */
    method ActivateOwner(userId: string, plan: Plan, durationDays: nat, today: Day)
      requires Valid()
      modifies this, users.Values
      ensures Valid() && payments == old(payments)
      ensures States() == old(States())[userId := Activated(old(Current(userId)), plan, durationDays, today)]
    {
      var user := GetUser(userId);
      ActivatePremium(user, plan, durationDays, today);
    }

    /** `api_initiate_payment`: the user id, plan key and phone number must be
        given and the key must name a plan; the payment is created and the
        user, stored or default, is flagged and saved. */
    method InitiatePayment(userId: string, planKey: string, phoneNumber: string, stamp: string, now: Instant)
      returns (reply: Reply)
      requires Valid()
      modifies this, users.Values
      ensures Valid()
      ensures userId == "" || planKey == "" || phoneNumber == "" ==>
                reply == MissingFields && payments == old(payments) && States() == old(States())
      ensures userId != "" && planKey != "" && phoneNumber != "" && ParsePlan(planKey).None? ==>
                reply == InvalidPlanType && payments == old(payments) && States() == old(States())
      ensures reply.Initiated? <==> userId != "" && planKey != "" && phoneNumber != "" && ParsePlan(planKey).Some?
      ensures reply.Initiated? ==>
                reply.paymentId == PaymentId(stamp, userId) &&
                payments == old(payments)[reply.paymentId := NewPayment(userId, ParsePlan(planKey).value, phoneNumber, stamp, now)] &&
                States() == old(States())[userId := old(Current(userId)).(paymentPending := true)]
    {
      if userId == "" || planKey == "" || phoneNumber == "" {
        return MissingFields;
      }
      var plan := ParsePlan(planKey);
      if plan.None? {
        return InvalidPlanType;
      }
      var p := CreatePayment(userId, plan.value, phoneNumber, stamp, now);
      SetPaymentPending(userId, true);
      return Initiated(p.id);
    }

    /** `admin_verify_payment`: an unknown payment is refused; "approve"
        marks it verified and gives its owner (stored or default) the plan's
        premium from today; "reject" marks it rejected and clears the
        owner's pending flag; any other action changes nothing. */
    method AdminVerifyPayment(paymentId: string, action: string, now: Instant, today: Day)
      returns (reply: Reply)
      requires Valid()
      modifies this, users.Values
      ensures Valid()
      ensures paymentId !in old(payments) ==>
                reply == PaymentNotFound && payments == old(payments) && States() == old(States())
      ensures paymentId in old(payments) && action != "approve" && action != "reject" ==>
                reply == InvalidAction && payments == old(payments) && States() == old(States())
      ensures paymentId in old(payments) && action == "approve" ==>
                var p := old(payments)[paymentId];
                reply == Approved &&
                payments == old(payments)[paymentId := WithStatus(p, Verified, now)] &&
                States() == old(States())[p.userId := Activated(old(Current(p.userId)), p.plan, DurationDays(p.plan), today)]
      ensures paymentId in old(payments) && action == "reject" ==>
                var p := old(payments)[paymentId];
                reply == PaymentRejected &&
                payments == old(payments)[paymentId := WithStatus(p, Rejected, now)] &&
                States() == old(States())[p.userId := old(Current(p.userId)).(paymentPending := false)]
    {
      if paymentId !in payments {
        return PaymentNotFound;
      }
      if action == "approve" {
        Approve(paymentId, now, today);
        return Approved;
      } else if action == "reject" {
        Reject(paymentId, now);
        return PaymentRejected;
      }
      return InvalidAction;
    }

    /** The "approve" branch: the payment is marked verified and its owner,
        stored or default, gets the plan's premium from today. */
    method Approve(paymentId: string, now: Instant, today: Day)
      requires Valid() && paymentId in payments
      modifies this, users.Values
      ensures Valid()
      ensures var p := old(payments)[paymentId];
        payments == old(payments)[paymentId := WithStatus(p, Verified, now)] &&
        States() == old(States())[p.userId := Activated(old(Current(p.userId)), p.plan, DurationDays(p.plan), today)]
    {
      var p := payments[paymentId];
      var _ := UpdatePaymentStatus(paymentId, Verified, now);
      ActivateOwner(p.userId, p.plan, DurationDays(p.plan), today);
    }

    /** The "reject" branch: the payment is marked rejected and its owner's
        pending flag cleared. */
    method Reject(paymentId: string, now: Instant)
      requires Valid() && paymentId in payments
      modifies this, users.Values
      ensures Valid()
      ensures var p := old(payments)[paymentId];
        payments == old(payments)[paymentId := WithStatus(p, Rejected, now)] &&
        States() == old(States())[p.userId := old(Current(p.userId)).(paymentPending := false)]
    {
      var p := payments[paymentId];
      var _ := UpdatePaymentStatus(paymentId, Rejected, now);
      SetPaymentPending(p.userId, false);
    }
  }
}
