/** The user records of app.py (`UserManager`): the daily free-check quota,
    premium activation and its lazy expiry, password-reset tokens, and the
    store of users keyed by id in which e-mail addresses are unique.

    A stored user is an `Account` value; a user loaded by a request handler
    and changed in place before it is saved again is a `User` object. The
    functions `FreeCheck`, `Recorded` and `Activated` are the specifications
    the `User` methods are proved against; the lemmas about the quota are
    stated over those functions. Days and instants are integers; password
    hashes, reset tokens and the id stamp are given as parameters. */
module Accounts {
  import opened Wrappers
  import opened Plans
  import opened Quota

  /** Lifetime of a password-reset token: one hour. */
  const ResetTokenLifetime: int := 3600

  datatype ResetToken = ResetToken(
    token: string,
    createdAt: Instant,
    expiresAt: Instant,
    used: bool,
    usedAt: Option<Instant>)

  /** One stored user record. `name` is the empty string when unset. */
  datatype Account = Account(
    id: string,
    email: string,
    passwordHash: string,
    phoneNumber: string,
    name: string,
    isVerified: bool,
    isPremium: bool,
    premiumUntil: Option<Day>,
    premiumPlan: Option<Plan>,
    checksToday: nat,
    lastCheckDate: Day,
    totalChecks: nat,
    paymentPending: bool,
    createdAt: Instant,
    resetTokens: seq<ResetToken>)

  /** The premium fields agree: a premium user has an expiry day and a plan,
      and a free user has neither. Every operation below keeps this. */
  predicate PremiumConsistent(a: Account)
  {
    (a.isPremium <==> a.premiumUntil.Some?) && (a.isPremium <==> a.premiumPlan.Some?)
  }

  /** Premium that still runs today (the expiry day itself included). */
  predicate PremiumActive(a: Account, today: Day)
  {
    a.isPremium && a.premiumUntil.Some? && today <= a.premiumUntil.value
  }

  /** Checks already counted against today's quota. */
  function UsedToday(a: Account, today: Day): nat
  {
    if a.lastCheckDate == today then a.checksToday else 0
  }

  /** The lazy expiry: once the expiry day has passed, premium, its expiry
      and its plan are all cleared. */
  function ClearLapsed(a: Account, today: Day): (r: Account)
    ensures a.isPremium && a.premiumUntil.Some? && today > a.premiumUntil.value ==>
              !r.isPremium && r.premiumUntil == None && r.premiumPlan == None
    ensures r.isPremium ==> a.isPremium
    ensures PremiumConsistent(a) ==> PremiumConsistent(r)
    ensures r.checksToday == a.checksToday && r.lastCheckDate == a.lastCheckDate
  {
    if a.isPremium && a.premiumUntil.Some? && today > a.premiumUntil.value then
      a.(isPremium := false, premiumUntil := None, premiumPlan := None)
    else a
  }

  /** The answer of `can_make_free_check` and the record it leaves behind. */
  datatype Gate = Gate(allowed: bool, after: Account)

  /** `can_make_free_check` on a loaded user: the counter restarts on a new
      day, running premium is admitted, lapsed premium is cleared, and
      otherwise the user is admitted while fewer than five checks have been
      made today. */
  function FreeCheck(a: Account, today: Day): (g: Gate)
    ensures g.allowed <==> PremiumActive(a, today) || UsedToday(a, today) < FreeChecksPerDay
    ensures g.after.lastCheckDate == today && g.after.checksToday == UsedToday(a, today)
    ensures g.after.totalChecks == a.totalChecks && g.after.paymentPending == a.paymentPending
    ensures g.after.isPremium <==> PremiumActive(a, today) || (a.isPremium && a.premiumUntil.None?)
    ensures PremiumConsistent(a) ==> PremiumConsistent(g.after)
  {
    var r := if a.lastCheckDate != today then a.(checksToday := 0, lastCheckDate := today) else a;
    if r.isPremium && r.premiumUntil.Some? then
      if today > r.premiumUntil.value then
        var cleared := ClearLapsed(r, today);
        Gate(cleared.checksToday < FreeChecksPerDay, cleared)
      else Gate(true, r)
    else Gate(r.checksToday < FreeChecksPerDay, r)
  }

  /** `record_check`: one more check today and overall, dated today; no
      other field changes. The day's count is not restarted here, so a count
      left from an earlier day grows on. */
  function Recorded(a: Account, today: Day): (r: Account)
    ensures r.checksToday == a.checksToday + 1
    ensures a.lastCheckDate == today ==> UsedToday(r, today) == UsedToday(a, today) + 1
    ensures r.totalChecks == a.totalChecks + 1 && r.lastCheckDate == today
    ensures r.(checksToday := a.checksToday, totalChecks := a.totalChecks, lastCheckDate := a.lastCheckDate) == a
  {
    a.(checksToday := a.checksToday + 1, totalChecks := a.totalChecks + 1, lastCheckDate := today)
  }

  /** `activate_premium`: premium on the plan until today plus the plan's
      duration, and no payment pending any more. */
  function Activated(a: Account, plan: Plan, today: Day): (r: Account)
    ensures PremiumConsistent(r) && r.premiumPlan == Some(plan) && !r.paymentPending
    ensures r.premiumUntil == Some(today + DurationDays(plan))
  {
    a.(isPremium := true, premiumPlan := Some(plan), premiumUntil := Some(today + DurationDays(plan)),
       paymentPending := false)
  }

  /** Activation buys at least one day, is consistent, and leaves the quota
      counters and everything but the premium fields alone. */
  lemma ActivationGrantsPlan(a: Account, plan: Plan, today: Day)
    ensures var r := Activated(a, plan, today);
      PremiumConsistent(r) && PremiumActive(r, today) && PremiumActive(r, today + DurationDays(plan)) &&
      !PremiumActive(r, today + DurationDays(plan) + 1) && !r.paymentPending &&
      r.checksToday == a.checksToday && r.totalChecks == a.totalChecks &&
      r.(isPremium := a.isPremium, premiumPlan := a.premiumPlan, premiumUntil := a.premiumUntil,
         paymentPending := a.paymentPending) == a
  {
    PlansAreOrdered(plan, plan);
  }

  /** The quota step of the check handlers: a user flagged premium is not
      metered at all; any other user goes through `can_make_free_check`, and
      an admitted check is recorded. `None` is the refusal. */
  function Admit(a: Account, today: Day): (r: Option<Account>)
    ensures r.Some? <==> a.isPremium || UsedToday(a, today) < FreeChecksPerDay
    ensures r.Some? ==> r.value.totalChecks == a.totalChecks + 1 && r.value.lastCheckDate == today &&
                        r.value.isPremium == a.isPremium
    ensures r.Some? && !a.isPremium ==> r.value.checksToday == UsedToday(a, today) + 1
    ensures r.Some? && a.isPremium ==> r.value.checksToday == a.checksToday + 1
  {
    if a.isPremium then Some(Recorded(a, today))
    else
      var g := FreeCheck(a, today);
      if g.allowed then Some(Recorded(g.after, today)) else None
  }

  /** `n` check requests in a row on the same day: the record after them and
      how many were admitted. */
  function Requests(a: Account, today: Day, n: nat): (r: (Account, nat))
    ensures r.1 <= n && r.0.totalChecks == a.totalChecks + r.1
    ensures r.0.isPremium == a.isPremium
  {
    if n == 0 then (a, 0)
    else
      var (b, k) := Requests(a, today, n - 1);
      match Admit(b, today)
      case Some(c) => (c, k + 1)
      case None => (b, k)
  }

  /** What is left of today's free quota. */
  function Remaining(a: Account, today: Day): nat
  {
    Left(UsedToday(a, today))
  }

  /** After the lazy expiry a consistent record shows premium exactly while
      it still runs. */
  lemma ExpiryShowsOnlyRunningPremium(a: Account, today: Day)
    requires PremiumConsistent(a)
    ensures ClearLapsed(a, today).isPremium <==> PremiumActive(a, today)
    ensures ClearLapsed(ClearLapsed(a, today), today) == ClearLapsed(a, today)
  {
  }

  /** The free quota: of `n` requests on one day by a non-premium user,
      exactly as many are admitted as the quota has left (five on a fresh
      day), the counters grow by that number, and the user stays free. */
  lemma {:induction false} FreeQuotaPerDay(a: Account, today: Day, n: nat)
    requires !a.isPremium
    ensures var (b, k) := Requests(a, today, n);
      k == Min(n, Remaining(a, today)) && !b.isPremium &&
      b.totalChecks == a.totalChecks + k &&
      (n > 0 ==> b.lastCheckDate == today && b.checksToday == UsedToday(a, today) + k)
  {
    if n > 0 {
      FreeQuotaPerDay(a, today, n - 1);
      var (b, k) := Requests(a, today, n - 1);
      assert UsedToday(b, today) == if n - 1 > 0 then UsedToday(a, today) + k else UsedToday(a, today);
    }
  }

  /** On a fresh day exactly five of any number of requests are admitted,
      so the sixth is the first refusal. */
  lemma SixthCheckRefused(a: Account, today: Day)
    requires !a.isPremium && a.lastCheckDate != today
    ensures Requests(a, today, 5).1 == 5
    ensures Admit(Requests(a, today, 5).0, today) == None
    ensures Requests(a, today, 6).1 == 5
  {
    FreeQuotaPerDay(a, today, 5);
    FreeQuotaPerDay(a, today, 6);
  }

  /** A user flagged premium has every request admitted and stays flagged,
      whether or not the premium has run out: the handlers skip
      `can_make_free_check`, the only place that clears it. */
  lemma {:induction false} PremiumIsUnmetered(a: Account, today: Day, n: nat)
    requires a.isPremium
    ensures Requests(a, today, n).1 == n && Requests(a, today, n).0.isPremium
    ensures Requests(a, today, n).0.premiumUntil == a.premiumUntil
  {
    if n > 0 {
      PremiumIsUnmetered(a, today, n - 1);
    }
  }

  /** The premium path records a check without the day restart, so a count
      left from an earlier day carries into today. When the statistics
      handler then clears the lapsed premium the same day, a carried count of
      five or more refuses the user's next check, although only one check
      was made today. */
  lemma CarriedCountRefuses(a: Account, today: Day)
    requires a.isPremium && a.premiumUntil.Some? && today > a.premiumUntil.value
    requires a.lastCheckDate != today && a.checksToday >= FreeChecksPerDay
    ensures Admit(a, today).Some?
    ensures var r := Admit(a, today).value;
      UsedToday(r, today) == a.checksToday + 1 && !ClearLapsed(r, today).isPremium &&
      Admit(ClearLapsed(r, today), today).None?
  {
  }

  /** A token the reset flow accepts: the same string, not used, and not yet
      expired. */
  predicate Redeemable(t: ResetToken, token: string, now: Instant)
  {
    t.token == token && !t.used && now < t.expiresAt
  }

  /** Some entry of the list is redeemable; exactly when the token is among
      those that survive pruning at that instant. */
  predicate HoldsRedeemable(tokens: seq<ResetToken>, token: string, now: Instant)
    ensures HoldsRedeemable(tokens, token, now) <==> exists t :: t in Prune(tokens, now) && t.token == token
  {
    exists i :: 0 <= i < |tokens| && Redeemable(tokens[i], token, now)
  }

  /** The tokens still alive: unexpired and unused, in their order. */
  function Prune(tokens: seq<ResetToken>, now: Instant): (r: seq<ResetToken>)
    ensures |r| <= |tokens|
    ensures forall t :: t in r <==> t in tokens && now < t.expiresAt && !t.used
  {
    if tokens == [] then []
    else
      var rest := Prune(tokens[1..], now);
      assert forall t :: t in tokens <==> t == tokens[0] || t in tokens[1..];
      if now < tokens[0].expiresAt && !tokens[0].used then [tokens[0]] + rest else rest
  }

  /** The new token list of `create_password_reset_token`: the live tokens,
      then the new unused one, which expires an hour from now. */
  function IssueToken(tokens: seq<ResetToken>, token: string, now: Instant): (r: seq<ResetToken>)
    ensures 0 < |r| <= |tokens| + 1
    ensures r[|r| - 1] == ResetToken(token, now, now + ResetTokenLifetime, false, None)
    ensures forall t :: t in r[..|r| - 1] <==> t in tokens && now < t.expiresAt && !t.used
  {
    Prune(tokens, now) + [ResetToken(token, now, now + ResetTokenLifetime, false, None)]
  }

  /** After issuing, the new token is redeemable for the next hour, and
      every other token left is still alive. */
  lemma IssuedTokenRedeemable(tokens: seq<ResetToken>, token: string, now: Instant, later: Instant)
    requires now <= later
    ensures later < now + ResetTokenLifetime ==> HoldsRedeemable(IssueToken(tokens, token, now), token, later)
    ensures forall i :: 0 <= i < |IssueToken(tokens, token, now)| - 1 ==>
              !IssueToken(tokens, token, now)[i].used && now < IssueToken(tokens, token, now)[i].expiresAt
  {
    var r := IssueToken(tokens, token, now);
    assert r[|r| - 1] == ResetToken(token, now, now + ResetTokenLifetime, false, None);
    forall i | 0 <= i < |r| - 1 ensures !r[i].used && now < r[i].expiresAt {
      assert r[i] == Prune(tokens, now)[i];
      assert r[i] in Prune(tokens, now);
    }
  }

  /** The first entry carrying `token`, the one `use_reset_token` marks. */
  function FirstMatch(tokens: seq<ResetToken>, token: string): (r: Option<nat>)
    ensures r.Some? ==> r.value < |tokens| && tokens[r.value].token == token &&
                        forall j :: 0 <= j < r.value ==> tokens[j].token != token
    ensures r.None? ==> forall j :: 0 <= j < |tokens| ==> tokens[j].token != token
  {
    if tokens == [] then None
    else if tokens[0].token == token then Some(0)
    else match FirstMatch(tokens[1..], token)
      case None => None
      case Some(i) => Some(i + 1)
  }

  /** The token list after `use_reset_token`: the first entry carrying the
      token marked used at `now`, whether or not it had expired. */
  function MarkUsed(tokens: seq<ResetToken>, token: string, now: Instant): (r: seq<ResetToken>)
    ensures |r| == |tokens|
    ensures forall j :: 0 <= j < |tokens| && r[j] != tokens[j] ==>
              tokens[j].token == token && r[j] == tokens[j].(used := true, usedAt := Some(now)) &&
              forall i :: 0 <= i < j ==> tokens[i].token != token
    ensures (exists j :: 0 <= j < |tokens| && tokens[j].token == token) ==>
              exists j :: 0 <= j < |r| && r[j].token == token && r[j].used
  {
    match FirstMatch(tokens, token)
    case None => tokens
    case Some(i) => tokens[i := tokens[i].(used := true, usedAt := Some(now))]
  }

  /** A token that appears once in the list is not redeemable any more
      after it has been marked, and nothing else in the list changed. */
  lemma MarkedTokenSpent(tokens: seq<ResetToken>, token: string, now: Instant, later: Instant)
    requires forall i, j :: 0 <= i < j < |tokens| && tokens[i].token == token ==> tokens[j].token != token
    ensures !HoldsRedeemable(MarkUsed(tokens, token, now), token, later)
    ensures |MarkUsed(tokens, token, now)| == |tokens|
    ensures forall i :: 0 <= i < |tokens| && tokens[i].token != token ==> MarkUsed(tokens, token, now)[i] == tokens[i]
  {
    var r := MarkUsed(tokens, token, now);
    forall i | 0 <= i < |r| ensures !Redeemable(r[i], token, later) {
      match FirstMatch(tokens, token)
      case None =>
      case Some(k) =>
        if k < i { assert tokens[k].token == token; }
    }
  }

  /** A user loaded by a request handler; the methods change it in place as
      the source changes the loaded dictionary. */
  class User {
    const id: string
    var email: string
    var passwordHash: string
    var phoneNumber: string
    var name: string
    var isVerified: bool
    var isPremium: bool
    var premiumUntil: Option<Day>
    var premiumPlan: Option<Plan>
    var checksToday: nat
    var lastCheckDate: Day
    var totalChecks: nat
    var paymentPending: bool
    var createdAt: Instant
    var resetTokens: seq<ResetToken>

    /** The record as it would be saved. */
    function Snapshot(): Account
      reads this
    {
      Account(id, email, passwordHash, phoneNumber, name, isVerified, isPremium, premiumUntil,
              premiumPlan, checksToday, lastCheckDate, totalChecks, paymentPending, createdAt, resetTokens)
    }

    /** Loads a stored record. */
    constructor Load(a: Account)
      ensures Snapshot() == a
    {
      id, email, passwordHash, phoneNumber, name := a.id, a.email, a.passwordHash, a.phoneNumber, a.name;
      isVerified, isPremium, premiumUntil, premiumPlan := a.isVerified, a.isPremium, a.premiumUntil, a.premiumPlan;
      checksToday, lastCheckDate, totalChecks := a.checksToday, a.lastCheckDate, a.totalChecks;
      paymentPending, createdAt, resetTokens := a.paymentPending, a.createdAt, a.resetTokens;
    }

    /** `can_make_free_check` on a loaded user. */
    method CanMakeFreeCheck(today: Day) returns (allowed: bool)
      modifies this
      ensures allowed == FreeCheck(old(Snapshot()), today).allowed
      ensures Snapshot() == FreeCheck(old(Snapshot()), today).after
    {
      if lastCheckDate != today {
        checksToday := 0;
        lastCheckDate := today;
      }
      if isPremium && premiumUntil.Some? {
        if today > premiumUntil.value {
          isPremium := false;
          premiumUntil := None;
          premiumPlan := None;
        } else {
          return true;
        }
      }
      allowed := checksToday < FreeChecksPerDay;
    }

    /** `record_check`, before the record is saved. */
    method RecordCheck(today: Day)
      modifies this
      ensures Snapshot() == Recorded(old(Snapshot()), today)
    {
      checksToday := checksToday + 1;
      totalChecks := totalChecks + 1;
      lastCheckDate := today;
    }

    /** The expiry step of `api_user_stats`, before the record is saved. */
    method ExpirePremium(today: Day)
      modifies this
      ensures Snapshot() == ClearLapsed(old(Snapshot()), today)
    {
      if isPremium && premiumUntil.Some? && today > premiumUntil.value {
        isPremium := false;
        premiumUntil := None;
        premiumPlan := None;
      }
    }

    /** `activate_premium`, before the record is saved. */
    method ActivatePremium(plan: Plan, today: Day)
      modifies this
      ensures Snapshot() == Activated(old(Snapshot()), plan, today)
    {
      isPremium := true;
      premiumPlan := Some(plan);
      premiumUntil := Some(today + DurationDays(plan));
      paymentPending := false;
    }
  }

  /** `can_make_free_check` on the result of a lookup: no user, no check. */
  method CanMakeFreeCheck(user: User?, today: Day) returns (allowed: bool)
    modifies user
    ensures user == null ==> !allowed
    ensures user != null ==> allowed == FreeCheck(old(user.Snapshot()), today).allowed &&
                             user.Snapshot() == FreeCheck(old(user.Snapshot()), today).after
  {
    if user == null {
      return false;
    }
    allowed := user.CanMakeFreeCheck(today);
  }

  /** A fresh record as `create_user` builds it. */
  function NewAccount(id: string, email: string, passwordHash: string, phoneNumber: string, name: string,
                      now: Instant, today: Day): (a: Account)
    ensures PremiumConsistent(a) && !a.isPremium && !a.isVerified && a.resetTokens == []
    ensures a.checksToday == 0 && a.totalChecks == 0 && a.lastCheckDate == today && !a.paymentPending
  {
    Account(id, email, passwordHash, phoneNumber, name, false, false, None, None, 0, today, 0, false, now, [])
  }

  /** The users, keyed by id. */
  class UserStore {
    var users: map<string, Account>

    /** Every record sits under its own id, no two records share an e-mail
        address, and the premium fields agree. */
    ghost predicate Valid()
      reads this
    {
      (forall k :: k in users ==> users[k].id == k && PremiumConsistent(users[k])) &&
      (forall k, l :: k in users && l in users && users[k].email == users[l].email ==> k == l)
    }

    constructor ()
      ensures users == map[] && Valid()
    {
      users := map[];
    }

    /** Some stored user has this e-mail address. */
    ghost predicate EmailTaken(email: string)
      reads this
    {
      exists k :: k in users && users[k].email == email
    }

    /** `get_user_by_email`: the id of the user with this address. */
    method FindByEmail(email: string) returns (id: Option<string>)
      ensures id.Some? ==> id.value in users && users[id.value].email == email
      ensures id.None? ==> forall k :: k in users ==> users[k].email != email
    {
      var keys := users.Keys;
      while keys != {}
        invariant keys <= users.Keys
        invariant forall k :: k in users && k !in keys ==> users[k].email != email
        decreases keys
      {
        var k :| k in keys;
        if users[k].email == email {
          return Some(k);
        }
        keys := keys - {k};
      }
      return None;
    }

    /** `create_user`: refused when the address is taken; otherwise a fresh
        record under "user_" followed by the creation second, replacing any
        record an earlier registration in the same second left there. */
    method CreateUser(email: string, passwordHash: string, phoneNumber: string, name: string,
                      stamp: string, now: Instant, today: Day) returns (created: Option<Account>)
      requires Valid()
      modifies this
      ensures Valid()
      ensures created.None? <==> old(EmailTaken(email))
      ensures created.None? ==> users == old(users)
      ensures created.Some? ==>
                created.value == NewAccount("user_" + stamp, email, passwordHash, phoneNumber, name, now, today) &&
                users == old(users)["user_" + stamp := created.value]
    {
      var userId := "user_" + stamp;
      var existing := FindByEmail(email);
      if existing.Some? {
        return None;
      }
      var account := NewAccount(userId, email, passwordHash, phoneNumber, name, now, today);
      users := users[userId := account];
      return Some(account);
    }

    /** `save_user` of a record loaded from this store. */
    method Save(user: User)
      requires Valid() && user.id in users && users[user.id].email == user.email
      requires PremiumConsistent(user.Snapshot())
      modifies this
      ensures Valid()
      ensures users == old(users)[user.id := user.Snapshot()]
    {
      users := users[user.id := user.Snapshot()];
    }

    /** `create_password_reset_token`: unknown address, no token; otherwise
        the dead tokens are dropped and a new one valid for an hour is
        added. */
    method CreatePasswordResetToken(email: string, token: string, now: Instant) returns (issued: Option<string>)
      requires Valid()
      modifies this
      ensures Valid()
      ensures issued.None? <==> !old(EmailTaken(email))
      ensures issued.None? ==> users == old(users)
      ensures issued.Some? ==>
                issued.value == token &&
                (exists k :: k in old(users) && old(users)[k].email == email &&
                   users == old(users)[k := old(users)[k].(resetTokens := IssueToken(old(users)[k].resetTokens, token, now))])
    {
      var found := FindByEmail(email);
      if found.None? {
        return None;
      }
      var k := found.value;
      var a := users[k];
      users := users[k := a.(resetTokens := IssueToken(a.resetTokens, token, now))];
      return Some(token);
    }

    /** `validate_reset_token`. */
    method ValidateResetToken(email: string, token: string, now: Instant) returns (ok: bool)
      requires Valid()
      ensures ok <==> exists k :: k in users && users[k].email == email &&
                                  HoldsRedeemable(users[k].resetTokens, token, now)
    {
      var found := FindByEmail(email);
      if found.None? {
        return false;
      }
      ok := FindRedeemable(users[found.value].resetTokens, token, now);
    }

    /** `use_reset_token`: the first entry carrying the token is marked
        used, expired or not; with no such entry, or no such user, nothing
        changes and the answer is false. */
    method UseResetToken(email: string, token: string, now: Instant) returns (ok: bool)
      requires Valid()
      modifies this
      ensures Valid()
      ensures ok <==> exists k :: k in old(users) && old(users)[k].email == email &&
                                  FirstMatch(old(users)[k].resetTokens, token).Some?
      ensures !ok ==> users == old(users)
      ensures ok ==>
                exists k :: (k in old(users) && old(users)[k].email == email &&
                  users == old(users)[k := old(users)[k].(resetTokens := MarkUsed(old(users)[k].resetTokens, token, now))])
    {
      var found := FindByEmail(email);
      if found.None? {
        return false;
      }
      var k := found.value;
      var a := users[k];
      var i := 0;
      while i < |a.resetTokens|
        invariant 0 <= i <= |a.resetTokens|
        invariant forall j :: 0 <= j < i ==> a.resetTokens[j].token != token
      {
        if a.resetTokens[i].token == token {
          assert FirstMatch(a.resetTokens, token) == Some(i);
          var marked := a.resetTokens[i := a.resetTokens[i].(used := true, usedAt := Some(now))];
          users := users[k := a.(resetTokens := marked)];
          return true;
        }
        i := i + 1;
      }
      return false;
    }

    /** `update_password`: the new hash, and every reset token discarded. */
    method UpdatePassword(email: string, passwordHash: string) returns (ok: bool)
      requires Valid()
      modifies this
      ensures Valid()
      ensures ok <==> old(EmailTaken(email))
      ensures !ok ==> users == old(users)
      ensures ok ==>
                exists k :: (k in old(users) && old(users)[k].email == email &&
                  users == old(users)[k := old(users)[k].(passwordHash := passwordHash, resetTokens := [])])
    {
      var found := FindByEmail(email);
      if found.None? {
        return false;
      }
      var k := found.value;
      users := users[k := users[k].(passwordHash := passwordHash, resetTokens := [])];
      return true;
    }

    /** The token search of `api_reset_password`: the address of a user
        holding a redeemable entry with this token. A holder whose address
        is the empty string does not end the search (the source tests the
        address for truth), so it is never the answer. */
    method FindEmailByResetToken(token: string, now: Instant) returns (email: Option<string>)
      ensures email.Some? ==> email.value != "" &&
                              exists k :: k in users && users[k].email == email.value &&
                                          HoldsRedeemable(users[k].resetTokens, token, now)
      ensures email.None? ==> forall k :: k in users && users[k].email != "" ==>
                                            !HoldsRedeemable(users[k].resetTokens, token, now)
    {
      var keys := users.Keys;
      while keys != {}
        invariant keys <= users.Keys
        invariant forall k :: k in users && k !in keys && users[k].email != "" ==>
                                !HoldsRedeemable(users[k].resetTokens, token, now)
        decreases keys
      {
        var k :| k in keys;
        var holds := FindRedeemable(users[k].resetTokens, token, now);
        if holds && users[k].email != "" {
          return Some(users[k].email);
        }
        keys := keys - {k};
      }
      return None;
    }
  }

  /** The scan for a redeemable entry shared by the two searches above. */
  method FindRedeemable(tokens: seq<ResetToken>, token: string, now: Instant) returns (found: bool)
    ensures found <==> HoldsRedeemable(tokens, token, now)
  {
    var i := 0;
    while i < |tokens|
      invariant 0 <= i <= |tokens|
      invariant forall j :: 0 <= j < i ==> !Redeemable(tokens[j], token, now)
    {
      if tokens[i].token == token && !tokens[i].used && now < tokens[i].expiresAt {
        return true;
      }
      i := i + 1;
    }
    return false;
  }
}
