/** The request handlers of app.py that combine the account layer with the
    scorers: the USSD and SMS checks behind the quota gate, registration,
    the password reset and the user statistics. Request fields that are
    absent are the empty string; the mail outcome, hashes, tokens, codes,
    the id stamp, the clock and the SMS pattern search are parameters. */
module Handlers {
  import opened Wrappers
  import opened Text
  import opened Quota
  import opened Accounts
  import opened Auth
  import UssdCheck
  import SmsCheck

  /** Why a check request is turned away before any analysis. */
  datatype Refusal = MissingUserId | UserNotFound | NeedsVerification | LimitReached

  /** The gate in front of both check handlers, on the stored users: the
      user id must be given and known, the e-mail verified, and the quota
      step must admit the check, which is then recorded. A refusal saves
      nothing. */
  function CheckGate(users: map<string, Account>, userId: string, today: Day)
    : (g: (Option<Refusal>, map<string, Account>))
    ensures g.0.Some? ==> g.1 == users
    ensures g.0.None? <==> userId != "" && userId in users && users[userId].isVerified && Admit(users[userId], today).Some?
    ensures g.0.None? ==> g.1 == users[userId := Admit(users[userId], today).value]
    ensures g.0 == Some(LimitReached) ==> userId in users && !users[userId].isPremium
  {
    if userId == "" then (Some(MissingUserId), users)
    else if userId !in users then (Some(UserNotFound), users)
    else if !users[userId].isVerified then (Some(NeedsVerification), users)
    else match Admit(users[userId], today)
      case None => (Some(LimitReached), users)
      case Some(b) => (None, users[userId := b])
  }

  /** The gate as the handlers run it: the user is loaded, the free-check
      test runs on the loaded user only when it is not flagged premium, and
      the record is saved only when the check is recorded. */
  method AdmitCheck(store: UserStore, userId: string, today: Day) returns (refusal: Option<Refusal>)
    requires store.Valid()
    modifies store
    ensures store.Valid()
    ensures (refusal, store.users) == CheckGate(old(store.users), userId, today)
  {
    if userId == "" {
      return Some(MissingUserId);
    }
    if userId !in store.users {
      return Some(UserNotFound);
    }
    var user := new User.Load(store.users[userId]);
    if !user.isVerified {
      return Some(NeedsVerification);
    }
    if !user.isPremium {
      var allowed := user.CanMakeFreeCheck(today);
      if !allowed {
        return Some(LimitReached);
      }
    }
    user.RecordCheck(today);
    store.Save(user);
    return None;
  }

  /** `n` check requests by one user on the same day, through the gate. */
  function GateRuns(users: map<string, Account>, userId: string, today: Day, n: nat): (map<string, Account>, nat)
  {
    if n == 0 then (users, 0)
    else
      var (u, k) := GateRuns(users, userId, today, n - 1);
      var (refusal, v) := CheckGate(u, userId, today);
      if refusal.None? then (v, k + 1) else (u, k)
  }

  /** For a known, verified user the gate does what the quota step does to
      that user's record, and touches no other record. */
  lemma {:induction false} GateFollowsQuota(users: map<string, Account>, userId: string, today: Day, n: nat)
    requires userId != "" && userId in users && users[userId].isVerified
    ensures var (u, k) := GateRuns(users, userId, today, n);
      u == users[userId := Requests(users[userId], today, n).0] && k == Requests(users[userId], today, n).1
  {
    if n == 0 {
      assert users[userId := users[userId]] == users;
    } else {
      GateFollowsQuota(users, userId, today, n - 1);
      var b := Requests(users[userId], today, n - 1).0;
      RequestsKeepVerification(users[userId], today, n - 1);
      GateStep(users, userId, today, b);
    }
  }

  /** One request through the gate when the user's record is `b`. */
  lemma GateStep(users: map<string, Account>, userId: string, today: Day, b: Account)
    requires userId != "" && b.isVerified
    ensures var (refusal, v) := CheckGate(users[userId := b], userId, today);
      (refusal.None? <==> Admit(b, today).Some?) &&
      (refusal.None? ==> v == users[userId := Admit(b, today).value]) &&
      (refusal.Some? ==> v == users[userId := b])
  {
    if Admit(b, today).Some? {
      assert users[userId := b][userId := Admit(b, today).value] == users[userId := Admit(b, today).value];
    }
  }

  /** The quota step never changes whether the e-mail is verified. */
  lemma {:induction false} RequestsKeepVerification(a: Account, today: Day, n: nat)
    ensures Requests(a, today, n).0.isVerified == a.isVerified
  {
    if n > 0 {
      RequestsKeepVerification(a, today, n - 1);
    }
  }

  /** A verified free user gets exactly five checks recorded on a new day;
      the sixth request of the day is refused with the limit message. */
  lemma FiveChecksPerDay(users: map<string, Account>, userId: string, today: Day)
    requires userId != "" && userId in users && users[userId].isVerified && !users[userId].isPremium
    requires users[userId].lastCheckDate != today
    ensures GateRuns(users, userId, today, 5).1 == 5
    ensures CheckGate(GateRuns(users, userId, today, 5).0, userId, today).0 == Some(LimitReached)
  {
    GateFollowsQuota(users, userId, today, 5);
    SixthCheckRefused(users[userId], today);
    RequestsKeepVerification(users[userId], today, 5);
  }

  /** A verified user flagged premium is admitted every time, even after the
      premium's last day: the check handlers never clear it. */
  lemma LapsedPremiumStaysUnlimited(users: map<string, Account>, userId: string, today: Day, n: nat)
    requires userId != "" && userId in users && users[userId].isVerified && users[userId].isPremium
    ensures GateRuns(users, userId, today, n).1 == n
  {
    GateFollowsQuota(users, userId, today, n);
    PremiumIsUnmetered(users[userId], today, n);
  }

  /** What the USSD check answers. */
  datatype UssdReply = UssdRefused(refusal: Refusal) | UssdChecked(assessment: UssdCheck.Assessment)

  /** `api_check_ussd`: the gate, then the analysis of the stripped code. */
  method CheckUssd(store: UserStore, userId: string, code: string, today: Day) returns (reply: UssdReply)
    requires store.Valid()
    modifies store
    ensures store.Valid()
    ensures store.users == CheckGate(old(store.users), userId, today).1
    ensures match CheckGate(old(store.users), userId, today).0
      case Some(r) => reply == UssdRefused(r)
      case None => reply == UssdChecked(UssdCheck.Verdict(Strip(code)))
  {
    var refusal := AdmitCheck(store, userId, today);
    if refusal.Some? {
      return UssdRefused(refusal.value);
    }
    var assessment, _ := UssdCheck.AnalyseCode(Strip(code));
    return UssdChecked(assessment);
  }

  /** What the SMS check answers. */
  datatype SmsReply = SmsRefused(refusal: Refusal) | SmsChecked(assessment: SmsCheck.Assessment, score: nat)

  /** `api_check_sms`: the gate, then the analysis of the stripped message. */
  method CheckSms(store: UserStore, userId: string, sms: string, search: SmsCheck.Search, today: Day)
    returns (reply: SmsReply)
    requires store.Valid()
    modifies store
    ensures store.Valid()
    ensures store.users == CheckGate(old(store.users), userId, today).1
    ensures match CheckGate(old(store.users), userId, today).0
      case Some(r) => reply == SmsRefused(r)
      case None =>
        var score := SmsCheck.SmsScore(ToLower(Strip(sms)), search);
        reply == SmsChecked(SmsCheck.Assess(score), score)
  {
    var refusal := AdmitCheck(store, userId, today);
    if refusal.Some? {
      return SmsRefused(refusal.value);
    }
    var assessment, score := SmsCheck.AnalyseSms(Strip(sms), search);
    return SmsChecked(assessment, score);
  }

  /** `^0[7-9][0-9]{9}$` on a stripped string: a '0', one of '7', '8', '9',
      then exactly nine digits. */
  predicate IsNigerianPhone(s: string)
    ensures IsNigerianPhone(s) ==> |s| == 11 && (StartsWith(s, "07") || StartsWith(s, "08") || StartsWith(s, "09"))
  {
    |s| >= 2 && s[0] == '0' && '7' <= s[1] <= '9' && NineDigits(s[2..])
  }

  /** `[0-9]{9}$`. */
  predicate NineDigits(s: string)
  {
    |s| == 9 && forall i :: 0 <= i < |s| ==> IsDigit(s[i])
  }

  /** A valid number is eleven digits starting "07", "08" or "09", and
      stripping leaves it as it is. */
  lemma NigerianPhoneShape(s: string)
    ensures IsNigerianPhone(s) <==>
      |s| == 11 && (forall i :: 0 <= i < |s| ==> IsDigit(s[i])) && s[0] == '0' && s[1] in {'7', '8', '9'}
    ensures IsNigerianPhone(s) ==> Strip(s) == s
  {
    if |s| == 11 {
      assert forall i :: 2 <= i < 11 ==> s[2..][i - 2] == s[i];
    }
    if IsNigerianPhone(s) {
      StripNoop(s);
    }
  }

  /** The answers of `api_register_user`. */
  datatype Registration =
    | MissingFields
    | PasswordTooShort
    | InvalidPhone
    | EmailAlreadyRegistered
    | Registered(userId: string)           // OTP mailed
    | RegisteredWithoutOtp                 // mail failed, mail settings present; no id in the reply
    | MailNotConfigured                    // mail failed, mail settings missing

  /** The field checks of `api_register_user`, in their order, on the
      normalised e-mail and phone number. */
  function RegistrationRefusal(email: string, password: string, phone: string): (r: Option<Registration>)
    ensures r.None? <==> email != "" && |password| >= 6 && IsNigerianPhone(phone)
    ensures r.Some? ==> r.value in {MissingFields, PasswordTooShort, InvalidPhone}
    ensures r == Some(MissingFields) <==> email == "" || password == "" || phone == ""
  {
    if email == "" || password == "" || phone == "" then Some(MissingFields)
    else if |password| < 6 then Some(PasswordTooShort)
    else if !IsNigerianPhone(phone) then Some(InvalidPhone)
    else None
  }

  /** `api_register_user`: the e-mail is stripped and lower-cased and the
      phone number and name stripped; the fields are checked; the user is
      created unless the address is taken; then a one-time password is
      stored and mailed. The account exists even when the mail fails. */
  method RegisterUser(store: UserStore, otps: OtpStore, rawEmail: string, password: string, rawPhone: string,
                      rawName: string, passwordHash: string, stamp: string, otpCode: string,
                      now: Instant, today: Day, mailSent: bool, mailConfigured: bool)
    returns (r: Registration)
    requires store.Valid()
    modifies store, otps
    ensures store.Valid()
    ensures var refusal := RegistrationRefusal(ToLower(Strip(rawEmail)), password, Strip(rawPhone));
      refusal.Some? ==> r == refusal.value && store.users == old(store.users) && otps.codes == old(otps.codes)
    ensures var email := ToLower(Strip(rawEmail));
      RegistrationRefusal(email, password, Strip(rawPhone)).None? && old(store.EmailTaken(email)) ==>
        r == EmailAlreadyRegistered && store.users == old(store.users) && otps.codes == old(otps.codes)
    ensures var email, phone := ToLower(Strip(rawEmail)), Strip(rawPhone);
      RegistrationRefusal(email, password, phone).None? && !old(store.EmailTaken(email)) ==>
        store.users == old(store.users)["user_" + stamp :=
                         NewAccount("user_" + stamp, email, passwordHash, phone, Strip(rawName), now, today)] &&
        otps.codes == old(otps.codes)[email := OtpRecord(otpCode, email, now, now + OtpLifetime, false)] &&
        r == (if mailSent then Registered("user_" + stamp)
              else if mailConfigured then RegisteredWithoutOtp
              else MailNotConfigured)
  {
    var email := ToLower(Strip(rawEmail));
    var phone := Strip(rawPhone);
    var name := Strip(rawName);
    var refusal := RegistrationRefusal(email, password, phone);
    if refusal.Some? {
      return refusal.value;
    }
    r := Enrol(store, otps, email, passwordHash, phone, name, stamp, otpCode, now, today, mailSent, mailConfigured);
  }

  /** The part of `api_register_user` after the field checks: the user is
      created unless the address is taken, then a one-time password is
      stored and mailed. */
  method Enrol(store: UserStore, otps: OtpStore, email: string, passwordHash: string, phone: string,
               name: string, stamp: string, otpCode: string,
               now: Instant, today: Day, mailSent: bool, mailConfigured: bool)
    returns (r: Registration)
    requires store.Valid()
    modifies store, otps
    ensures store.Valid()
    ensures old(store.EmailTaken(email)) ==>
              r == EmailAlreadyRegistered && store.users == old(store.users) && otps.codes == old(otps.codes)
    ensures !old(store.EmailTaken(email)) ==>
              store.users == old(store.users)["user_" + stamp :=
                               NewAccount("user_" + stamp, email, passwordHash, phone, name, now, today)] &&
              otps.codes == old(otps.codes)[email := OtpRecord(otpCode, email, now, now + OtpLifetime, false)] &&
              r == (if mailSent then Registered("user_" + stamp)
                    else if mailConfigured then RegisteredWithoutOtp
                    else MailNotConfigured)
  {
    var created := store.CreateUser(email, passwordHash, phone, name, stamp, now, today);
    if created.None? {
      return EmailAlreadyRegistered;
    }
    var sent := otps.GenerateAndSendOtp(email, otpCode, now, mailSent);
    if sent {
      return Registered(created.value.id);
    } else if mailConfigured {
      return RegisteredWithoutOtp;
    } else {
      return MailNotConfigured;
    }
  }

  /** The answers of `api_reset_password`. */
  datatype PasswordReset = FieldsRequired | PasswordsDiffer | NewPasswordTooShort | InvalidOrExpiredToken
                         | ResetDone | ResetFailed

  /** `api_reset_password`: the fields are checked, a user holding the token
      redeemable now is looked up, the password is replaced (which discards
      all of that user's reset tokens), and the token is then marked used,
      which finds nothing left to mark. A well-formed request succeeds
      exactly when some user with an address holds the token. */
  method ResetPassword(store: UserStore, token: string, newPassword: string, confirmPassword: string,
                       passwordHash: string, now: Instant) returns (r: PasswordReset)
    requires store.Valid()
    modifies store
    ensures store.Valid()
    ensures token == "" || newPassword == "" || confirmPassword == "" ==> r == FieldsRequired
    ensures token != "" && newPassword != "" && confirmPassword != "" && newPassword != confirmPassword ==>
              r == PasswordsDiffer
    ensures token != "" && newPassword != "" && newPassword == confirmPassword && |newPassword| < 6 ==>
              r == NewPasswordTooShort
    ensures r == ResetDone <==>
              token != "" && newPassword != "" && newPassword == confirmPassword && |newPassword| >= 6 &&
              exists k :: k in old(store.users) && old(store.users)[k].email != "" &&
                          HoldsRedeemable(old(store.users)[k].resetTokens, token, now)
    ensures r != ResetFailed
    ensures r != ResetDone ==> store.users == old(store.users)
    ensures r == InvalidOrExpiredToken <==>
              token != "" && newPassword != "" && confirmPassword != "" && newPassword == confirmPassword &&
              |newPassword| >= 6 &&
              forall k :: k in old(store.users) && old(store.users)[k].email != "" ==>
                            !HoldsRedeemable(old(store.users)[k].resetTokens, token, now)
    ensures r == ResetDone ==>
              token != "" && newPassword == confirmPassword && |newPassword| >= 6 &&
              exists k :: k in old(store.users) && old(store.users)[k].email != "" &&
                HoldsRedeemable(old(store.users)[k].resetTokens, token, now) &&
                store.users == old(store.users)[k := old(store.users)[k].(passwordHash := passwordHash, resetTokens := [])]
  {
    if token == "" || newPassword == "" || confirmPassword == "" {
      return FieldsRequired;
    }
    if newPassword != confirmPassword {
      return PasswordsDiffer;
    }
    if |newPassword| < 6 {
      return NewPasswordTooShort;
    }
    var email := store.FindEmailByResetToken(token, now);
    if email.None? {
      return InvalidOrExpiredToken;
    }
    // The address was just found in the store, so the update cannot fail
    // and the source's failure answer is never given.
    var updated := store.UpdatePassword(email.value, passwordHash);
    assert updated;
    var _ := store.UseResetToken(email.value, token, now);
    return ResetDone;
  }

  /** The user statistics: an unknown or missing id gives nothing; otherwise
      premium that has run out is cleared and saved, and the record is
      returned. */
  method UserStats(store: UserStore, userId: string, today: Day) returns (stats: Option<Account>)
    requires store.Valid()
    modifies store
    ensures store.Valid()
    ensures stats.Some? <==> userId != "" && userId in old(store.users)
    ensures stats.None? ==> store.users == old(store.users)
    ensures stats.Some? ==>
              stats.value == ClearLapsed(old(store.users)[userId], today) &&
              store.users == old(store.users)[userId := stats.value]
  {
    if userId == "" || userId !in store.users {
      return None;
    }
    var user := new User.Load(store.users[userId]);
    user.ExpirePremium(today);
    store.Save(user);
    return Some(user.Snapshot());
  }
}
