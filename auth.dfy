/** Sessions and one-time passwords of app.py (`AuthManager` and
    `OTPManager`). A session is bound to the IP address it was issued to and
    lasts thirty days; a one-time password lasts ten minutes and is kept per
    e-mail address. Tokens and codes are given as parameters, and so are the
    current time and the caller's address. */
module Auth {
  import opened Wrappers
  import opened Quota
  import opened Accounts

  /** Thirty days, in seconds. */
  const SessionLifetime: int := 30 * 24 * 3600

  /** Ten minutes, in seconds. */
  const OtpLifetime: int := 10 * 60

  datatype Session = Session(
    userId: string,
    ipAddress: string,
    userAgent: string,
    createdAt: Instant,
    expiresAt: Instant,
    lastAccessed: Instant)

  /** A session survives a validation at `now` from `ip`: not past its expiry
      (the expiry instant itself still counts) and from the issuing address. */
  predicate Honoured(s: Session, now: Instant, ip: string)
  {
    now <= s.expiresAt && s.ipAddress == ip
  }

  /** The sessions, keyed by token. */
  class SessionStore {
    var sessions: map<string, Session>

    constructor ()
      ensures sessions == map[]
    {
      sessions := map[];
    }

    /** `create_session`: a new session for the user, bound to the caller's
        address, expiring thirty days later. */
    method CreateSession(token: string, userId: string, ip: string, userAgent: string, now: Instant)
      returns (issued: string)
      modifies this
      ensures issued == token
      ensures sessions == old(sessions)[token := Session(userId, ip, userAgent, now, now + SessionLifetime, now)]
    {
      sessions := sessions[token := Session(userId, ip, userAgent, now, now + SessionLifetime, now)];
      return token;
    }

    /** `validate_session`: an unknown token gives nothing and changes
        nothing; an expired session, or one presented from another address,
        is deleted and gives nothing; otherwise the owner is returned and
        only the last-access time changes. */
    method ValidateSession(token: string, now: Instant, ip: string) returns (userId: Option<string>)
      modifies this
      ensures userId.Some? <==> token in old(sessions) && Honoured(old(sessions)[token], now, ip)
      ensures userId.Some? ==> userId.value == old(sessions)[token].userId
      ensures sessions == AfterValidation(old(sessions), token, now, ip)
    {
      if token in sessions {
        var s := sessions[token];
        if now > s.expiresAt {
          sessions := sessions - {token};
          return None;
        }
        if s.ipAddress != ip {
          sessions := sessions - {token};
          return None;
        }
        sessions := sessions[token := s.(lastAccessed := now)];
        return Some(s.userId);
      }
      return None;
    }

    /** `logout_session`: deletes the session and says whether there was
        one. */
    method LogoutSession(token: string) returns (present: bool)
      modifies this
      ensures present <==> token in old(sessions)
      ensures sessions == old(sessions) - {token}
    {
      if token in sessions {
        sessions := sessions - {token};
        return true;
      }
      return false;
    }
  }

  /** The session map after a validation: unchanged for an unknown token,
      without the session when it is not honoured, and otherwise with only
      its last-access time moved to `now`. */
  function AfterValidation(sessions: map<string, Session>, token: string, now: Instant, ip: string)
    : (r: map<string, Session>)
    ensures token !in sessions ==> r == sessions
    ensures token in sessions && !Honoured(sessions[token], now, ip) ==> r == sessions - {token}
    ensures token in sessions && Honoured(sessions[token], now, ip) ==>
              r.Keys == sessions.Keys && r[token] == sessions[token].(lastAccessed := now) &&
              forall t :: t in sessions && t != token ==> r[t] == sessions[t]
  {
    if token !in sessions then sessions
    else if Honoured(sessions[token], now, ip) then sessions[token := sessions[token].(lastAccessed := now)]
    else sessions - {token}
  }

  /** A session presented once from a foreign address is gone: the owner's
      next validation from the right address, at any time, finds nothing.
      A stolen token therefore logs its owner out. */
  lemma ForeignAddressEndsSession(sessions: map<string, Session>, token: string, now: Instant,
                                  foreign: string, later: Instant, own: string)
    requires token in sessions && sessions[token].ipAddress != foreign
    ensures token !in AfterValidation(sessions, token, now, foreign)
    ensures AfterValidation(AfterValidation(sessions, token, now, foreign), token, later, own)
            == AfterValidation(sessions, token, now, foreign)
  {
  }

  /** Validations from the issuing address keep a session alive up to its
      expiry and no further, whatever happened to the last-access time. */
  lemma {:induction false} SessionLastsItsLifetime(sessions: map<string, Session>, token: string,
                                                  first: Instant, later: Instant)
    requires token in sessions
    ensures var s := sessions[token];
      var after := AfterValidation(sessions, token, first, s.ipAddress);
      first <= s.expiresAt ==>
        token in after && after[token].expiresAt == s.expiresAt &&
        (token in AfterValidation(after, token, later, s.ipAddress) <==> later <= s.expiresAt)
  {
  }

  datatype OtpRecord = OtpRecord(
    otpCode: string,
    email: string,
    createdAt: Instant,
    expiresAt: Instant,
    verified: bool)

  /** A code is accepted for an address: one is kept for it, it has not
      expired (strictly before its expiry) and it matches. */
  predicate Accepts(codes: map<string, OtpRecord>, email: string, code: string, now: Instant)
  {
    email in codes && now < codes[email].expiresAt && codes[email].otpCode == code
  }

  /** The one-time passwords, keyed by e-mail address. */
  class OtpStore {
    var codes: map<string, OtpRecord>

    constructor ()
      ensures codes == map[]
    {
      codes := map[];
    }

    /** `generate_and_send_otp`: the new code replaces any earlier one for the
        address; the answer is whether the mail went out. */
    method GenerateAndSendOtp(email: string, code: string, now: Instant, sent: bool) returns (ok: bool)
      modifies this
      ensures ok == sent
      ensures codes == old(codes)[email := OtpRecord(code, email, now, now + OtpLifetime, false)]
    {
      codes := codes[email := OtpRecord(code, email, now, now + OtpLifetime, false)];
      return sent;
    }

    /** `verify_otp`: true exactly when the code is accepted, and only then
        is the record marked verified. The code stays and may be presented
        again until it expires. */
    method VerifyOtp(email: string, code: string, now: Instant) returns (ok: bool)
      modifies this
      ensures ok <==> Accepts(old(codes), email, code, now)
      ensures ok ==> codes == old(codes)[email := old(codes)[email].(verified := true)]
      ensures !ok ==> codes == old(codes)
    {
      if email in codes {
        var r := codes[email];
        if now < r.expiresAt && r.otpCode == code {
          codes := codes[email := r.(verified := true)];
          return true;
        }
      }
      return false;
    }

    /** `is_verified`. */
    method IsVerified(email: string) returns (verified: bool)
      ensures verified <==> email in codes && codes[email].verified
    {
      if email in codes {
        return codes[email].verified;
      }
      return false;
    }
  }

  /** A freshly generated code is accepted for ten minutes and not at or
      after its expiry, and a wrong code is never accepted. */
  lemma OtpWindow(codes: map<string, OtpRecord>, email: string, code: string, now: Instant,
                  later: Instant, guess: string)
    requires now <= later
    ensures var issued := codes[email := OtpRecord(code, email, now, now + OtpLifetime, false)];
      (Accepts(issued, email, code, later) <==> later < now + OtpLifetime) &&
      (guess != code ==> !Accepts(issued, email, guess, later))
  {
  }

  /** Acceptance does not consume the code: it is accepted again afterwards
      as long as it has not expired. */
  lemma OtpIsReusable(codes: map<string, OtpRecord>, email: string, code: string, now: Instant, later: Instant)
    requires Accepts(codes, email, code, now) && later < codes[email].expiresAt
    ensures Accepts(codes[email := codes[email].(verified := true)], email, code, later)
  {
  }
}
