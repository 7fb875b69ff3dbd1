/** The two check handlers of app_enhanced.py: the input is stripped, the
    profile `get_user` returns goes through the quota gate, and an admitted
    request is classified. The answer carries the premium analysis only for
    a profile that is premium once the gate has run. */
module EnhancedHandlers {
  import opened Text
  import opened Scoring
  import opened Quota
  import opened EnhancedStore
  import opened EnhancedChecks

  /** What the USSD check answers: the free limit, or the kind of the code
      and whether the premium scam analysis is shown. */
  datatype UssdAnswer = UssdLimitReached | UssdAnswered(kind: Kind, premiumAnalysis: bool)

  /** `api_check_ussd`. */
  method CheckUssd(svc: Service, userId: string, code: string, today: Day) returns (answer: UssdAnswer)
    requires svc.Valid()
    modifies svc, svc.users.Values
    ensures svc.Valid() && svc.payments == old(svc.payments)
    ensures var g := Gate(old(svc.Current(userId)), today);
      svc.States() == old(svc.States())[userId := g.1] &&
      (answer == UssdLimitReached <==> !g.0) &&
      (answer.UssdAnswered? ==>
         answer.kind == ClassifyUssd(Strip(code)) &&
         (answer.premiumAnalysis <==> answer.kind == Scam && g.1.isPremium))
  {
    var stripped := Strip(code);
    ghost var g := Gate(svc.Current(userId), today);
    var admitted := svc.AdmitCheck(userId, today);
    if !admitted {
      return UssdLimitReached;
    }
    assert svc.States()[userId] == g.1;
    var kind := ClassifyUssd(stripped);
    var premium := svc.users[userId].isPremium;
    return UssdAnswered(kind, kind == Scam && premium);
  }

  /** What the SMS check answers: the free limit, or the kind, score and
      reasons of the message and whether the premium score line is shown. */
  datatype SmsAnswer = SmsLimitReached
                     | SmsAnswered(kind: Kind, score: nat, reasons: seq<string>, premiumAnalysis: bool)

  /** `api_check_sms`. */
  method CheckSms(svc: Service, userId: string, sms: string, today: Day) returns (answer: SmsAnswer)
    requires svc.Valid()
    modifies svc, svc.users.Values
    ensures svc.Valid() && svc.payments == old(svc.payments)
    ensures var g := Gate(old(svc.Current(userId)), today);
      svc.States() == old(svc.States())[userId := g.1] &&
      (answer == SmsLimitReached <==> !g.0) &&
      (answer.SmsAnswered? ==>
         answer.score == SmsScore(Strip(sms)) && answer.reasons == SmsReasons(Strip(sms)) &&
         answer.kind == SmsKind(answer.score) &&
         (answer.premiumAnalysis <==> g.1.isPremium))
  {
    var stripped := Strip(sms);
    ghost var g := Gate(svc.Current(userId), today);
    var admitted := svc.AdmitCheck(userId, today);
    if !admitted {
      return SmsLimitReached;
    }
    assert svc.States()[userId] == g.1;
    var premium := svc.users[userId].isPremium;
    assert premium == g.1.isPremium;
    var kind, score, reasons := AnalyseSms(stripped);
    answer := SmsAnswered(kind, score, reasons, premium);
  }
}
