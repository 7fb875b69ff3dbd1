# CyberGuard NG rule layer in Dafny

CyberGuard NG is a Flask service for Nigerian users. It checks USSD codes,
SMS messages and URLs for scam patterns and meters the free checks a user may
make per day. Premium plans, paid by bank transfer and approved by an
administrator, lift that limit. Two copies of the service exist:

- `app.py`, the full copy. It has registered accounts with e-mail
  verification, sessions bound to an IP address, one-time passwords,
  password-reset tokens, a payment ledger and a URL scanner.
- `app_enhanced.py`, a smaller copy. It keeps users and payments in two
  in-memory dictionaries, uses simpler check tables, and has an
  approve/reject action for the administrator.

This project models the rule layer of both copies and proves what it
promises. The storage is maps: whole records for `app.py`, profile objects
shared by reference for `app_enhanced.py`. Days are day numbers and instants
are seconds. Hashes, tokens, codes, id stamps, the mail outcome and the clock
are parameters.

Modules:

- **Shared:**
  - `Wrappers`: `Option`.
  - `Plans`: the price list, the same in both copies.
  - `Quota`: days, instants and the five free checks a day, the same in both
    copies.
  - `Text`: Python's `in`, `startswith`, `endswith`, `lower()` and `strip()`.
  - `Scoring`: weighted rule tables, the additive points tally and the three
    verdict kinds.
  - `IsoDates`: why 'YYYY-MM-DD' strings may be compared as days.
- **`app.py`:**
  - `UssdCheck`, `SmsCheck`, `UrlScanner`: the three scorers.
  - `Accounts`: `UserManager`, the quota and the reset tokens.
  - `Auth`: `AuthManager` sessions and `OTPManager`.
  - `Payments`: `PaymentManager` and the two payment endpoints.
  - `Handlers`: the check, registration, reset and statistics endpoints.
- **`app_enhanced.py`:**
  - `EnhancedStore`: `UserManager`, `PaymentManager`, the quota gate of the
    check handlers, initiation and the administrator's action.
  - `EnhancedChecks`: the USSD and SMS classification.
  - `EnhancedHandlers`: the two check endpoints, from the stripped input
    through the quota gate to the classification.

In `app.py`, request handlers load a user record, change it in place, and
save it back. The model does the same:

- It loads the record into an `Accounts.User` object.
- It changes the object with methods that are proved against the functions
  `FreeCheck`, `Recorded`, `Activated` and `ClearLapsed`.
- It saves the object into `Accounts.UserStore`.

In `app_enhanced.py`, `get_user` hands out the stored dictionary itself.
`EnhancedStore.Service` therefore maps ids to `Profile` objects, so the
model keeps that aliasing: a change a handler makes to a stored profile is
in the store before any save. An unknown id gets a fresh default profile,
and it is stored only when saved.

Premium that has run out is not cleared on every read:

- In `app.py`, the check handlers call `can_make_free_check` only for users not
  flagged premium. So premium that has run out still gives unlimited checks
  (`Handlers.LapsedPremiumStaysUnlimited`).
- In `app.py`, only the user-statistics endpoint clears it.
- `app_enhanced.py` clears the flag in both check handlers, but keeps the
  expiry date.

The model follows the code.

## Model

| member | source | states |
|---|---|---|
| `Plans.ParsePlan` | app.py:39-43 | A plan key is accepted exactly when it is "daily", "weekly" or "monthly", and the plan it names has that key. |
| `Plans.PlansAreOrdered` | app.py:39-43 | Every plan's key parses back to the plan. A longer plan costs more. Every plan lasts at least one day. |
| `Text.Strip` | app.py:2658 | The result is the input with the Python whitespace at both ends removed: only whitespace was dropped, and neither end of the result is whitespace. |
| `Scoring.Tally` | app.py:2710-2713 | The score the points loop accumulates never exceeds the table's total. |
| `Scoring.FiredRuleCounts` | app.py:2710-2713 | A rule that fired contributes all of its points to the score. |
| `Scoring.TwoFiredRulesCount` | app.py:2710-2713 | Two different rules that fired both contribute all of their points. |
| `Scoring.TallySplitsTable` | app.py:2796-2799 | The points of the rules that fired and of those that did not add up to the table's total, so each rule is counted exactly once. |
| `Scoring.TallyMonotone` | app.py:2796-2799 | Firing more rules never lowers the score. |
| `Scoring.TallyZero` | app.py:2796-2799 | The score is zero exactly when no rule worth points fired. |
| `Scoring.OnlyRuleFired` | app.py:2796-2799 | When a single rule fired, the score is that rule's points. |
| `UssdCheck.AnalyseCode` | app.py:2699-2730 | The loop's score is the sum of the points of the keywords that occur in the lower-cased code, or 0 for an allow-listed code. The assessment is the allow-list message for an allow-listed code and the threshold chain on the score otherwise. |
| `UssdCheck.Score` | app.py:2710-2713 | The loop over a keyword table adds up the points of exactly the keywords found in the text, each once. |
| `UssdCheck.RiskScore` | app.py:2709-2713 | Every keyword found in the lower-cased code adds at least its own points, and the score is zero exactly when no keyword occurs. |
| `UssdCheck.Verdict` | app.py:2704-2730 | An allow-listed code, and only such a code, gets the verified-bank-code message. Any other code is 'scam' from 15 points and 'warning' from 5 to 14 points. |
| `UssdCheck.Assess` | app.py:2716-2730 | A score of 15 or more is 'scam', 5 to 14 is 'warning', and less than 5 is 'safe'. The chain never gives the allow-list message. |
| `UssdCheck.AssessMonotone` | app.py:2716-2730 | A higher score never gives a milder assessment. |
| `UssdCheck.SafeCodesAreSymbols` | app.py:2688-2692 | Every allow-listed code is made of '*', '#' and digits only. |
| `UssdCheck.NoKeywordAmongSymbols` | app.py:2709-2713 | A keyword that starts with a letter never occurs in the lower-cased form of a code made of USSD symbols. |
| `UssdCheck.KeywordsStartWithLetters` | app.py:2694-2697 | Every keyword starts with a lower-case letter and is worth at least 8 points. |
| `UssdCheck.AllowListIsClean` | app.py:2704-2707 | An allow-listed code is 'safe' without being scored, and no keyword occurs in it, so the allow-list hides no keyword. |
| `UssdCheck.KeywordMeansScored` | app.py:2708-2713 | A code that contains a keyword is not allow-listed, is scored, and scores at least that keyword's points. |
| `UssdCheck.BvnIsHighRisk` | app.py:2694-2721 | A code containing 'bvn' in any letter case is HIGH or EXTREME risk, so it is reported as a scam. |
| `UssdCheck.TwoKeywordsMeanScam` | app.py:2694-2721 | A code containing two different keywords is always reported as a scam. |
| `UssdCheck.SafeIffNoKeyword` | app.py:2694-2730 | A code is reported 'safe' exactly when it contains no keyword. |
| `SmsCheck.AnalyseSms` | app.py:2775-2816 | `risk_score` is the sum of the points of the patterns that match the lower-cased message. The assessment is the threshold chain on that score. |
| `SmsCheck.Score` | app.py:2796-2799 | The loop over a pattern table adds up the points of exactly the patterns that match, each once. |
| `SmsCheck.SmsScore` | app.py:2796-2799 | Every pattern that matches the lower-cased message adds at least its own points to `risk_score`. |
| `SmsCheck.Assess` | app.py:2801-2816 | A score of 18 or more is 'scam', 8 to 17 is 'warning', and less than 8 is 'safe'. |
| `SmsCheck.TableTotal` | app.py:2779-2794 | The pattern table is worth 133 points. |
| `SmsCheck.EachPatternCountedOnce` | app.py:2796-2799 | The score plus the points of the patterns that did not match is 133, so the score lies between 0 and 133. |
| `SmsCheck.OnePatternIsNeverScam` | app.py:2779-2807 | A message that matches one pattern only scores that pattern's points and is never a scam. |
| `SmsCheck.HeavyPatternWithAnotherIsScam` | app.py:2779-2807 | A 15-point pattern together with any other pattern always gives a scam. |
| `SmsCheck.NothingMatchedIsSafe` | app.py:2796-2816 | A message that matches no pattern scores 0 and is reported as likely legitimate. |
| `UrlScanner.LastPieceSound` | app.py:1095 | `split('//')[-1]` is a suffix of the URL with no '//' left in it. It is the whole URL when there is no '//', and otherwise it starts right after an occurrence of '//'. |
| `UrlScanner.LastCutLeavesNone` | app.py:1095 | Cutting at the leftmost '//' again and again leaves no occurrence at or after the last cut. |
| `UrlScanner.LastCutFollowsOccurrence` | app.py:1095 | A last cut other than the start of the URL lies right after an occurrence of '//'. |
| `UrlScanner.FindFirstLeftmost` | app.py:1095 | No occurrence comes before the one the first cut of `split` is made at, and there is none when no cut is made. |
| `UrlScanner.LastPieceSkips` | app.py:1095 | When the text before a '//' holds no '//' and does not end in '/', `split('//')[-1]` of the whole equals that of what follows the '//'. |
| `UrlScanner.FirstPiece` | app.py:1095 | `split('/')[0]` is a prefix of its input with no '/' in it, and it ends where the first '/' is. |
| `UrlScanner.StripWww` | app.py:1097-1098 | A leading "www." is dropped, and anything else is kept. |
| `UrlScanner.ExtractDomain` | app.py:1091-1099 | The domain is taken from the part after the split's last cut, which follows a '//' beyond which no '//' occurs (the whole URL when it has no '//'). It is the run up to the next '/', taken after the "www." when the part starts with one. |
| `UrlScanner.ExtractHost` | app.py:1091-1099 | The corrected extraction: the same run, taken after a leading "www.", in the part that starts right after the first '//' of the URL (the whole URL when it has no '//'). |
| `UrlScanner.PlainTextIsItsDomain` | app.py:1094-1098 | Text without a '/' is its own domain, less one leading "www.". |
| `UrlScanner.WwwIsDropped` | app.py:1096-1098 | The domain of "www." followed by a name without '/' is the name alone. |
| `UrlScanner.OddSlashRunExample` | app.py:1094 | The split cuts from left to right without overlap: "a///b" is cut once, after its third character, so its domain is empty. |
| `UrlScanner.EvenSlashRunExample` | app.py:1094 | "////b" is cut after its second and its fourth slash, so its domain is "b". |
| `UrlScanner.Normalize` | app.py:1051-1053 | The normalised URL is the stripped, lower-cased URL, with "http://" put in front exactly when that text starts with neither "http://" nor "https://". So it always starts with one of the two. |
| `UrlScanner.NormalizeNoop` | app.py:1051-1053 | A lower-case URL with no surrounding whitespace that already has its scheme is left as it is. |
| `UrlScanner.SchemeUrlIsNormal` | app.py:1051-1053 | On "http://…" or "https://…" text in lower case, the normalisation changes nothing. |
| `UrlScanner.PlainUrlIsNormal` | app.py:1051-1053 | A URL of a web scheme, an optional "www.", a plain domain and a lower-case path is already normal. |
| `UrlScanner.RedirectUrlIsNormal` | app.py:1051-1053 | A redirect link between plain domains with a lower-case query is already normal. |
| `UrlScanner.ClassifyDomain` | app.py:1059-1082 | The domain is 'scam' exactly when it is a known scam domain, otherwise 'safe' when it is legitimate, otherwise 'warning' when it ends in a suspicious top-level domain, and otherwise 'safe'. |
| `UrlScanner.ScanUrlAsWritten` | app.py:1047-1082 | The verdict is 'scam' exactly when the domain `extract_domain` yields is a known scam domain. It is 'warning' exactly when that domain is on neither list and has a suspicious ending. |
| `UrlScanner.ScanUrl` | app.py:1047-1082 | The same verdicts, for the host the corrected extraction yields. |
| `UrlScanner.ListedDomainsArePlainNames` | app.py:1036-1045 | Every listed domain is a lower-case name without '/', without a leading "www." and without trailing whitespace. |
| `UrlScanner.ListedDomainsClassified` | app.py:1059-1069 | Every known scam domain is reported as a scam and every legitimate domain as safe. |
| `UrlScanner.ScanOfNormalUrl` | app.py:1047-1056 | On a URL that is already normal, the scanner classifies the domain it extracts from the URL itself. |
| `UrlScanner.RedirectReplacesDomain` | app.py:1095 | On a link "scheme//host/query//target", `extract_domain` as written returns the target, not the host. |
| `UrlScanner.RedirectDomains` | app.py:1091-1099 | On a normal redirect link, the extraction as written yields the target and the corrected one yields the host. |
| `UrlScanner.RedirectLinkFoolsScanner` | app.py:1091-1099 | A link to a known scam host carrying a legitimate domain after a second '//' is reported 'safe' as written, and as a scam with the corrected extraction. |
| `UrlScanner.RedirectExample` | app.py:1091-1099 | The link "http://gtbank-verify.tk/?next=https://google.com" is reported safe as written and as a scam after the correction. |
| `UrlScanner.ExtractHostOfUrl` | app.py:1091-1099 | The corrected extraction returns the host, without "www.", of "scheme//host" followed by nothing or by a path. |
| `UrlScanner.RedirectKeepsHost` | app.py:1091-1099 | On a redirect link, the corrected extraction returns the host. |
| `UrlScanner.HostOfPlainUrl` | app.py:1091-1099 | The corrected extraction returns the plain domain of "http(s)://[www.]domain[/path]". |
| `UrlScanner.ScamHostIsAlwaysCaught` | app.py:1047-1063 | With the corrected extraction, every URL on a known scam host is reported as a scam, whatever its path. |
| `Accounts.ClearLapsed` | app.py:3162-3169 | Once the expiry day has passed, premium, its expiry and its plan are all cleared. Otherwise nothing changes. The premium fields stay consistent. |
| `Accounts.FreeCheck` | app.py:830-848 | A check is allowed exactly when premium still runs or fewer than five checks were counted today. Afterwards the counter is today's count and dated today. Premium survives only while it runs. |
| `Accounts.Recorded` | app.py:851-854 | Both counters grow by one, whatever the date of the record, and the record is dated today. No other field changes. A count from an earlier day is not restarted, so it carries into today. |
| `Accounts.Activated` | app.py:858-863 | Activation gives consistent premium on the plan until today plus the plan's duration, with no payment pending. |
| `Accounts.Admit` | app.py:2678-2685 | A check is admitted exactly when the user is flagged premium or fewer than five checks are counted today. An admitted check adds one to the lifetime count, dates the record today and keeps the premium flag. For a free user, today's count becomes one more than the count used today. For a user flagged premium, the stored count grows by one without the day restart. |
| `Accounts.Requests` | app.py:2678-2685 | Of n requests at most n are admitted. The lifetime count grows by exactly the number admitted, and the premium flag stays as it was. |
| `Accounts.User.CanMakeFreeCheck` | app.py:834-848 | The answer and the user's fields afterwards are those `FreeCheck` gives for the user as loaded. |
| `Accounts.CanMakeFreeCheck` | app.py:830-832 | A missing user is refused. Otherwise the result is that of the user's own check. |
| `Accounts.User.RecordCheck` | app.py:851-854 | One more check today and overall, dated today, with nothing else changed. |
| `Accounts.User.ActivatePremium` | app.py:858-863 | The plan runs until today plus its duration, and no payment is pending any more. |
| `Accounts.User.ExpirePremium` | app.py:3163-3168 | The user afterwards is `ClearLapsed` of the user before. |
| `Accounts.ActivationGrantsPlan` | app.py:858-863 | Activation runs from today through the last day of the plan and not a day longer. It clears the pending flag and leaves every other field alone. |
| `Accounts.ExpiryShowsOnlyRunningPremium` | app.py:839-844 | After the expiry step, a consistent record is premium exactly while its premium runs, and the step is idempotent. |
| `Accounts.FreeQuotaPerDay` | app.py:830-855 | Of n requests on one day by a free user, exactly min(n, what is left of today's five) are admitted. Both counters grow by that number, and the user stays free. |
| `Accounts.SixthCheckRefused` | app.py:2678-2685 | On a new day a free user's first five requests are admitted and the sixth is refused. |
| `Accounts.PremiumIsUnmetered` | app.py:2678-2685 | A user flagged premium has every request admitted and stays flagged, even after the expiry day. |
| `Accounts.CarriedCountRefuses` | app.py:2678-2685 | A lapsed premium user admitted today carries the earlier day's count into today. Once the statistics handler clears the premium the same day, a carried count of five or more refuses the next check, although only one check was made today. |
| `Accounts.Prune` | app.py:884-888 | A token is kept exactly when it is in the list, unexpired and unused. |
| `Accounts.HoldsRedeemable` | app.py:901-907 | A list holds a redeemable token exactly when an entry with that token survives pruning at that instant. |
| `Accounts.IssueToken` | app.py:884-890 | The new list holds exactly the old tokens that are unexpired and unused, followed by the new unused token, which expires an hour from now. |
| `Accounts.IssuedTokenRedeemable` | app.py:873-890 | After issuing, the new token is redeemable for the next hour, and every older token left is alive. |
| `Accounts.FirstMatch` | app.py:915-916 | The result is the first entry carrying the token, or nothing when no entry does. |
| `Accounts.MarkUsed` | app.py:915-919 | Only the first entry carrying the token can change, and it is marked used now. When some entry carries the token, an entry with it ends up used. |
| `Accounts.MarkedTokenSpent` | app.py:910-919 | After it is marked, a token that appeared once can never be redeemed again, and entries for other tokens are unchanged. |
| `Accounts.NewAccount` | app.py:759-776 | A new account is unverified and free, with no checks, no pending payment and no reset tokens, and it is dated today. |
| `Accounts.UserStore.FindByEmail` | app.py:804-809 | It finds a user with that address, or reports that none has it. |
| `Accounts.UserStore.CreateUser` | app.py:750-781 | It refuses exactly when the address is taken, and then the store is unchanged. Otherwise the new account is stored under "user_" and the stamp, and e-mail addresses stay unique. |
| `Accounts.UserStore.Save` | app.py:820-823 | The record replaces the stored one with the same id. |
| `Accounts.UserStore.CreatePasswordResetToken` | app.py:868-893 | An unknown address gets no token. Otherwise the dead tokens of that user are dropped and the new one is appended. |
| `Accounts.UserStore.ValidateResetToken` | app.py:896-907 | True exactly when the user with that address holds an equal, unused, unexpired token. |
| `Accounts.UserStore.UseResetToken` | app.py:910-921 | True exactly when the user holds an entry with the token. The first such entry is marked used, and with no entry nothing changes. |
| `Accounts.UserStore.UpdatePassword` | app.py:924-932 | For a known address, the password hash is replaced and the reset tokens are left empty. An unknown address is refused. |
| `Accounts.UserStore.FindEmailByResetToken` | app.py:3115-3127 | It returns the non-empty address of a user holding the token redeemable. It reports none exactly when no user with a non-empty address holds one, since an empty address does not end the search. |
| `Accounts.FindRedeemable` | app.py:901-907 | True exactly when some entry is equal, unused and unexpired. |
| `Auth.SessionStore.CreateSession` | app.py:693-710 | The new session is bound to the caller's address and expires thirty days later. |
| `Auth.SessionStore.ValidateSession` | app.py:712-734 | It returns the owner exactly when the token is known, not past its expiry and presented from the issuing address. The session map afterwards is `AfterValidation`. |
| `Auth.AfterValidation` | app.py:712-734 | An unknown token changes nothing. A session that is not honoured is deleted. Otherwise only its last-access time moves to now. |
| `Auth.SessionStore.LogoutSession` | app.py:736-742 | The session is deleted iff present, and the answer says whether it was present. |
| `Auth.ForeignAddressEndsSession` | app.py:723-726 | One use from a foreign address deletes the session, so the owner's next validation finds nothing. |
| `Auth.SessionLastsItsLifetime` | app.py:712-734 | Validations from the issuing address keep the expiry fixed and succeed exactly up to it. |
| `Auth.OtpStore.GenerateAndSendOtp` | app.py:940-955 | The new code replaces any earlier one for the address and lasts ten minutes. The answer is the mail outcome. |
| `Auth.OtpStore.VerifyOtp` | app.py:958-969 | True exactly when a record exists, has not expired and carries the code. Only then is it marked verified. |
| `Auth.OtpStore.IsVerified` | app.py:972-976 | True exactly when a record exists and is marked verified. |
| `Auth.OtpWindow` | app.py:944-964 | A fresh code is accepted strictly before ten minutes have passed, and a different code never is. |
| `Auth.OtpIsReusable` | app.py:958-969 | Acceptance does not consume a code: it is accepted again until it expires. |
| `Payments.NewPayment` | app.py:988-998 | A new payment is pending, at its plan's price, with no verification time. |
| `Payments.MarkPending` | app.py:1003-1008 | The owner has a payment pending. A given non-empty name fills in a missing name, and nothing else changes. |
| `Payments.Ledger.GetPayment` | app.py:1014-1016 | It returns the stored payment, or nothing when the id is unknown. |
| `Payments.Ledger.UpdatePayment` | app.py:1019-1024 | An unknown id is refused with nothing changed. Otherwise only the status and verification time of that payment change. |
| `Payments.CreatePayment` | app.py:984-1011 | The pending payment is stored under "pay_", the stamp and the suffix. The owner, if stored, is marked pending. |
| `Payments.InitiatePayment` | app.py:3193-3216 | Missing fields and unknown plan keys are refused with nothing changed. Otherwise exactly one payment is added to the ledger: the new pending payment for that plan at its price, under its id. A stored user is marked payment-pending, and the given name is filled in when theirs was empty. An unknown user id changes no user. |
| `Payments.VerifyPayment` | app.py:3269-3292 | An unknown payment is refused with nothing changed. Otherwise the payment is marked verified now, whatever its status, and a stored owner gets the plan from today. |
| `Payments.ReactivationRestartsFromToday` | app.py:858-863 | A second activation replaces the first: the days left are not added up. |
| `Handlers.CheckGate` | app.py:2659-2685 | A check passes exactly when the id is given and known, the user is verified and the quota step admits it. Only a passed check changes the store, and a limit refusal is only for a user not flagged premium. |
| `Handlers.AdmitCheck` | app.py:2659-2685 | The refusal and the store afterwards are those `CheckGate` gives. |
| `Handlers.GateFollowsQuota` | app.py:2678-2685 | For a known, verified user, n requests through the gate change that user's record as the quota step does and change no other record. |
| `Handlers.GateStep` | app.py:2678-2685 | One request by a verified user passes exactly when the quota step admits it. The record becomes the admitted one, and is left as it was when the request is refused. |
| `Handlers.RequestsKeepVerification` | app.py:2668-2685 | The quota step never changes the verification flag. |
| `Handlers.FiveChecksPerDay` | app.py:2677-2685 | A verified free user gets five checks recorded on a new day, and the sixth request is refused for the limit. |
| `Handlers.LapsedPremiumStaysUnlimited` | app.py:2678 | A verified user flagged premium is admitted every time, even after the expiry day. |
| `Handlers.CheckUssd` | app.py:2655-2736 | A refused request gets the refusal. Otherwise the store records the check and the reply is the verdict on the stripped code. |
| `Handlers.CheckSms` | app.py:2742-2823 | A refused request gets the refusal. Otherwise the reply is the assessment and score of the stripped, lower-cased message. |
| `Handlers.IsNigerianPhone` | app.py:2847 | A valid number has eleven characters and starts with "07", "08" or "09". |
| `Handlers.NigerianPhoneShape` | app.py:2847-2848 | A number is valid exactly when it has eleven digits, starting with '0' and then '7', '8' or '9'. Stripping leaves a valid number unchanged. |
| `Handlers.RegistrationRefusal` | app.py:2841-2848 | The fields pass exactly when the e-mail is given, the password has at least six characters and the phone number is valid. Missing fields are reported first. |
| `Handlers.RegisterUser` | app.py:2833-2876 | A bad field or a taken address changes nothing. Otherwise the account and a ten-minute code are stored, and the reply depends on the mail outcome and the mail settings. The account exists even when the mail fails. |
| `Handlers.Enrol` | app.py:2851-2876 | A taken address changes nothing. Otherwise the new account and a ten-minute code for the address are stored, and the reply is chosen by the mail outcome and the mail settings. |
| `Handlers.ResetPassword` | app.py:3099-3142 | A missing field gives 'all fields required'. Then differing passwords give 'do not match', and a password under six characters 'too short'. A well-formed request succeeds exactly when some user with a non-empty address holds the token redeemable now. Success replaces that user's hash and discards all of the user's reset tokens; every other answer leaves the store unchanged. The 'failed to reset' answer is never given, because the address just found is always in the store. |
| `Handlers.UserStats` | app.py:3152-3183 | An unknown or missing id gets nothing. Otherwise premium that has run out is cleared and saved, and the record is returned. |
| `EnhancedStore.DefaultState` | app_enhanced.py:37-46 | The default record of an unknown id is free, with no expiry, no plan, no checks, no check date and no pending payment. |
| `EnhancedStore.Expired` | app_enhanced.py:134-136 | After the expiry day, premium and its plan are cleared but the expiry date is kept. Otherwise nothing changes. |
| `EnhancedStore.FreeCheck` | app_enhanced.py:53-58 | The answer is "fewer than five checks today, or premium". Afterwards the profile holds today's count and is dated today, and nothing else changes. |
| `EnhancedStore.Recorded` | app_enhanced.py:61-64 | Both counters grow by one, whatever the date of the profile, and the profile is dated today. No other field changes. |
| `EnhancedStore.Activated` | app_enhanced.py:68-72 | Premium on the plan until today plus the given days, with no payment pending and the counters kept. |
| `EnhancedStore.Gate` | app_enhanced.py:134-145 | A check is admitted exactly when premium has not passed its expiry day or fewer than five checks are counted today. The lifetime count grows by one only when it is admitted. The expiry date is kept and the profile is dated today. |
| `EnhancedStore.Requests` | app_enhanced.py:134-145 | Of n requests at most n are admitted, the lifetime count grows by exactly the number admitted, and the expiry date is kept. |
| `EnhancedStore.LapsedPremiumIsMetered` | app_enhanced.py:134-145 | A free profile, or premium past its expiry day, is metered: of n requests on a day exactly min(n, what is left) are admitted and the profile ends up free. |
| `EnhancedStore.MeteredStep` | app_enhanced.py:134-145 | For a free profile, or premium past its expiry day, one request is admitted exactly while fewer than five checks are counted today. The profile ends up free and dated today, with the count up by one only when the request is admitted. |
| `EnhancedStore.SixthCheckRefused` | app_enhanced.py:53-65 | On a new day a free profile gets five checks, and the sixth request is refused. |
| `EnhancedStore.RunningPremiumIsUnmetered` | app_enhanced.py:138-145 | Premium that still runs has every request admitted and keeps its expiry. |
| `EnhancedStore.ActivationLasts` | app_enhanced.py:68-73 | After activation every check through the last day of the plan is admitted as premium, and the day after the expiry test clears premium. |
| `EnhancedStore.Profile.CanMakeFreeCheck` | app_enhanced.py:53-58 | The answer and the profile afterwards are those `FreeCheck` gives: a new day restarts the counter, and the answer is "fewer than five, or premium". |
| `EnhancedStore.Profile.CountCheck` | app_enhanced.py:61-64 | One more check today and overall, dated today. |
| `EnhancedStore.Profile.GrantPremium` | app_enhanced.py:68-72 | The plan runs until today plus the given number of days, and no payment is pending. |
| `EnhancedStore.Profile.ExpireIfLapsed` | app_enhanced.py:134-136 | The profile afterwards is `Expired` of the profile before. |
| `EnhancedStore.Profile.Screen` | app_enhanced.py:134-145 | The answer is that of `Gate`. When the check is admitted, recording it on the profile gives `Gate`'s profile; when it is refused, the profile already is `Gate`'s. |
| `EnhancedStore.NewPayment` | app_enhanced.py:78-89 | A new payment is filed under "pay_", the stamp and the user id. It is pending at its plan's price, with no verification time. |
| `EnhancedStore.WithStatus` | app_enhanced.py:101-102 | The status is set, and a verification time is kept exactly when the status is 'verified'. Nothing else changes. |
| `EnhancedStore.Service.GetUser` | app_enhanced.py:36-46 | A stored id gives the stored profile object itself. An unknown id gives a fresh default profile that is not stored. |
| `EnhancedStore.Service.SaveUser` | app_enhanced.py:49-50 | The profile is stored under its id, and every other stored profile is unchanged. |
| `EnhancedStore.Service.RecordCheck` | app_enhanced.py:61-65 | The check is counted and the profile saved. No other profile changes. |
| `EnhancedStore.Service.ActivatePremium` | app_enhanced.py:68-73 | The plan is granted and the profile saved. No other profile changes. |
| `EnhancedStore.Service.AdmitCheck` | app_enhanced.py:131-145 | The answer and the profile afterwards are those `Gate` gives for the profile `get_user` returns. A stored profile keeps the expiry and the day rollover even when refused. A default profile is always admitted and then stored. |
| `EnhancedStore.Service.CreatePayment` | app_enhanced.py:77-91 | The new pending payment is stored under its id, and the users are untouched. |
| `EnhancedStore.Service.UpdatePaymentStatus` | app_enhanced.py:98-104 | An unknown id is refused with nothing changed. Otherwise only that payment's status and verification time change. |
| `EnhancedStore.Service.SetPaymentPending` | app_enhanced.py:256-258 | The pending flag is set on the stored or default profile, which is then stored. No other profile changes. |
| `EnhancedStore.Service.ActivateOwner` | app_enhanced.py:316-318 | The stored or default profile of the owner gets the plan and is stored. |
| `EnhancedStore.Service.InitiatePayment` | app_enhanced.py:246-258 | Missing fields and unknown plan keys are refused with nothing changed. Otherwise the pending payment is stored and the user, stored or default, is marked pending and stored. |
| `EnhancedStore.Service.AdminVerifyPayment` | app_enhanced.py:309-331 | An unknown payment and an unknown action change nothing. 'approve' marks the payment verified and activates the owner for the plan's duration. 'reject' marks it rejected and clears the owner's pending flag. |
| `EnhancedStore.Service.Approve` | app_enhanced.py:313-323 | The payment is marked verified now, and its owner (stored or default) gets the plan's premium from today. |
| `EnhancedStore.Service.Reject` | app_enhanced.py:324-329 | The payment is marked rejected, and its owner's pending flag is cleared. |
| `EnhancedChecks.IndicatorsStartWithLetters` | app_enhanced.py:149 | Every keyword starts with a lower-case letter. |
| `EnhancedChecks.ClassifyUssd` | app_enhanced.py:152-167 | A code is 'scam' exactly when it is off the allow-list and contains a keyword. It is 'safe' only when it is allow-listed or of the standard `*ddd#` shape. |
| `EnhancedChecks.SymbolsHaveNoIndicator` | app_enhanced.py:151-157 | No keyword occurs in a code made of '*', '#' and digits. |
| `EnhancedChecks.IndicatorMeansScam` | app_enhanced.py:153-159 | A code containing a keyword in any letter case is not allow-listed and is reported as a scam. |
| `EnhancedChecks.AllowListInBothCopies` | app_enhanced.py:148 | Every allow-listed code is also on the allow-list of `app.py`, and both copies report it safe. |
| `EnhancedChecks.StandardCodesAreSafe` | app_enhanced.py:161-163 | Every code of the form `*ddd#` is reported safe, and `app.py` reports it safe as well. |
| `EnhancedChecks.WarningIsTheRest` | app_enhanced.py:153-167 | A warning is given exactly for a code that is not allow-listed, not of the standard shape and free of keywords. |
| `EnhancedChecks.SmsKind` | app_enhanced.py:221-229 | A score of 15 or more is 'scam', 10 to 14 is 'warning', and less than 10 is 'safe'. |
| `EnhancedChecks.HasLocalNumber` | app_enhanced.py:217 | A local number needs at least ten characters, starting at an "08". |
| `EnhancedChecks.FiredRegexes` | app_enhanced.py:212-215 | The alternations of the rules that fired, in table order. The list is empty exactly when no rule fired. |
| `EnhancedChecks.SmsScore` | app_enhanced.py:203-219 | The score is zero exactly when no rule fired and there is no local number. A local number alone adds 5. |
| `EnhancedChecks.SmsReasons` | app_enhanced.py:212-219 | The reasons are empty exactly when the score is zero. |
| `EnhancedChecks.AnalyseSms` | app_enhanced.py:199-229 | The score is the sum of the points of the rules matching the lower-cased message, plus 5 for a local number. The reasons are the matching alternations in table order, then 'nigerian_phone'. The kind is the threshold chain on the score. |
| `EnhancedChecks.ScoreBound` | app_enhanced.py:203-218 | The table is worth 37 points, so no score exceeds 42. |
| `EnhancedChecks.ReasonsNameFiredRules` | app_enhanced.py:212-215 | In a table of distinct alternations, an alternation is among the reasons exactly when its rule fired. |
| `EnhancedChecks.RegexesComeFromTable` | app_enhanced.py:212-215 | Every reason is the alternation of a rule that fired. |
| `EnhancedChecks.ReasonsExplainScore` | app_enhanced.py:212-219 | A rule's alternation is a reason exactly when the rule matched, and 'nigerian_phone' is a reason exactly when a local number occurs. |
| `EnhancedChecks.NoWordIsSafe` | app_enhanced.py:212-229 | A message containing no word of the table is 'safe', with or without a local number. |
| `EnhancedChecks.OneRuleIsNoScam` | app_enhanced.py:203-229 | Without a local number, a message matching one rule only is never a scam. It is a warning exactly when that rule is the prize rule. |
| `EnhancedChecks.PrizeAndNumberIsScam` | app_enhanced.py:204-223 | "won" together with a local number is always a scam. |
| `EnhancedHandlers.CheckUssd` | app_enhanced.py:125-175 | The profile afterwards is what `Gate` gives for the profile `get_user` returns. The free limit is answered exactly when the gate refuses. Otherwise the kind is `ClassifyUssd` of the stripped code, and the premium scam analysis is shown exactly for a scam reported to a profile that is premium after the gate. |
| `EnhancedHandlers.CheckSms` | app_enhanced.py:177-237 | The profile afterwards is what `Gate` gives. The free limit is answered exactly when the gate refuses. Otherwise the score, reasons and kind are those of the stripped message, and the premium score line is shown exactly to a profile that is premium after the gate. |
| `IsoDates.DigitsOrder` | app_enhanced.py:71 | Zero-padded digit strings of one width compare as strings exactly as their numbers do. |
| `IsoDates.DigitsInjective` | app_enhanced.py:71 | Different numbers of one width have different digit strings. |
| `IsoDates.LessConcat` | app_enhanced.py:134 | Python's string comparison of two concatenations whose first parts have equal length compares the first parts, then the second. |
| `IsoDates.IsoDateOrder` | app_enhanced.py:134 | For 'YYYY-MM-DD' strings, the comparison `today > premium_until` is exactly the order of the dates, which is why the model compares day numbers. |

## Left out

- Storage: the `Database` class is not part of this model. It covers MongoDB, the SQLite fallback, the dict fallback and the date conversions on load and save. The stores are maps.
- Failed saves: every save is assumed to succeed. So the "Failed to save user" and "Failed to create payment" answers are not modelled, and neither is the branch where `create_payment` returns nothing.
- Exception handlers in the endpoints are not modelled.
- The mail senders (`EmailService`, SMTP) are not part of this model. A send is the boolean parameter `mailSent`, and the presence of mail settings is the parameter `mailConfigured`.
- Randomness and hashing are parameters:
  - passwords are `passwordHash`;
  - session tokens, reset tokens and OTP codes are `token` / `otpCode`;
  - the payment id suffix is `suffix`;
  - the id stamps are `stamp`.
- Flask routing, JSON parsing, `home()` and its HTML are not modelled, and neither are the message texts or the premium-feature texts of replies.
- An absent request field is modelled the same way as an empty one, as "" (`app_enhanced.py` defaults `user_id` to 'default'; that value is then just an id).
- `SmsCheck.AnalyseSms`: the regular expressions of `app.py` are not interpreted. Whether a pattern matches is the parameter `search`, so the contract holds for any regex engine.
- The `app_enhanced.py` patterns are modelled as substring tests on ASCII text:
  - each SMS pattern is a plain alternation of words;
  - `08[0-9]{8,}` is a fixed shape;
  - `^\*\d{3}#$` is a fixed shape.
- `lower()` and `[0-9]`/`\d` are modelled on ASCII only. Non-ASCII capitals and digits are not modelled.
- `EnhancedChecks.AnalyseSms`: Unicode case folding is not modelled. `re.IGNORECASE` also matches 'ı' (U+0131) for 'i' and 'ſ' (U+017F) for 's'. `lower()` keeps both, so "prıze" and "paſsword" fire rules in the source but not in the model.
- `Accounts.UserStore.FindEmailByResetToken`: it picks some user with a non-empty address that holds the token, where the source takes the first such user in insertion order. The two agree when tokens are unique.
- `Accounts.UserStore.FindByEmail`: the same simplification. E-mail addresses are unique in the store (`Valid`), so the result is the same.
- `last_login` and `last_active` are not modelled. No rule reads them.
- `get_user` in `app.py` writes `last_active` on every lookup. That write is left out.
- Endpoints and methods outside the rule layer are not modelled:
  - login (`authenticate_user`), `api_verify_otp`, `verify_user_email`;
  - send-verification-otp, resend-otp, forgot-password;
  - validate-session and logout as endpoints (the manager methods are modelled);
  - check-payment-status, the admin user and payment listings, admin activate-premium;
  - debug, health and test endpoints, and `app_enhanced.py`'s user-stats.
- `app_enhanced.py` keeps the bank details on each payment (`bank_details`). The model leaves them out, and the payment instruction text too.
- `app_enhanced.py` dates: `premium_until` is a 'YYYY-MM-DD' string. The model uses a day number, and `IsoDates.IsoDateOrder` shows the string comparison is the date order. The calendar arithmetic of `timedelta` is taken to be adding days.
- Time is a parameter: `today` is the day and `now` the instant of "now".
- The other repository files are not modelled: test scripts, `business_config.py`, `admin_tools.py` and `vercel_simple.py`.

## Findings

| source | as written | input that shows it | evidently intended | confidence | as-written member | corrected member |
|---|---|---|---|---|---|---|
| app.py:1091-1099 | `extract_domain` keeps what follows the LAST '//' in the URL (`split('//')[-1]`), so a second '//' anywhere in the path or query replaces the host. | "http://gtbank-verify.tk/?next=https://google.com" is reported 'safe' (legitimate site), although its host is a known scam domain. | The host after the scheme's '//' is the domain, so every URL on a known scam host is reported as a scam. | not executed | `UrlScanner.RedirectLinkFoolsScanner` | `UrlScanner.ScamHostIsAlwaysCaught` |
