/** The USSD and SMS checks of app_enhanced.py, after the quota gate. The
    USSD check is a chain of tests: a short allow-list, a keyword list, the
    standard `*ddd#` shape, and a warning for everything else. The SMS check
    adds the points of a table of keyword alternations found in the
    lower-cased message and five points for a local mobile number. Every
    regular expression of this copy is either a plain alternation of
    literal words or one fixed shape, so the model spells out what each one
    matches. */
module EnhancedChecks {
  import opened Text
  import opened Scoring
  import UssdCheck

  /** The allow-list, compared with the stripped code as typed. */
  const SafeCodes: seq<string> := ["*901#", "*894#", "*737#", "*919#", "*822#", "*533#", "*322#", "*326#"]

  /** The scam keywords, looked for in the lower-cased code. */
  const Indicators: seq<string> := ["password", "pin", "bvn", "winner", "won", "prize", "lottery", "claim"]

  /** Some keyword occurs in the lower-cased code. */
  predicate HasIndicator(codeLower: string)
  {
    exists k :: 0 <= k < |Indicators| && Contains(codeLower, Indicators[k])
  }

  /** `re.match(r'^\*\d{3}#$', code)` on a stripped code: a star, three
      digits and a hash (a stripped code cannot end in the newline `$` also
      accepts). */
  predicate StandardFormat(code: string)
  {
    |code| == 5 && code[0] == '*' && IsDigit(code[1]) && IsDigit(code[2]) && IsDigit(code[3]) && code[4] == '#'
  }

  /** The `type` the USSD check reports for a stripped code: 'scam' exactly
      for a keyword in a code off the allow-list, and 'safe' only for an
      allow-listed code or one of the standard shape. */
  function ClassifyUssd(code: string): (k: Kind)
    ensures k == Scam <==> code !in SafeCodes && HasIndicator(ToLower(code))
    ensures k == Safe ==> code in SafeCodes || StandardFormat(code)
  {
    if code in SafeCodes then Safe
    else if HasIndicator(ToLower(code)) then Scam
    else if StandardFormat(code) then Safe
    else Warning
  }

  lemma IndicatorsStartWithLetters(k: int)
    requires 0 <= k < |Indicators|
    ensures |Indicators[k]| > 0 && 'a' <= Indicators[k][0] <= 'z'
  {
  }

  /** A code made of '*', '#' and digits contains no keyword. */
  lemma {:induction false} SymbolsHaveNoIndicator(code: string)
    requires forall i :: 0 <= i < |code| ==> UssdCheck.IsUssdSymbol(code[i])
    ensures !HasIndicator(ToLower(code))
  {
    forall k | 0 <= k < |Indicators| ensures !Contains(ToLower(code), Indicators[k]) {
      IndicatorsStartWithLetters(k);
      UssdCheck.NoKeywordAmongSymbols(code, Indicators[k]);
    }
  }

  /** A code containing a keyword, in any letter case, is reported as a
      scam: no allow-listed code contains one, so the allow-list never
      hides it. */
  lemma {:induction false} IndicatorMeansScam(code: string, k: int)
    requires 0 <= k < |Indicators| && Contains(ToLower(code), Indicators[k])
    ensures code !in SafeCodes && ClassifyUssd(code) == Scam
  {
    if code in SafeCodes {
      AllowListInBothCopies(code);
      UssdCheck.SafeCodesAreSymbols(code);
      SymbolsHaveNoIndicator(code);
    }
  }

  /** Every code of the allow-list is on the longer allow-list of app.py,
      and both copies report it safe. */
  lemma AllowListInBothCopies(code: string)
    requires code in SafeCodes
    ensures code in UssdCheck.SafeBankCodes
    ensures ClassifyUssd(code) == Safe && UssdCheck.Verdict(code) == UssdCheck.VerifiedBankCode
  {
  }

  /** Any code of the standard shape is reported safe, and app.py reports
      it safe too (no keyword, so no points). */
  lemma {:induction false} StandardCodesAreSafe(code: string)
    requires StandardFormat(code)
    ensures ClassifyUssd(code) == Safe
    ensures UssdCheck.KindOf(UssdCheck.Verdict(code)) == Safe
  {
    assert forall i :: 0 <= i < |code| ==> UssdCheck.IsUssdSymbol(code[i]);
    SymbolsHaveNoIndicator(code);
    forall k | 0 <= k < |UssdCheck.ScamIndicators| ensures !UssdCheck.Fired(ToLower(code))[k] {
      UssdCheck.KeywordsStartWithLetters(k);
      UssdCheck.NoKeywordAmongSymbols(code, UssdCheck.ScamIndicators[k].rule);
    }
    UssdCheck.SafeIffNoKeyword(code);
  }

  /** The USSD check reports a warning exactly for a code that is neither
      allow-listed, nor of the standard shape, nor contains a keyword. */
  lemma WarningIsTheRest(code: string)
    ensures ClassifyUssd(code) == Warning <==>
            code !in SafeCodes && !StandardFormat(code) && !HasIndicator(ToLower(code))
  {
    if StandardFormat(code) {
      StandardCodesAreSafe(code);
    }
  }

  /** An alternation of the SMS table as written, and the words it is the
      alternation of. */
  datatype Alternation = Alternation(regex: string, words: seq<string>)

  /** A rule of the SMS table: an alternation and its points. */
  type Rule = Weighted<Alternation>

  /** The table, in the order the loop visits it. `www\.` is the literal
      "www.". */
  const Rules: seq<Rule> := [
    Weighted(Alternation("won|prize|lottery|congratulations", ["won", "prize", "lottery", "congratulations"]), 10),
    Weighted(Alternation("bvn|password|pin|verification", ["bvn", "password", "pin", "verification"]), 8),
    Weighted(Alternation("urgent|immediately|now|today", ["urgent", "immediately", "now", "today"]), 5),
    Weighted(Alternation("call |text |whatsapp", ["call ", "text ", "whatsapp"]), 4),
    Weighted(Alternation("http|://|www\\.", ["http", "://", "www."]), 6),
    Weighted(Alternation("account|bank|security", ["account", "bank", "security"]), 4)
  ]

  /** Points added for a local mobile number. */
  const NumberPoints: nat := 5

  /** The reason recorded for a local mobile number. */
  const NumberReason: string := "nigerian_phone"

  /** `re.search(alternation, text, re.IGNORECASE)` on lower-cased text with
      lower-case words: some word occurs. */
  predicate Matches(text: string, words: seq<string>)
  {
    exists j :: 0 <= j < |words| && Contains(text, words[j])
  }

  /** `re.search(r'08[0-9]{8,}', sms)`: "08" followed by at least eight
      digits somewhere in the message (eight suffice for a match). */
  predicate HasLocalNumber(sms: string)
    ensures HasLocalNumber(sms) ==> |sms| >= 10 && Contains(sms, "08")
  {
    exists i :: 0 <= i <= |sms| - 10 && OccursAt(sms, "08", i) && AllDigits(sms[i + 2..i + 10])
  }

  predicate AllDigits(s: string)
  {
    forall j :: 0 <= j < |s| ==> IsDigit(s[j])
  }

  /** Which rules match the lower-cased message. */
  function Fired(smsLower: string): (f: seq<bool>)
    ensures |f| == |Rules|
  {
    seq(|Rules|, k requires 0 <= k < |Rules| => Matches(smsLower, Rules[k].rule.words))
  }

  /** The alternations of the rules that fired, in table order. */
  function FiredRegexes(table: seq<Rule>, fired: seq<bool>): (r: seq<string>)
    requires |fired| == |table|
    ensures |r| <= |table|
    ensures r == [] <==> forall i :: 0 <= i < |table| ==> !fired[i]
  {
    if table == [] then []
    else
      var n := |table| - 1;
      FiredRegexes(table[..n], fired[..n]) + (if fired[n] then [table[n].rule.regex] else [])
  }

  /** The score of a stripped message: zero exactly when no rule fired and
      there is no local number. */
  function SmsScore(sms: string): (score: nat)
    ensures score == 0 <==> !HasLocalNumber(sms) && forall k :: 0 <= k < |Rules| ==> !Fired(ToLower(sms))[k]
    ensures HasLocalNumber(sms) ==> score >= NumberPoints
  {
    TallyZero(Points(Rules), Fired(ToLower(sms)));
    Tally(Points(Rules), Fired(ToLower(sms))) + (if HasLocalNumber(sms) then NumberPoints else 0)
  }

  /** The reasons of a stripped message: none exactly when the score is
      zero. */
  function SmsReasons(sms: string): (reasons: seq<string>)
    ensures reasons == [] <==> SmsScore(sms) == 0
  {
    FiredRegexes(Rules, Fired(ToLower(sms))) + (if HasLocalNumber(sms) then [NumberReason] else [])
  }

  /** The threshold chain: 'scam' from 15 points, 'warning' from 10. */
  function SmsKind(score: int): (k: Kind)
    ensures k == Scam <==> score >= 15
    ensures k == Warning <==> 10 <= score < 15
    ensures k == Safe <==> score < 10
  {
    if score >= 15 then Scam else if score >= 10 then Warning else Safe
  }

  /** The analysis block of the SMS handler on the stripped message: the
      loop over the table adding points and reasons, the number test, and
      the threshold chain. */
  method AnalyseSms(sms: string) returns (kind: Kind, score: nat, reasons: seq<string>)
    ensures score == SmsScore(sms) && reasons == SmsReasons(sms)
    ensures kind == SmsKind(score)
  {
    var smsLower := ToLower(sms);
    score, reasons := 0, [];
    var i := 0;
    while i < |Rules|
      invariant 0 <= i <= |Rules|
      invariant score == Tally(Points(Rules)[..i], Fired(smsLower)[..i])
      invariant reasons == FiredRegexes(Rules[..i], Fired(smsLower)[..i])
    {
      var entry := Rules[i];
      assert Points(Rules)[..i + 1][..i] == Points(Rules)[..i];
      assert Fired(smsLower)[..i + 1][..i] == Fired(smsLower)[..i];
      assert Rules[..i + 1][..i] == Rules[..i];
      if Matches(smsLower, entry.rule.words) {
        score := score + entry.points;
        reasons := reasons + [entry.rule.regex];
      }
      i := i + 1;
    }
    assert Points(Rules)[..i] == Points(Rules);
    assert Fired(smsLower)[..i] == Fired(smsLower);
    assert Rules[..i] == Rules;
    if HasLocalNumber(sms) {
      score := score + NumberPoints;
      reasons := reasons + [NumberReason];
    }
    kind := SmsKind(score);
  }

  /** The table is worth 37 points, so no score exceeds 42. */
  lemma {:induction false} ScoreBound(sms: string)
    ensures Sum(Points(Rules)) == 37
    ensures SmsScore(sms) <= 42
  {
    var p := Points(Rules);
    assert p == [10, 8, 5, 4, 6, 4];
    forall i | 0 <= i < |p| ensures Sum(p[..i + 1]) == Sum(p[..i]) + p[i] {
      SumPrefixStep(p, i);
    }
    assert Sum(p[..0]) == 0;
    assert Sum(p[..1]) == 10;
    assert Sum(p[..2]) == 18;
    assert Sum(p[..3]) == 23;
    assert Sum(p[..4]) == 27;
    assert Sum(p[..5]) == 33;
    assert p[..6] == p;
  }

  /** A rule's alternation is listed among the reasons exactly when the rule
      fired, in a table whose alternations are distinct. */
  lemma {:induction false} ReasonsNameFiredRules(table: seq<Rule>, fired: seq<bool>, k: int)
    requires |fired| == |table| && 0 <= k < |table|
    requires forall i, j :: 0 <= i < j < |table| ==> table[i].rule.regex != table[j].rule.regex
    ensures table[k].rule.regex in FiredRegexes(table, fired) <==> fired[k]
  {
    var n := |table| - 1;
    if k < n {
      ReasonsNameFiredRules(table[..n], fired[..n], k);
    } else if table[k].rule.regex in FiredRegexes(table[..n], fired[..n]) {
      RegexesComeFromTable(table[..n], fired[..n], table[k].rule.regex);
    }
  }

  /** Every reason is the alternation of some rule of the table. */
  lemma {:induction false} RegexesComeFromTable(table: seq<Rule>, fired: seq<bool>, r: string)
    requires |fired| == |table| && r in FiredRegexes(table, fired)
    ensures exists i :: 0 <= i < |table| && fired[i] && table[i].rule.regex == r
  {
    var n := |table| - 1;
    if r in FiredRegexes(table[..n], fired[..n]) {
      RegexesComeFromTable(table[..n], fired[..n], r);
      var i :| 0 <= i < n && fired[..n][i] && table[..n][i].rule.regex == r;
      assert fired[i] && table[i].rule.regex == r;
    } else {
      assert fired[n] && table[n].rule.regex == r;
    }
  }

  /** The reasons name exactly the rules that matched the message. */
  lemma {:induction false} ReasonsExplainScore(sms: string, k: int)
    requires 0 <= k < |Rules|
    ensures Rules[k].rule.regex in SmsReasons(sms) <==> Fired(ToLower(sms))[k]
    ensures NumberReason in SmsReasons(sms) <==> HasLocalNumber(sms)
  {
    ReasonsNameFiredRules(Rules, Fired(ToLower(sms)), k);
    forall i | 0 <= i < |Rules| ensures Rules[i].rule.regex != NumberReason {
      assert Rules[i].rule.regex[0] != NumberReason[0];
    }
    if NumberReason in FiredRegexes(Rules, Fired(ToLower(sms))) {
      RegexesComeFromTable(Rules, Fired(ToLower(sms)), NumberReason);
    }
  }

  /** A message in which no word of the table occurs is reported safe, with
      or without a local number. */
  lemma {:induction false} NoWordIsSafe(sms: string)
    requires forall k :: 0 <= k < |Rules| ==> !Fired(ToLower(sms))[k]
    ensures SmsScore(sms) <= NumberPoints && SmsKind(SmsScore(sms)) == Safe
  {
    TallyZero(Points(Rules), Fired(ToLower(sms)));
  }

  /** Without a local number, a message matching a single rule is never a
      scam, and it is a warning exactly when that rule is the prize rule. */
  lemma {:induction false} OneRuleIsNoScam(sms: string, k: int)
    requires 0 <= k < |Rules| && Fired(ToLower(sms))[k] && !HasLocalNumber(sms)
    requires forall j :: 0 <= j < |Rules| && j != k ==> !Fired(ToLower(sms))[j]
    ensures SmsScore(sms) == Rules[k].points
    ensures SmsKind(SmsScore(sms)) != Scam
    ensures SmsKind(SmsScore(sms)) == Warning <==> k == 0
  {
    OnlyRuleFired(Points(Rules), Fired(ToLower(sms)), k);
  }

  /** A prize word together with a local number makes a scam: 10 + 5. */
  lemma {:induction false} PrizeAndNumberIsScam(sms: string)
    requires Contains(ToLower(sms), "won") && HasLocalNumber(sms)
    ensures SmsKind(SmsScore(sms)) == Scam
  {
    assert Rules[0].rule.words[0] == "won";
    assert Fired(ToLower(sms))[0];
    FiredRuleCounts(Points(Rules), Fired(ToLower(sms)), 0);
  }
}
