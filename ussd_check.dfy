/** The USSD code check of app.py (`api_check_ussd`, after the quota gate):
    an exact-match allow-list of bank codes, then an additive score over a
    table of scam keywords found in the lower-cased code, then a verdict
    threshold on that score. */
module UssdCheck {
  import opened Text
  import opened Scoring

  /** The allow-list of bank USSD codes, compared with the stripped code as
      typed (case-sensitive, exact). */
  const SafeBankCodes: seq<string> := [
    "*901#", "*894#", "*737#", "*919#", "*822#", "*533#",
    "*322#", "*326#", "*779#", "*989#", "*123#", "*500#",
    "*955#", "*833#", "*706#", "*909#", "*966#", "*482#"
  ]

  /** A scam keyword and the points it adds when it is a substring of the
      lower-cased code. */
  type Indicator = Weighted<string>

  /** The keyword table, in the order the scoring loop visits it. */
  const ScamIndicators: seq<Indicator> := [
    Weighted("password", 10), Weighted("pin", 10), Weighted("bvn", 15),
    Weighted("winner", 12), Weighted("won", 12), Weighted("prize", 12),
    Weighted("lottery", 12), Weighted("claim", 10), Weighted("verification", 8)
  ]

  /** Which keywords of a table occur in a text. */
  function Matching(table: seq<Indicator>, text: string): (f: seq<bool>)
    ensures |f| == |table|
    ensures forall k :: 0 <= k < |table| ==> f[k] == Contains(text, table[k].rule)
  {
    seq(|table|, k requires 0 <= k < |table| => Contains(text, table[k].rule))
  }

  /** Which keywords occur in the lower-cased code. */
  function Fired(codeLower: string): (f: seq<bool>)
    ensures |f| == |ScamIndicators|
  {
    Matching(ScamIndicators, codeLower)
  }

  /** `risk_score`: the points of every keyword found, each counted once.
      Every keyword found adds at least its own points, and the score is
      zero exactly when no keyword is found. */
  function RiskScore(codeLower: string): (score: nat)
    ensures forall k :: 0 <= k < |ScamIndicators| && Fired(codeLower)[k] ==> score >= ScamIndicators[k].points
    ensures score == 0 <==> forall k :: 0 <= k < |ScamIndicators| ==> !Fired(codeLower)[k]
  {
    var f := Fired(codeLower);
    forall k | 0 <= k < |ScamIndicators| && f[k] ensures Tally(Points(ScamIndicators), f) >= ScamIndicators[k].points {
      FiredRuleCounts(Points(ScamIndicators), f, k);
    }
    TallyZero(Points(ScamIndicators), f);
    assert forall k :: 0 <= k < |ScamIndicators| ==> Points(ScamIndicators)[k] > 0;
    Tally(Points(ScamIndicators), f)
  }

  /** One value per message the check can answer with. */
  datatype Assessment =
    | VerifiedBankCode  // on the allow-list
    | ExtremeRisk       // score >= 20
    | HighRisk          // score >= 15
    | Suspicious        // score >= 10
    | Caution           // score >= 5
    | LikelySafe        // below 5

  /** The `type` field reported with each message. */
  function KindOf(a: Assessment): Kind
  {
    match a
    case VerifiedBankCode => Safe
    case ExtremeRisk => Scam
    case HighRisk => Scam
    case Suspicious => Warning
    case Caution => Warning
    case LikelySafe => Safe
  }

  /** Rank of an assessment from harmless (0) to extreme (4). */
  function Severity(a: Assessment): nat
  {
    match a
    case VerifiedBankCode => 0
    case LikelySafe => 0
    case Caution => 1
    case Suspicious => 2
    case HighRisk => 3
    case ExtremeRisk => 4
  }

  /** The threshold chain on the score. The kind it reports is 'scam' from 15
      points, 'warning' from 5 to 14 and 'safe' below 5. */
  function Assess(score: int): (a: Assessment)
    ensures a != VerifiedBankCode
    ensures KindOf(a) == Scam <==> score >= 15
    ensures KindOf(a) == Warning <==> 5 <= score < 15
    ensures KindOf(a) == Safe <==> score < 5
  {
    if score >= 20 then ExtremeRisk
    else if score >= 15 then HighRisk
    else if score >= 10 then Suspicious
    else if score >= 5 then Caution
    else LikelySafe
  }

  /** A higher score never gives a milder assessment. */
  lemma AssessMonotone(low: int, high: int)
    requires low <= high
    ensures Severity(Assess(low)) <= Severity(Assess(high))
  {
  }

  /** The verdict on a stripped code: the allow-list first, the score
      otherwise. An allow-listed code is a verified bank code; any other
      code is a scam from 15 points and a warning from 5. */
  function Verdict(code: string): (a: Assessment)
    ensures a == VerifiedBankCode <==> code in SafeBankCodes
    ensures KindOf(a) == Scam <==> code !in SafeBankCodes && RiskScore(ToLower(code)) >= 15
    ensures KindOf(a) == Warning <==> code !in SafeBankCodes && 5 <= RiskScore(ToLower(code)) < 15
  {
    if code in SafeBankCodes then VerifiedBankCode else Assess(RiskScore(ToLower(code)))
  }

  /** The analysis block of the handler, as the handler runs it: the
      allow-list test, then the loop over the keyword table accumulating
      `risk_score`, then the threshold chain. `code` is the request's code
      after `strip()`. */
  method AnalyseCode(code: string) returns (assessment: Assessment, riskScore: nat)
    ensures assessment == Verdict(code)
    ensures riskScore == if code in SafeBankCodes then 0 else RiskScore(ToLower(code))
  {
    riskScore := 0;
    var codeLower := ToLower(code);
    if code in SafeBankCodes {
      assessment := VerifiedBankCode;
      return;
    }
    riskScore := Score(ScamIndicators, codeLower);
    assessment := Assess(riskScore);
  }

  /** The scoring loop: every keyword of the table is looked for in turn
      and the points of those found are added up, each once. */
  method Score(table: seq<Indicator>, text: string) returns (score: nat)
    ensures score == Tally(Points(table), Matching(table, text))
  {
    score := 0;
    var i := 0;
    while i < |table|
      invariant 0 <= i <= |table|
      invariant score == Tally(Points(table)[..i], Matching(table, text)[..i])
    {
      assert Points(table)[..i + 1][..i] == Points(table)[..i];
      assert Matching(table, text)[..i + 1][..i] == Matching(table, text)[..i];
      if Contains(text, table[i].rule) {
        score := score + table[i].points;
      }
      i := i + 1;
    }
    assert Points(table)[..i] == Points(table);
    assert Matching(table, text)[..i] == Matching(table, text);
  }

  /** A character a bank USSD code is made of. */
  predicate IsUssdSymbol(c: char)
  {
    c == '*' || c == '#' || IsDigit(c)
  }

  /** Every allow-listed code is made of '*', '#' and digits only. */
  lemma SafeCodesAreSymbols(code: string)
    requires code in SafeBankCodes
    ensures forall i :: 0 <= i < |code| ==> IsUssdSymbol(code[i])
  {
  }

  /** A keyword starting with a letter never occurs in the lower-cased form of
      a code made of USSD symbols only, such as an allow-listed code. */
  lemma {:induction false} NoKeywordAmongSymbols(code: string, keyword: string)
    requires forall i :: 0 <= i < |code| ==> IsUssdSymbol(code[i])
    requires |keyword| > 0 && 'a' <= keyword[0] <= 'z'
    ensures !Contains(ToLower(code), keyword)
  {
    forall i | 0 <= i <= |code| - |keyword| ensures !OccursAt(ToLower(code), keyword, i) {
      assert ToLower(code)[i] != keyword[0];
      assert ToLower(code)[i..i + |keyword|][0] == ToLower(code)[i];
    }
  }

  lemma KeywordsStartWithLetters(k: int)
    requires 0 <= k < |ScamIndicators|
    ensures |ScamIndicators[k].rule| > 0 && 'a' <= ScamIndicators[k].rule[0] <= 'z'
    ensures ScamIndicators[k].points >= 8
  {
  }

  /** A code on the allow-list is 'safe' without being scored, and none of
      them contains any keyword, so the allow-list never hides a keyword. */
  lemma {:induction false} AllowListIsClean(code: string)
    requires code in SafeBankCodes
    ensures Verdict(code) == VerifiedBankCode && KindOf(Verdict(code)) == Safe
    ensures forall k :: 0 <= k < |ScamIndicators| ==> !Fired(ToLower(code))[k]
  {
    SafeCodesAreSymbols(code);
    forall k | 0 <= k < |ScamIndicators| ensures !Fired(ToLower(code))[k] {
      KeywordsStartWithLetters(k);
      NoKeywordAmongSymbols(code, ScamIndicators[k].rule);
    }
  }

  /** A code in which any keyword occurs is not on the allow-list, so it is
      scored. */
  lemma {:induction false} KeywordMeansScored(code: string, k: int)
    requires 0 <= k < |ScamIndicators| && Fired(ToLower(code))[k]
    ensures code !in SafeBankCodes
    ensures RiskScore(ToLower(code)) >= ScamIndicators[k].points
    ensures Verdict(code) == Assess(RiskScore(ToLower(code)))
  {
    if code in SafeBankCodes {
      AllowListIsClean(code);
    }
    FiredRuleCounts(Points(ScamIndicators), Fired(ToLower(code)), k);
  }

  /** Any code containing 'bvn' (in any letter case) is at least HIGH RISK. */
  lemma {:induction false} BvnIsHighRisk(code: string)
    requires Contains(ToLower(code), "bvn")
    ensures Verdict(code) == HighRisk || Verdict(code) == ExtremeRisk
    ensures KindOf(Verdict(code)) == Scam
  {
    assert ScamIndicators[2].rule == "bvn";
    KeywordMeansScored(code, 2);
  }

  /** Two different keywords in one code always make it a scam: the two
      cheapest keywords are worth 8 + 10 = 18 points. */
  lemma {:induction false} TwoKeywordsMeanScam(code: string, j: int, k: int)
    requires 0 <= j < k < |ScamIndicators|
    requires Fired(ToLower(code))[j] && Fired(ToLower(code))[k]
    ensures KindOf(Verdict(code)) == Scam
  {
    KeywordMeansScored(code, j);
    KeywordsStartWithLetters(j);
    KeywordsStartWithLetters(k);
    assert j < 8 || k < 8;
    TwoFiredRulesCount(Points(ScamIndicators), Fired(ToLower(code)), j, k);
  }

  /** The check reports 'safe' exactly when the code contains no keyword:
      every keyword is worth at least 8 points, above the 'safe' threshold. */
  lemma {:induction false} SafeIffNoKeyword(code: string)
    ensures KindOf(Verdict(code)) == Safe <==>
            forall k :: 0 <= k < |ScamIndicators| ==> !Fired(ToLower(code))[k]
  {
    if code in SafeBankCodes {
      AllowListIsClean(code);
    } else {
      var f := Fired(ToLower(code));
      if exists k :: 0 <= k < |ScamIndicators| && f[k] {
        var k :| 0 <= k < |ScamIndicators| && f[k];
        KeywordMeansScored(code, k);
        KeywordsStartWithLetters(k);
      } else {
        TallyZero(Points(ScamIndicators), f);
      }
    }
  }
}
