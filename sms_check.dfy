/** The SMS check of app.py (`api_check_sms`, after the quota gate): the
    message is lower-cased and searched with each regular expression of a
    weighted table; the points of the expressions that match are summed into
    `risk_score`, and a threshold chain turns the score into a verdict. The
    regular expressions themselves are not interpreted: whether one matches
    is the `search` oracle given to the check. */
module SmsCheck {
  import opened Text
  import opened Scoring

  /** A regular expression of the table and the points it adds. */
  type Pattern = Weighted<string>

  /** The weighted table, in the order the scoring loop visits it. */
  const RiskPatterns: seq<Pattern> := [
    Weighted("won\\s*\\d+[,.]?\\d*\\s*(million|thousand|billion)", 15),
    Weighted("congratulation(s)?!*\\s*you\\s+(won|have|are)", 12),
    Weighted("prize\\s*(money|award|winner)", 10),
    Weighted("lottery|jackpot|raffle", 10),
    Weighted("claim\\s*(your|this|now)", 8),
    Weighted("free\\s*(money|airtime|data|gift)", 8),
    Weighted("account\\s*verification", 7),
    Weighted("password\\s*reset", 7),
    Weighted("bvn\\s*(verification|update)", 15),
    Weighted("atm\\s*card\\s*(details|pin)", 15),
    Weighted("click\\s*(link|here|below)", 6),
    Weighted("http[s]?://|www\\.|bit\\.ly", 8),
    Weighted("call\\s*0[7-9][0-9]{8,}", 7),
    Weighted("urgent|immediate|action\\s*required", 5)
  ]

  /** `re.search(regex, text, re.IGNORECASE)` found a match. */
  type Search = (string, string) -> bool

  /** Which patterns of a table match a text. */
  function Matching(table: seq<Pattern>, text: string, search: Search): (f: seq<bool>)
    ensures |f| == |table|
    ensures forall k :: 0 <= k < |table| ==> f[k] == search(table[k].rule, text)
  {
    seq(|table|, k requires 0 <= k < |table| => search(table[k].rule, text))
  }

  /** Which patterns match the lower-cased message. */
  function Fired(smsLower: string, search: Search): (f: seq<bool>)
    ensures |f| == |RiskPatterns|
  {
    Matching(RiskPatterns, smsLower, search)
  }

  /** `risk_score`: the points of every matching pattern, each counted once;
      every matching pattern adds at least its own points. */
  function SmsScore(smsLower: string, search: Search): (score: nat)
    ensures forall k :: 0 <= k < |RiskPatterns| && Fired(smsLower, search)[k] ==> score >= RiskPatterns[k].points
  {
    var f := Fired(smsLower, search);
    forall k | 0 <= k < |RiskPatterns| && f[k] ensures Tally(Points(RiskPatterns), f) >= RiskPatterns[k].points {
      FiredRuleCounts(Points(RiskPatterns), f, k);
    }
    Tally(Points(RiskPatterns), f)
  }

  /** One value per message the check can answer with. */
  datatype Assessment =
    | AdvanceFeeScam    // score >= 25
    | HighRiskScam      // score >= 18
    | Suspicious        // score >= 12
    | Caution           // score >= 8
    | LikelyLegitimate  // below 8

  /** The `type` field reported with each message. */
  function KindOf(a: Assessment): Kind
  {
    match a
    case AdvanceFeeScam => Scam
    case HighRiskScam => Scam
    case Suspicious => Warning
    case Caution => Warning
    case LikelyLegitimate => Safe
  }

  /** The threshold chain on the score. The kind it reports is 'scam' from 18
      points, 'warning' from 8 to 17 and 'safe' below 8. */
  function Assess(score: int): (a: Assessment)
    ensures KindOf(a) == Scam <==> score >= 18
    ensures KindOf(a) == Warning <==> 8 <= score < 18
    ensures KindOf(a) == Safe <==> score < 8
  {
    if score >= 25 then AdvanceFeeScam
    else if score >= 18 then HighRiskScam
    else if score >= 12 then Suspicious
    else if score >= 8 then Caution
    else LikelyLegitimate
  }

  /** The scoring loop: every pattern of the table is searched in turn and
      the points of those that match are added up, each once. */
  method Score(table: seq<Pattern>, text: string, search: Search) returns (score: nat)
    ensures score == Tally(Points(table), Matching(table, text, search))
  {
    score := 0;
    var i := 0;
    while i < |table|
      invariant 0 <= i <= |table|
      invariant score == Tally(Points(table)[..i], Matching(table, text, search)[..i])
    {
      assert Points(table)[..i + 1][..i] == Points(table)[..i];
      assert Matching(table, text, search)[..i + 1][..i] == Matching(table, text, search)[..i];
      if search(table[i].rule, text) {
        score := score + table[i].points;
      }
      i := i + 1;
    }
    assert Points(table)[..i] == Points(table);
    assert Matching(table, text, search)[..i] == Matching(table, text, search);
  }

  /** The analysis block of the handler: `sms` is the request's message after
      `strip()`; it is lower-cased, scored with the table, and the score is
      assessed. */
  method AnalyseSms(sms: string, search: Search) returns (assessment: Assessment, riskScore: nat)
    ensures riskScore == SmsScore(ToLower(sms), search)
    ensures assessment == Assess(riskScore)
  {
    var smsLower := ToLower(sms);
    riskScore := Score(RiskPatterns, smsLower, search);
    assessment := Assess(riskScore);
  }

  /** The whole table is worth 133 points. */
  lemma TableTotal(table: seq<Pattern>)
    requires table == RiskPatterns
    ensures Sum(Points(table)) == 133
  {
    FirstPoints(table);
    LastPoints(table);
    ColumnTotal(Points(table));
  }

  lemma FirstPoints(table: seq<Pattern>)
    requires table == RiskPatterns
    ensures table[0].points == 15 && table[1].points == 12 && table[2].points == 10 && table[3].points == 10
    ensures table[4].points == 8 && table[5].points == 8 && table[6].points == 7
  {
  }

  lemma LastPoints(table: seq<Pattern>)
    requires table == RiskPatterns
    ensures table[7].points == 7 && table[8].points == 15 && table[9].points == 15 && table[10].points == 6
    ensures table[11].points == 8 && table[12].points == 7 && table[13].points == 5
  {
  }

  /** The sum of a column with the table's fourteen entries. */
  lemma ColumnTotal(p: seq<nat>)
    requires |p| == 14
    requires p[0] == 15 && p[1] == 12 && p[2] == 10 && p[3] == 10 && p[4] == 8 && p[5] == 8 && p[6] == 7
    requires p[7] == 7 && p[8] == 15 && p[9] == 15 && p[10] == 6 && p[11] == 8 && p[12] == 7 && p[13] == 5
    ensures Sum(p) == 133
  {
    assert p[..0] == [];
    SumPrefixStep(p, 0);
    SumPrefixStep(p, 1);
    SumPrefixStep(p, 2);
    SumPrefixStep(p, 3);
    SumPrefixStep(p, 4);
    SumPrefixStep(p, 5);
    SumPrefixStep(p, 6);
    SumPrefixStep(p, 7);
    SumPrefixStep(p, 8);
    SumPrefixStep(p, 9);
    SumPrefixStep(p, 10);
    SumPrefixStep(p, 11);
    SumPrefixStep(p, 12);
    SumPrefixStep(p, 13);
    assert p[..14] == p;
  }

  /** Every pattern is counted exactly once: the points of the matching
      patterns and those of the others add up to the whole table, so the score
      lies between 0 and 133. */
  lemma {:induction false} EachPatternCountedOnce(smsLower: string, search: Search)
    ensures SmsScore(smsLower, search) + SmsScore(smsLower, (r, t) => !search(r, t)) == 133
    ensures SmsScore(smsLower, search) <= 133
  {
    var f := Fired(smsLower, search);
    assert Fired(smsLower, (r, t) => !search(r, t)) == Negate(f);
    TallySplitsTable(Points(RiskPatterns), f);
    TableTotal(RiskPatterns);
  }

  /** No single pattern gives a 'scam' verdict: the largest is worth 15 points,
      below the 18-point threshold. */
  lemma {:induction false} OnePatternIsNeverScam(smsLower: string, search: Search, k: int)
    requires 0 <= k < |RiskPatterns| && Fired(smsLower, search)[k]
    requires forall j :: 0 <= j < |RiskPatterns| && j != k ==> !Fired(smsLower, search)[j]
    ensures KindOf(Assess(SmsScore(smsLower, search))) != Scam
    ensures SmsScore(smsLower, search) == RiskPatterns[k].points
  {
    OnlyRuleFired(Points(RiskPatterns), Fired(smsLower, search), k);
  }

  /** A 15-point pattern (a won-millions phrase, a BVN update or ATM card
      details) together with any other pattern always gives a 'scam' verdict. */
  lemma {:induction false} HeavyPatternWithAnotherIsScam(smsLower: string, search: Search, heavy: int, other: int)
    requires 0 <= heavy < |RiskPatterns| && RiskPatterns[heavy].points == 15
    requires 0 <= other < |RiskPatterns| && other != heavy
    requires Fired(smsLower, search)[heavy] && Fired(smsLower, search)[other]
    ensures KindOf(Assess(SmsScore(smsLower, search))) == Scam
  {
    var f := Fired(smsLower, search);
    assert RiskPatterns[other].points >= 5;
    if heavy < other {
      TwoFiredRulesCount(Points(RiskPatterns), f, heavy, other);
    } else {
      TwoFiredRulesCount(Points(RiskPatterns), f, other, heavy);
    }
  }

  /** A message is reported 'safe' exactly when the matching patterns are
      worth less than 8 points; in particular one that matches nothing. */
  lemma {:induction false} NothingMatchedIsSafe(smsLower: string, search: Search)
    requires forall k :: 0 <= k < |RiskPatterns| ==> !Fired(smsLower, search)[k]
    ensures SmsScore(smsLower, search) == 0
    ensures Assess(SmsScore(smsLower, search)) == LikelyLegitimate
  {
    TallyZero(Points(RiskPatterns), Fired(smsLower, search));
  }
}
