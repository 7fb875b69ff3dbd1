/** Additive risk scoring shared by every scorer of the service: a table of
    rules, each worth a number of points, and the total of the points of the
    rules that fired on the input. Also the three verdict kinds the service
    reports ('safe', 'warning', 'scam'). */
module Scoring {

  /** The `type` field of a verdict. */
  datatype Kind = Safe | Warning | Scam

  /** A rule of a scoring table and the points it adds when it fires. */
  datatype Weighted<R> = Weighted(rule: R, points: nat)

  /** The points column of a scoring table. */
  function Points<R>(table: seq<Weighted<R>>): (p: seq<nat>)
    ensures |p| == |table|
    ensures forall k :: 0 <= k < |p| ==> p[k] == table[k].points
  {
    seq(|table|, k requires 0 <= k < |table| => table[k].points)
  }

  /** Sum of a table of points. */
  function Sum(points: seq<nat>): nat
  {
    if points == [] then 0 else Sum(points[..|points| - 1]) + points[|points| - 1]
  }

  /** Extending a prefix of the table by one entry adds that entry. */
  lemma SumPrefixStep(points: seq<nat>, i: int)
    requires 0 <= i < |points|
    ensures Sum(points[..i + 1]) == Sum(points[..i]) + points[i]
  {
    assert points[..i + 1][..i] == points[..i];
  }

  /** Total of the points of the rules that fired, every rule counted once,
      in table order (the `score += points` loop over the table). */
  function Tally(points: seq<nat>, fired: seq<bool>): (total: nat)
    requires |fired| == |points|
    ensures total <= Sum(points)
  {
    if points == [] then 0
    else
      var n := |points| - 1;
      Tally(points[..n], fired[..n]) + (if fired[n] then points[n] else 0)
  }

  /** Negation of every entry of `fired`. */
  function Negate(fired: seq<bool>): (r: seq<bool>)
    ensures |r| == |fired| && forall k :: 0 <= k < |fired| ==> r[k] == !fired[k]
  {
    seq(|fired|, k requires 0 <= k < |fired| => !fired[k])
  }

  /** A fired rule contributes its full points to the total. */
  lemma {:induction false} FiredRuleCounts(points: seq<nat>, fired: seq<bool>, k: int)
    requires |fired| == |points| && 0 <= k < |points| && fired[k]
    ensures Tally(points, fired) >= points[k]
  {
    var n := |points| - 1;
    if k < n {
      FiredRuleCounts(points[..n], fired[..n], k);
    }
  }

  /** Two different fired rules both contribute their points. */
  lemma {:induction false} TwoFiredRulesCount(points: seq<nat>, fired: seq<bool>, j: int, k: int)
    requires |fired| == |points| && 0 <= j < k < |points| && fired[j] && fired[k]
    ensures Tally(points, fired) >= points[j] + points[k]
  {
    var n := |points| - 1;
    if k < n {
      TwoFiredRulesCount(points[..n], fired[..n], j, k);
    } else {
      FiredRuleCounts(points[..n], fired[..n], j);
    }
  }

  /** Every rule is counted exactly once: the points of the rules that fired
      and of those that did not add up to the whole table. */
  lemma {:induction false} TallySplitsTable(points: seq<nat>, fired: seq<bool>)
    requires |fired| == |points|
    ensures Tally(points, fired) + Tally(points, Negate(fired)) == Sum(points)
  {
    if points != [] {
      var n := |points| - 1;
      assert Negate(fired)[..n] == Negate(fired[..n]);
      TallySplitsTable(points[..n], fired[..n]);
    }
  }

  /** Firing more rules never lowers the total. */
  lemma {:induction false} TallyMonotone(points: seq<nat>, fired: seq<bool>, more: seq<bool>)
    requires |fired| == |points| && |more| == |points|
    requires forall k :: 0 <= k < |points| && fired[k] ==> more[k]
    ensures Tally(points, fired) <= Tally(points, more)
  {
    if points != [] {
      var n := |points| - 1;
      TallyMonotone(points[..n], fired[..n], more[..n]);
    }
  }

  /** The total is zero exactly when no rule worth points fired. */
  lemma {:induction false} TallyZero(points: seq<nat>, fired: seq<bool>)
    requires |fired| == |points|
    ensures Tally(points, fired) == 0 <==> forall k :: 0 <= k < |points| && fired[k] ==> points[k] == 0
  {
    if points != [] {
      var n := |points| - 1;
      TallyZero(points[..n], fired[..n]);
      if Tally(points, fired) == 0 {
        forall k | 0 <= k < |points| && fired[k] ensures points[k] == 0 {
          if k < n { assert fired[..n][k]; }
        }
      }
    }
  }

  /** When only rule `k` fired, the total is exactly that rule's points. */
  lemma {:induction false} OnlyRuleFired(points: seq<nat>, fired: seq<bool>, k: int)
    requires |fired| == |points| && 0 <= k < |points| && fired[k]
    requires forall j :: 0 <= j < |points| && j != k ==> !fired[j]
    ensures Tally(points, fired) == points[k]
  {
    var n := |points| - 1;
    if k < n {
      OnlyRuleFired(points[..n], fired[..n], k);
    } else {
      TallyZero(points[..n], fired[..n]);
    }
  }
}
