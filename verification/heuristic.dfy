/**
 The rule-based predictor used when the artifacts are unavailable: a fixed
 decision table over two boolean conditions.
 */
module Heuristic {
  import opened Types
  import Validation

  /** Drinking-water pH band; both 6.5 and 8.5 count as good. The band lies
      inside the range the handler accepts. */
  function IsGoodPh(ph: real): (good: bool)
    ensures good ==> Validation.PhInRange(ph)
  {
    6.5 <= ph <= 8.5
  }

  /** Dissolved solids strictly below 500; exactly 500 is not good. Every
      bad value is still an accepted (non-negative) one. */
  function IsGoodTds(tds: real): (good: bool)
    ensures !good ==> Validation.TdsInRange(tds)
  {
    tds < 500.0
  }

  /** How many of the two conditions hold. */
  function GoodCount(ph: real, tds: real): (n: nat)
    ensures n <= 2
    ensures n == 2 <==> IsGoodPh(ph) && IsGoodTds(tds)
    ensures n == 0 <==> !IsGoodPh(ph) && !IsGoodTds(tds)
  {
    (if IsGoodPh(ph) then 1 else 0) + (if IsGoodTds(tds) then 1 else 0)
  }

  /** Reference table: the potable probability as a function of the number
      of good conditions, strictly increasing in that number. */
  function TableValue(n: nat): (p: real)
    requires n <= 2
    ensures 0.0 < p < 100.0
    ensures p > 50.0 <==> n >= 1
  {
    [30.0, 60.0, 85.0][n]
  }

  /** The predictor as it branches: both good, then either good, then neither. */
  function PotableProbability(ph: real, tds: real): (p: real)
    ensures p == TableValue(GoodCount(ph, tds))
  {
    var goodPh := IsGoodPh(ph);
    var goodTds := IsGoodTds(tds);
    if goodPh && goodTds then 85.0
    else if goodPh || goodTds then 60.0
    else 30.0
  }

  function Predict(ph: real, tds: real): (r: Prediction)
    ensures r.potable == TableValue(GoodCount(ph, tds))
    ensures r.potable + r.notPotable == 100.0
    ensures r.isPotable <==> r.potable > 50.0
    ensures r.isPotable <==> IsGoodPh(ph) || IsGoodTds(tds)
  {
    var p := PotableProbability(ph, tds);
    Prediction(p, 100.0 - p, p > 50.0)
  }

  /** The four cells of the table, read off the two conditions. */
  lemma TableCells(ph: real, tds: real)
    ensures IsGoodPh(ph) && IsGoodTds(tds) ==> Predict(ph, tds) == Prediction(85.0, 15.0, true)
    ensures IsGoodPh(ph) && !IsGoodTds(tds) ==> Predict(ph, tds) == Prediction(60.0, 40.0, true)
    ensures !IsGoodPh(ph) && IsGoodTds(tds) ==> Predict(ph, tds) == Prediction(60.0, 40.0, true)
    ensures !IsGoodPh(ph) && !IsGoodTds(tds) ==> Predict(ph, tds) == Prediction(30.0, 70.0, false)
  {
  }

  /** The boundaries of the two conditions: the pH band is closed, the TDS
      bound is open. */
  lemma Boundaries()
    ensures IsGoodPh(6.5) && IsGoodPh(8.5)
    ensures !IsGoodPh(6.4) && !IsGoodPh(8.6)
    ensures IsGoodTds(499.9) && !IsGoodTds(500.0)
    ensures Predict(6.5, 500.0).potable == 60.0
    ensures Predict(8.5, 499.0).potable == 85.0
  {
  }

  /** Improving either measurement never lowers the potable probability:
      moving pH into the band or lowering TDS can only raise it. */
  lemma Monotone(ph: real, tds: real, ph': real, tds': real)
    requires IsGoodPh(ph) ==> IsGoodPh(ph')
    requires tds' <= tds
    ensures Predict(ph, tds).potable <= Predict(ph', tds').potable
  {
  }

  /** Every cell of the table is hit by some input that passes the range
      checks (0 <= pH <= 14 and TDS >= 0), so none of the rows is dead. */
  lemma CellReachable(goodPh: bool, goodTds: bool)
    ensures exists ph: real, tds: real ::
              Validation.InRange(ph, tds) &&
              IsGoodPh(ph) == goodPh && IsGoodTds(tds) == goodTds
  {
    var ph := if goodPh then 7.0 else 2.0;
    var tds := if goodTds then 100.0 else 600.0;
    assert IsGoodPh(ph) == goodPh && IsGoodTds(tds) == goodTds;
  }
}
