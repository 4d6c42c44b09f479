/**
 The model-backed predictor: the row `[ph, tds]` is scaled, scored by the
 classifier, and the class probabilities are turned into percentages.
 The scaler and classifier are opaque; only the shaping is specified.
 */
module ModelBackend {
  import opened Types

  /** A probability pair as the classifier is meant to produce it. */
  predicate IsDistribution(p: Proba) {
    0.0 <= p.notPotable && 0.0 <= p.potable && p.notPotable + p.potable == 1.0
  }

  /** Column 1 scaled to a percentage is the potable probability, column 0
      the not-potable one; the verdict is "P(potable) above one half". */
  function Shape(p: Proba): (r: Prediction)
    ensures r.isPotable <==> r.potable > 50.0
    ensures Unshape(r) == p
    ensures p.notPotable + p.potable == 1.0 ==> r.potable + r.notPotable == 100.0
    ensures IsDistribution(p) ==>
              0.0 <= r.potable <= 100.0 && 0.0 <= r.notPotable <= 100.0
  {
    Prediction(p.potable * 100.0, p.notPotable * 100.0, p.potable > 0.5)
  }

  /** Reads the classifier's pair back out of a reported prediction. */
  function Unshape(r: Prediction): (p: Proba)
    ensures p.potable * 100.0 == r.potable && p.notPotable * 100.0 == r.notPotable
  {
    Proba(r.notPotable / 100.0, r.potable / 100.0)
  }

  /** Reporting is injective: two different classifier outputs are never
      reported as the same prediction. */
  lemma ShapeInjective(p: Proba, q: Proba)
    requires Shape(p) == Shape(q)
    ensures p == q
  {
  }

  /** The scoring pipeline: scale the ordered row, score it, shape the
      first row of probabilities. `None` if the scaler or classifier raised. */
  function Predict(ph: real, tds: real, scaler: Scaler, model: Classifier): (r: Option<Prediction>)
    ensures r.Some? <==>
              scaler.transform(Features(ph, tds)).Some? &&
              model.predictProba(scaler.transform(Features(ph, tds)).value).Some?
    ensures r.Some? ==>
              Unshape(r.value) == model.predictProba(scaler.transform(Features(ph, tds)).value).value
    ensures r.Some? ==> (r.value.isPotable <==> r.value.potable > 50.0)
  {
    match scaler.transform(Features(ph, tds))
    case None => None
    case Some(scaled) =>
      match model.predictProba(scaled)
      case None => None
      case Some(proba) => Some(Shape(proba))
  }

  /** When the classifier produces a genuine distribution, the reported
      percentages are complementary and bounded. */
  lemma ComplementWhenDistribution(ph: real, tds: real, scaler: Scaler, model: Classifier)
    requires scaler.transform(Features(ph, tds)).Some?
    requires model.predictProba(scaler.transform(Features(ph, tds)).value).Some?
    requires IsDistribution(model.predictProba(scaler.transform(Features(ph, tds)).value).value)
    ensures Predict(ph, tds, scaler, model).Some?
    ensures var r := Predict(ph, tds, scaler, model).value;
            r.potable + r.notPotable == 100.0 && 0.0 <= r.potable <= 100.0
  {
  }

  /** The threshold: exactly one half is not potable, anything above is. */
  lemma Threshold()
    ensures !Shape(Proba(0.5, 0.5)).isPotable
    ensures Shape(Proba(0.49, 0.51)).isPotable
    ensures Shape(Proba(0.2, 0.8)) == Prediction(80.0, 20.0, true)
  {
  }
}
