/**
 The `predict` request handler: read both fields, run the range checks,
 pick a predictor from the loaded artifacts, and answer.
 */
module Handler {
  import opened Types
  import opened Validation
  import Heuristic
  import ModelBackend

  /** Which predictor serves requests. */
  datatype Backend = UseHeuristic | UseModel(scaler: Scaler, model: Classifier)

  /** The rule-based fallback serves requests unless both artifacts loaded. */
  function SelectBackend(a: Artifacts): (b: Backend)
    ensures b.UseHeuristic? <==> a.model.None? || a.scaler.None?
    ensures b.UseModel? ==> Some(b.scaler) == a.scaler && Some(b.model) == a.model
  {
    if a.model.None? || a.scaler.None? then UseHeuristic
    else UseModel(a.scaler.value, a.model.value)
  }

  /** The handler once both fields have been read as numbers. */
  function HandleParsed(ph: real, tds: real, a: Artifacts): (r: Response)
    ensures r.BadRequest? <==> !InRange(ph, tds)
    ensures r.Ok? ==> (r.prediction.isPotable <==> r.prediction.potable > 50.0)
    ensures InRange(ph, tds) && SelectBackend(a).UseHeuristic? ==>
              r == Ok(Heuristic.Predict(ph, tds))
    ensures InRange(ph, tds) && SelectBackend(a).UseModel? ==>
              var m := ModelBackend.Predict(ph, tds, SelectBackend(a).scaler, SelectBackend(a).model);
              (r.Ok? <==> m.Some?) && (r.Ok? ==> r.prediction == m.value) &&
              (r.ServerError? <==> m.None?)
  {
    match Validate(ph, tds)
    case Rejected(msg) => BadRequest(msg)
    case Accepted =>
      match SelectBackend(a)
      case UseHeuristic => Ok(Heuristic.Predict(ph, tds))
      case UseModel(scaler, model) =>
        match ModelBackend.Predict(ph, tds, scaler, model)
        case None => ServerError
        case Some(p) => Ok(p)
  }

  /** The whole handler. Both fields are read before any range check, so a
      field that cannot be read yields a 500 even when the other is out of
      range. */
  function Handle(body: Body, a: Artifacts): (r: Response)
    ensures body.ph.None? || body.tds.None? ==> r == ServerError
    ensures r.BadRequest? <==>
              body.ph.Some? && body.tds.Some? && !InRange(body.ph.value, body.tds.value)
    ensures r.Ok? ==> (r.prediction.isPotable <==> r.prediction.potable > 50.0)
  {
    match (body.ph, body.tds)
    case (Some(ph), Some(tds)) => HandleParsed(ph, tds, a)
    case _ => ServerError
  }

  /** A pH outside [0, 14] is answered with the pH error, whatever the TDS
      and whichever predictor is loaded. */
  lemma PhOutOfRange(ph: real, tds: real, a: Artifacts)
    requires !PhInRange(ph)
    ensures Handle(Body(Some(ph), Some(tds)), a) == BadRequest(PhMessage)
    ensures Status(Handle(Body(Some(ph), Some(tds)), a)) == 400
  {
  }

  /** When both checks fail, the pH error wins. */
  lemma PhErrorTakesPriority(ph: real, tds: real, a: Artifacts)
    requires !PhInRange(ph) && !TdsInRange(tds)
    ensures Handle(Body(Some(ph), Some(tds)), a) == BadRequest(PhMessage)
    ensures Handle(Body(Some(ph), Some(tds)), a) != BadRequest(TdsMessage)
  {
    MessagesDistinct();
  }

  /** A negative TDS with an in-range pH is answered with the TDS error. */
  lemma NegativeTds(ph: real, tds: real, a: Artifacts)
    requires PhInRange(ph) && !TdsInRange(tds)
    ensures Handle(Body(Some(ph), Some(tds)), a) == BadRequest(TdsMessage)
  {
  }

  /** Every in-range input gets past validation and reaches a predictor:
      the heuristic always answers, and the model-backed path answers
      unless the scaler or classifier raises. */
  lemma InRangeReachesPredictor(ph: real, tds: real, a: Artifacts)
    requires InRange(ph, tds)
    ensures !Handle(Body(Some(ph), Some(tds)), a).BadRequest?
    ensures SelectBackend(a).UseHeuristic? ==>
              Handle(Body(Some(ph), Some(tds)), a) == Ok(Heuristic.Predict(ph, tds))
    ensures SelectBackend(a).UseModel? ==>
              (Handle(Body(Some(ph), Some(tds)), a).Ok? <==>
                 ModelBackend.Predict(ph, tds, SelectBackend(a).scaler, SelectBackend(a).model).Some?)
  {
  }

  /** Reading the fields comes first: a missing or non-numeric field is a
      500 even when the other field already breaks a range rule. */
  lemma ReadErrorBeforeRangeCheck(ph: real, a: Artifacts)
    requires !PhInRange(ph)
    ensures Handle(Body(Some(ph), None), a) == ServerError
    ensures Status(Handle(Body(Some(ph), None), a)) == 500
  {
  }

  /** In degraded mode the answer depends only on pH and TDS: any two
      artifact states that both select the heuristic answer alike. */
  lemma HeuristicIgnoresArtifacts(body: Body, a1: Artifacts, a2: Artifacts)
    requires SelectBackend(a1).UseHeuristic? && SelectBackend(a2).UseHeuristic?
    ensures Handle(body, a1) == Handle(body, a2)
  {
  }

  /** In degraded mode every success is one of the three table rows, with
      complementary percentages. */
  lemma HeuristicOkShape(body: Body, a: Artifacts)
    requires SelectBackend(a).UseHeuristic?
    requires Handle(body, a).Ok?
    ensures var p := Handle(body, a).prediction;
            p.potable + p.notPotable == 100.0 &&
            (p.potable == 85.0 || p.potable == 60.0 || p.potable == 30.0)
  {
  }

  /** With both artifacts loaded, a success reports the classifier's pair
      scaled by 100 and the verdict "P(potable) above one half", whatever the
      pair is; the two percentages sum to 100 when the pair sums to 1. */
  lemma ModelOkShape(ph: real, tds: real, a: Artifacts)
    requires SelectBackend(a).UseModel?
    requires Handle(Body(Some(ph), Some(tds)), a).Ok?
    ensures var s := a.scaler.value.transform(Features(ph, tds));
            s.Some? && a.model.value.predictProba(s.value).Some?
    ensures var p := Handle(Body(Some(ph), Some(tds)), a).prediction;
            var q := a.model.value.predictProba(a.scaler.value.transform(Features(ph, tds)).value).value;
            && p.potable == q.potable * 100.0
            && p.notPotable == q.notPotable * 100.0
            && (p.isPotable <==> q.potable > 0.5)
            && (q.notPotable + q.potable == 1.0 ==> p.potable + p.notPotable == 100.0)
  {
  }

  /** Each of the three table rows is the answer to some well-formed
      request in degraded mode. */
  lemma HeuristicRowsReachable(potable: real)
    requires potable == 85.0 || potable == 60.0 || potable == 30.0
    ensures exists body: Body ::
              Handle(body, Artifacts(None, None)) ==
                Ok(Prediction(potable, 100.0 - potable, potable > 50.0))
  {
    var ph := if potable == 30.0 then 2.0 else 7.0;
    var tds := if potable == 85.0 then 100.0 else 600.0;
    var body := Body(Some(ph), Some(tds));
    assert Handle(body, Artifacts(None, None)) ==
           Ok(Prediction(potable, 100.0 - potable, potable > 50.0));
  }

  /** The documented degraded-mode examples. */
  lemma DegradedExamples()
    ensures Handle(Body(Some(7.0), Some(100.0)), Artifacts(None, None)) == Ok(Prediction(85.0, 15.0, true))
    ensures Handle(Body(Some(7.0), Some(600.0)), Artifacts(None, None)) == Ok(Prediction(60.0, 40.0, true))
    ensures Handle(Body(Some(2.0), Some(600.0)), Artifacts(None, None)) == Ok(Prediction(30.0, 70.0, false))
    ensures Handle(Body(Some(-1.0), Some(100.0)), Artifacts(None, None)) == BadRequest(PhMessage)
    ensures Handle(Body(Some(15.0), Some(100.0)), Artifacts(None, None)) == BadRequest(PhMessage)
    ensures Handle(Body(Some(7.0), Some(-5.0)), Artifacts(None, None)) == BadRequest(TdsMessage)
    ensures Handle(Body(None, Some(100.0)), Artifacts(None, None)) == ServerError
  {
  }
}
