/**
 The values that flow through the water-potability `predict` handler:
 the parsed request fields, the opaque artifacts loaded at startup, the
 prediction the handler reports and the HTTP response it sends.
 */
module Types {

  /** A value that may be absent: a request field that could not be read,
      an artifact that failed to load, a collaborator that raised. */
  datatype Option<T> = None | Some(value: T)

  /** The request body after field extraction and `float` coercion.
      `None` stands for a field that is missing or not coercible to a number. */
  datatype Body = Body(ph: Option<real>, tds: Option<real>)

  /** The ordered feature row `[ph, tds]` handed to the scaler. */
  datatype Features = Features(ph: real, tds: real)

  /** One row of class probabilities: (P(not potable), P(potable)),
      i.e. columns 0 and 1 of the classifier's output. */
  datatype Proba = Proba(notPotable: real, potable: real)

  /** The fitted scaler; `None` means its transform raised. */
  datatype Scaler = Scaler(transform: Features -> Option<Features>)

  /** The trained classifier; `None` means scoring raised. */
  datatype Classifier = Classifier(predictProba: Features -> Option<Proba>)

  /** The process-wide artifact handles; either may be absent. */
  datatype Artifacts = Artifacts(model: Option<Classifier>, scaler: Option<Scaler>)

  /** The three fields of a successful answer, as percentages. */
  datatype Prediction = Prediction(potable: real, notPotable: real, isPotable: bool)

  /** What the handler sends back. `ServerError` is the catch-all 500 whose
      message is the text of whatever exception was raised. */
  datatype Response = Ok(prediction: Prediction) | BadRequest(message: string) | ServerError

  /** The HTTP status code that accompanies each kind of response. */
  function Status(r: Response): (code: nat)
    ensures r.Ok? <==> code == 200
    ensures r.BadRequest? <==> code == 400
    ensures r.ServerError? <==> code == 500
  {
    match r
    case Ok(_) => 200
    case BadRequest(_) => 400
    case ServerError => 500
  }
}
