/**
 The two explicit range checks of the `predict` handler. The pH check runs
 first, so an input that breaks both rules is reported as a pH error.
 */
module Validation {

  const PhMessage: string := "pH must be between 0 and 14"
  const TdsMessage: string := "TDS cannot be negative"

  /** Outcome of the range checks: go on to a predictor, or answer 400. */
  datatype Verdict = Accepted | Rejected(message: string)

  /** The pH scale, both ends included. */
  predicate PhInRange(ph: real) {
    0.0 <= ph <= 14.0
  }

  /** A concentration is never negative; zero is allowed. */
  predicate TdsInRange(tds: real) {
    0.0 <= tds
  }

  /** The region of inputs that reach a predictor. */
  predicate InRange(ph: real, tds: real) {
    PhInRange(ph) && TdsInRange(tds)
  }

  function Validate(ph: real, tds: real): (v: Verdict)
    ensures v.Accepted? <==> InRange(ph, tds)
    ensures !PhInRange(ph) ==> v == Rejected(PhMessage)
    ensures PhInRange(ph) && !TdsInRange(tds) ==> v == Rejected(TdsMessage)
  {
    if ph < 0.0 || ph > 14.0 then
      Rejected(PhMessage)
    else if tds < 0.0 then
      Rejected(TdsMessage)
    else
      Accepted
  }

  /** The two rejections carry different messages, so which check fired
      is visible to the client. */
  lemma MessagesDistinct()
    ensures PhMessage != TdsMessage
  {
  }

  /** A rejection always carries one of the two fixed messages, and it is
      the pH message exactly when pH is out of range, whatever the TDS. */
  lemma RejectionMessages(ph: real, tds: real)
    ensures Validate(ph, tds).Rejected? ==>
              Validate(ph, tds).message in {PhMessage, TdsMessage}
    ensures Validate(ph, tds) == Rejected(PhMessage) <==> !PhInRange(ph)
    ensures Validate(ph, tds) == Rejected(TdsMessage) <==> PhInRange(ph) && !TdsInRange(tds)
  {
    MessagesDistinct();
  }
}
