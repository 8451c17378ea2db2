/**
 * The outcome of sending one email through the hook shared by the booking
 * and contact forms, as far as the forms can observe it: the email service
 * itself and the hook's toasts are not modelled.
 */
module EmailService {

  /** How the email service handled one message. */
  datatype SendOutcome =
    | Answered(status: int)   // the service answered with an HTTP status
    | Failed                  // the call threw

  /** What `sendBookingEmail` and `sendContactEmail` return when they do not throw. */
  predicate StatusOk(o: SendOutcome)
    requires o.Answered?
  {
    o.status == 200
  }

  /**
   * What the hook's `sendBooking` and `sendContact` return: they catch every
   * error and return false, and otherwise return true without looking at
   * the helper's result.
   */
  predicate SendReported(o: SendOutcome)
  {
    !o.Failed?
  }

  /**
   * Every answered send is reported as a success, whatever its status, and a
   * send that threw as a failure; the helper's own result, true only for
   * status 200, never reaches the forms.
   */
  lemma ReportIgnoresStatus(status: int)
    ensures SendReported(Answered(status)) && !SendReported(Failed)
    ensures StatusOk(Answered(status)) <==> status == 200
    ensures status != 200 ==> SendReported(Answered(status)) != StatusOk(Answered(status))
  {
  }
}
