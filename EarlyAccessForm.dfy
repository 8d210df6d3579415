/**
 * The controller of the early-access sign-up form (e-mail only). It runs the
 * same handler as the contact form over one field; the handler is cut at its
 * `await` in the same way (BeginSubmit, SettleSend, and Submit for both).
 */
module EarlyAccess {
  import opened EmailPattern
  import opened FormStatus

  class EarlyAccessForm {
    var email: string
    var isSubmitting: bool
    var isSubmitted: bool
    var error: string

    ghost predicate Valid()
      reads this
    {
      Consistent(isSubmitting, isSubmitted, error)
    }

    function Status(): Status
      reads this
    {
      StatusOf(isSubmitting, isSubmitted, error)
    }

    constructor ()
      ensures Valid() && Status() == Idle
      ensures email == "" && !isSubmitting && !isSubmitted && error == ""
    {
      email := "";
      isSubmitting, isSubmitted, error := false, false, "";
    }

    /** The e-mail input's change handler. */
    method EditEmail(value: string)
      modifies this`email
      ensures email == value
    {
      email := value;
    }

    /**
     * The submit handler up to its `await`: a no-op while the submit button is
     * disabled; otherwise the error is cleared and the form marked as
     * submitting, and a rejected address ends the attempt with the validation
     * message. Returns whether a send is now in flight.
     */
    method BeginSubmit() returns (sending: bool)
      requires Valid() && !isSubmitted
      modifies this`isSubmitting, this`error
      ensures Valid()
      ensures old(isSubmitting) ==> !sending && isSubmitting && error == old(error)
      ensures !old(isSubmitting) ==> (sending <==> ValidEmail(email))
      ensures !old(isSubmitting) && !ValidEmail(email) ==>
        !isSubmitting && error == InvalidEmailMessage && Status() == Failed(InvalidEmailMessage)
      ensures sending ==> isSubmitting && error == "" && Status() == Submitting
    {
      if isSubmitting {
        return false;
      }
      isSubmitting := true;
      error := "";
      if !ValidEmail(email) {
        error := InvalidEmailMessage;
        isSubmitting := false;
        return false;
      }
      sending := true;
    }

    /** The rest of the handler once the send settles: success empties the address. */
    method SettleSend(ok: bool)
      requires Valid() && isSubmitting
      modifies this
      ensures Valid() && !isSubmitting
      ensures ok ==> isSubmitted && email == "" && error == "" && Status() == Succeeded
      ensures !ok ==>
        isSubmitted == old(isSubmitted) && !isSubmitted && email == old(email)
        && error == SendFailedMessage && Status() == Failed(SendFailedMessage)
    {
      if ok {
        isSubmitted := true;
        email := "";
      } else {
        error := SendFailedMessage;
      }
      isSubmitting := false;
    }

    /** The whole submit handler, with the send settling as sendOk says. */
    method Submit(sendOk: bool)
      requires Valid() && !isSubmitted
      modifies this
      ensures Valid()
      ensures old(isSubmitting) ==> unchanged(this)
      ensures !old(isSubmitting) ==> !isSubmitting
      ensures !old(isSubmitting) && !ValidEmail(old(email)) ==>
        error == InvalidEmailMessage && isSubmitted == old(isSubmitted) && email == old(email)
      ensures !old(isSubmitting) && ValidEmail(old(email)) && sendOk ==>
        isSubmitted && email == "" && error == ""
      ensures !old(isSubmitting) && ValidEmail(old(email)) && !sendOk ==>
        error == SendFailedMessage && !isSubmitted && email == old(email)
    {
      var sending := BeginSubmit();
      if sending {
        SettleSend(sendOk);
      }
    }

    /** "Submit another email": back to the form, nothing else changes. */
    method SubmitAnother()
      requires Valid()
      modifies this`isSubmitted
      ensures Valid() && !isSubmitted
      ensures old(Status()) == Succeeded ==> Status() == Idle
    {
      isSubmitted := false;
    }
  }

  /** A good address is accepted and cleared; "submit another" shows an empty, idle form. */
  method SignupScenario() {
    AcceptedSignupSample();
    var f := new EarlyAccessForm();
    f.EditEmail("user@example.com");
    f.Submit(true);
    assert f.Status() == Succeeded && f.email == "" && f.error == "";
    f.SubmitAnother();
    assert f.Status() == Idle && f.email == "" && f.error == "";
  }

  /** A malformed address is refused and kept for correction. */
  method RejectedSignupScenario() {
    var f := new EarlyAccessForm();
    f.EditEmail("bad-email");
    RejectedShapeSamples();
    f.Submit(true);
    assert f.Status() == Failed(InvalidEmailMessage) && f.email == "bad-email";
  }
}
