/**
 * The controller of the contact form (name, e-mail, message). The submit
 * handler is cut at its `await`: BeginSubmit is the part that runs when the
 * form is submitted, SettleSend the part that runs when the send settles
 * (ok for the `try` path, not ok for the `catch` path), and Submit is the two
 * with no event in between. The bundled send is a one-second timer that only
 * resolves, so the not-ok path stands for a real send that can fail.
 */
module Contact {
  import opened EmailPattern
  import opened FormStatus

  class ContactForm {
    var name: string
    var email: string
    var message: string
    var isSubmitting: bool
    var isSubmitted: bool
    var error: string

    ghost predicate Valid()
      reads this
    {
      Consistent(isSubmitting, isSubmitted, error)
    }

    function Status(): Status
      reads this
    {
      StatusOf(isSubmitting, isSubmitted, error)
    }

    constructor ()
      ensures Valid() && Status() == Idle
      ensures name == "" && email == "" && message == ""
      ensures !isSubmitting && !isSubmitted && error == ""
    {
      name, email, message := "", "", "";
      isSubmitting, isSubmitted, error := false, false, "";
    }

    /** The name input's change handler. */
    method EditName(value: string)
      modifies this`name
      ensures name == value
    {
      name := value;
    }

    /** The e-mail input's change handler. */
    method EditEmail(value: string)
      modifies this`email
      ensures email == value
    {
      email := value;
    }

    /** The message input's change handler. */
    method EditMessage(value: string)
      modifies this`message
      ensures message == value
    {
      message := value;
    }

    /**
     * The submit handler up to its `await`. While a send is in flight the submit
     * button is disabled, so a submit then changes nothing. Otherwise the error
     * is cleared and the form marked as submitting; an address the pattern
     * rejects ends the attempt with the validation message. Returns whether a
     * send is now in flight.
     */
    method BeginSubmit() returns (sending: bool)
      requires Valid() && !isSubmitted
      modifies this`isSubmitting, this`error
      ensures Valid()
      ensures old(isSubmitting) ==> !sending && isSubmitting && error == old(error)
      ensures !old(isSubmitting) ==> (sending <==> ValidEmail(email))
      ensures !old(isSubmitting) && !ValidEmail(email) ==>
        !isSubmitting && error == InvalidEmailMessage && Status() == Failed(InvalidEmailMessage)
      ensures sending ==> isSubmitting && error == "" && Status() == Submitting
    {
      if isSubmitting {
        return false;
      }
      isSubmitting := true;
      error := "";
      if !ValidEmail(email) {
        error := InvalidEmailMessage;
        isSubmitting := false;
        return false;
      }
      sending := true;
    }

    /**
     * The rest of the submit handler, once the send settles: on success the form
     * is marked submitted and every field emptied; on failure the failure message
     * is shown and the fields are kept. Either way the form stops submitting.
     */
    method SettleSend(ok: bool)
      requires Valid() && isSubmitting
      modifies this
      ensures Valid() && !isSubmitting
      ensures ok ==>
        isSubmitted && name == "" && email == "" && message == ""
        && error == "" && Status() == Succeeded
      ensures !ok ==>
        isSubmitted == old(isSubmitted) && !isSubmitted
        && name == old(name) && email == old(email) && message == old(message)
        && error == SendFailedMessage && Status() == Failed(SendFailedMessage)
    {
      if ok {
        isSubmitted := true;
        name := "";
        email := "";
        message := "";
      } else {
        error := SendFailedMessage;
      }
      isSubmitting := false;
    }

    /** The whole submit handler, with the send settling as sendOk says. */
    method Submit(sendOk: bool)
      requires Valid() && !isSubmitted
      modifies this
      ensures Valid()
      ensures old(isSubmitting) ==> unchanged(this)
      ensures !old(isSubmitting) ==> !isSubmitting
      ensures !old(isSubmitting) && !ValidEmail(old(email)) ==>
        error == InvalidEmailMessage && isSubmitted == old(isSubmitted)
        && name == old(name) && email == old(email) && message == old(message)
      ensures !old(isSubmitting) && ValidEmail(old(email)) && sendOk ==>
        isSubmitted && name == "" && email == "" && message == "" && error == ""
      ensures !old(isSubmitting) && ValidEmail(old(email)) && !sendOk ==>
        error == SendFailedMessage && isSubmitted == old(isSubmitted)
        && name == old(name) && email == old(email) && message == old(message)
    {
      var sending := BeginSubmit();
      if sending {
        SettleSend(sendOk);
      }
    }

    /** "Send another message": back to the form; the fields stay as they are. */
    method SubmitAnother()
      requires Valid()
      modifies this`isSubmitted
      ensures Valid() && !isSubmitted
      ensures old(Status()) == Succeeded ==> Status() == Idle
    {
      isSubmitted := false;
    }
  }

  /** Name, address and message sent; the form is emptied and stays empty after "send another". */
  method SuccessfulContactScenario() {
    var f := new ContactForm();
    f.EditName("Jane");
    f.EditEmail("jane@x.com");
    f.EditMessage("hello");
    AcceptedContactSample();
    f.Submit(true);
    assert f.isSubmitted && f.Status() == Succeeded;
    assert f.name == "" && f.email == "" && f.message == "" && f.error == "";
    f.SubmitAnother();
    assert f.Status() == Idle && f.name == "" && f.email == "" && f.message == "";
  }

  /** A rejected address keeps every field; the user may retry at once. */
  method RejectedContactScenario() {
    var f := new ContactForm();
    f.EditName("Jane");
    f.EditEmail("bad-email");
    f.EditMessage("hello");
    RejectedShapeSamples();
    f.Submit(true);
    assert f.Status() == Failed(InvalidEmailMessage);
    assert f.name == "Jane" && f.email == "bad-email" && f.message == "hello";
    f.EditEmail("jane@x.com");
    AcceptedContactSample();
    var sending := f.BeginSubmit();
    assert sending && f.Status() == Submitting;
    var again := f.BeginSubmit();
    assert !again && f.Status() == Submitting;
    f.SettleSend(false);
    assert f.Status() == Failed(SendFailedMessage) && f.email == "jane@x.com";
  }
}
