/**
 * What the two lead-capture forms have in common: the two messages they show,
 * and the reading of their three controller flags (isSubmitting, isSubmitted,
 * error) as the one status a submission attempt is in.
 */
module FormStatus {

  const InvalidEmailMessage: string := "Please enter a valid email address"
  const SendFailedMessage: string := "Something went wrong. Please try again."

  datatype Status = Idle | Submitting | Succeeded | Failed(reason: string)

  /**
   * The flag combinations the submit handlers can produce: while a send is in
   * flight nothing has succeeded and no error is shown, and a success shows no error.
   */
  predicate Consistent(isSubmitting: bool, isSubmitted: bool, error: string) {
    (isSubmitting ==> !isSubmitted && error == "") && (isSubmitted ==> error == "")
  }

  /** The status the presentation layer shows for the given flags. */
  function StatusOf(isSubmitting: bool, isSubmitted: bool, error: string): (st: Status)
    ensures Consistent(isSubmitting, isSubmitted, error) ==>
      (st.Failed? <==> error != "") && (st.Failed? ==> st.reason == error)
    ensures st == Submitting <==> isSubmitting
  {
    if isSubmitting then Submitting
    else if isSubmitted then Succeeded
    else if error != "" then Failed(error)
    else Idle
  }

  /** On consistent flags the status loses nothing: it determines all three flags. */
  lemma StatusDeterminesFlags(submitting1: bool, submitted1: bool, error1: string,
                              submitting2: bool, submitted2: bool, error2: string)
    requires Consistent(submitting1, submitted1, error1)
    requires Consistent(submitting2, submitted2, error2)
    requires StatusOf(submitting1, submitted1, error1) == StatusOf(submitting2, submitted2, error2)
    ensures submitting1 == submitting2 && submitted1 == submitted2 && error1 == error2
  {
  }
}
