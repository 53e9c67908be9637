/** The IT ticket form on the parent and educator portals: both fields
    must hold more than white space, the ticket is sent as typed, and a
    successful submission empties the form. `reportIssue`'s outcome is a
    parameter. */
module SubmitTicket {
  import opened Outcomes
  import opened Text
  import opened Issues

  const BlankMessage := "Please fill in both fields"
  const SubmittedMessage := "IT ticket submitted successfully! Our team will review it shortly."
  const SubmitFailurePrefix := "Failed to submit ticket: "

  /** `!issue.trim() || !description.trim()`: one of the fields is nothing
      but white space. */
  function Unfilled(issue: string, description: string): (b: bool)
    ensures b <==> IsBlank(issue) || IsBlank(description)
  {
    TrimEmptyIffBlank(issue);
    TrimEmptyIffBlank(description);
    Trim(issue) == "" || Trim(description) == ""
  }

  class SubmitTicketForm {
    var issue: string
    var description: string
    var submitting: bool
    var error: string
    var success: string

    constructor ()
      ensures issue == "" && description == "" && !submitting && error == "" && success == ""
    {
      issue, description, submitting, error, success := "", "", false, "", "";
    }

    /** Typing in the two fields. */
    method SetIssue(value: string)
      modifies this
      ensures issue == value && description == old(description)
      ensures error == old(error) && success == old(success) && submitting == old(submitting)
    {
      issue := value;
    }

    method SetDescription(value: string)
      modifies this
      ensures description == value && issue == old(issue)
      ensures error == old(error) && success == old(success) && submitting == old(submitting)
    {
      description := value;
    }

    /** The Submit button: `result` is what `reportIssue` did with the
        returned ticket, which is sent only when neither field is blank
        (stated as `IsBlank`, which `Unfilled` shows is what the `trim()`
        test decides). */
    method HandleSubmit(result: Outcome<()>) returns (sent: Option<Ticket>)
      modifies this
      ensures sent.None? <==> IsBlank(old(issue)) || IsBlank(old(description))
      ensures sent.None? ==>
        error == BlankMessage && success == old(success)
        && issue == old(issue) && description == old(description) && submitting == old(submitting)
      ensures sent.Some? ==> sent.value == Ticket(old(issue), old(description)) && !submitting
      ensures sent.Some? && result.Done? ==>
        success == SubmittedMessage && error == "" && issue == "" && description == ""
      ensures sent.Some? && result.Threw? ==>
        success == "" && error == SubmitFailurePrefix + result.err.message
        && issue == old(issue) && description == old(description)
    {
      if IsBlank(issue) || IsBlank(description) {
        error := BlankMessage;
        return None;
      }
      submitting := true;
      error := "";
      success := "";
      sent := Some(Ticket(issue, description));
      if result.Done? {
        success := SubmittedMessage;
        issue := "";
        description := "";
      } else {
        error := SubmitFailurePrefix + result.err.message;
      }
      submitting := false;
    }

    /** The five-second timer a successful submission starts. */
    method SuccessTimerFired()
      modifies this
      ensures success == "" && error == old(error) && issue == old(issue) && description == old(description)
    {
      success := "";
    }
  }

  /** After a successful submission the emptied form refuses to send again
      until something is typed. */
  method SubmitTwice(issue: string, description: string, first: Outcome<()>, second: Outcome<()>)
    returns (sentFirst: Option<Ticket>, sentSecond: Option<Ticket>)
    requires !IsBlank(issue) && !IsBlank(description)
    ensures sentFirst == Some(Ticket(issue, description))
    ensures first.Done? ==> sentSecond.None?
    ensures first.Threw? ==> sentSecond == sentFirst
  {
    var form := new SubmitTicketForm();
    form.SetIssue(issue);
    form.SetDescription(description);
    sentFirst := form.HandleSubmit(first);
    sentSecond := form.HandleSubmit(second);
  }
}
