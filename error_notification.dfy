/** The error notification card: the error code it derives from the clock,
    the details it copies to the clipboard, the report it sends to IT, and
    its sending/sent/copied flags. The clock, the clipboard and the
    `reportIssue` call are parameters holding their values or outcomes. */
module ErrorNotification {
  import opened Outcomes
  import opened Text
  import opened Issues

  /** The error being shown: `{ title, message }`, either may be missing. */
  datatype ErrorInfo = ErrorInfo(title: Option<string>, message: Option<string>)

  const CodePrefix := "ERR-"

  /** `ERR-` and the upper-cased base-36 text of the clock's milliseconds. */
  function ErrorCode(now: nat): (code: string)
    ensures StartsWith(code, CodePrefix) && |code| > |CodePrefix|
    ensures code[|CodePrefix|..] == UpperAll(ToBase36(now))
  {
    assert (CodePrefix + UpperAll(ToBase36(now)))[..|CodePrefix|] == CodePrefix;
    CodePrefix + UpperAll(ToBase36(now))
  }

  /** Codes taken at different milliseconds differ. */
  lemma ErrorCodeInjective(a: nat, b: nat)
    requires ErrorCode(a) == ErrorCode(b)
    ensures a == b
  {
    assert ErrorCode(a)[|CodePrefix|..] == ErrorCode(b)[|CodePrefix|..];
    UpperBase36Injective(a, b);
  }

  /** After the prefix a code has only digits and upper-case letters. */
  lemma ErrorCodeAlphabet(now: nat)
    ensures forall i :: |CodePrefix| <= i < |ErrorCode(now)| ==>
      var c := ErrorCode(now)[i]; '0' <= c <= '9' || 'A' <= c <= 'Z'
  {
    var code := ErrorCode(now);
    UpperBase36Alphabet(now);
    forall i | |CodePrefix| <= i < |code| ensures '0' <= code[i] <= '9' || 'A' <= code[i] <= 'Z' {
      assert code[i] == UpperAll(ToBase36(now))[i - |CodePrefix|];
    }
  }

  /** The card's heading and message, with their defaults. */
  function ShownTitle(e: ErrorInfo): string { OptOrElse(e.title, "Error Occurred") }
  function ShownMessage(e: ErrorInfo): string { OptOrElse(e.message, "An unexpected error occurred.") }

  /** The title and message as copied and reported, with their defaults. */
  function ReportedTitle(e: ErrorInfo): string { OptOrElse(e.title, "Unknown Error") }
  function ReportedMessage(e: ErrorInfo): string { OptOrElse(e.message, "No description available") }

  /** The text the copy button puts on the clipboard; `localTime` is the
      clock in the browser's locale format. */
  function ErrorDetails(e: ErrorInfo, code: string, localTime: string): (d: string)
    ensures StartsWith(d, "Error Code: " + code)
    ensures Contains(d, ReportedTitle(e)) && Contains(d, ReportedMessage(e))
    ensures Contains(d, code) && Contains(d, localTime)
  {
    var t := ReportedTitle(e);
    var m := ReportedMessage(e);
    var withCode := "Error Code: " + code;
    var withTitle := withCode + "\n\nIssue: " + t;
    var withMessage := withTitle + "\n\nDescription: " + m;
    var d := withMessage + "\n\nTimestamp: " + localTime;
    assert d[..|withCode|] == withCode;
    ContainsSuffix("Error Code: ", code);
    ContainsExtend(withCode, code, "\n\nIssue: ");
    ContainsExtend(withCode + "\n\nIssue: ", code, t);
    ContainsSuffix(withCode + "\n\nIssue: ", t);
    ContainsExtend(withTitle, code, "\n\nDescription: ");
    ContainsExtend(withTitle, t, "\n\nDescription: ");
    ContainsExtend(withTitle + "\n\nDescription: ", code, m);
    ContainsExtend(withTitle + "\n\nDescription: ", t, m);
    ContainsSuffix(withTitle + "\n\nDescription: ", m);
    ContainsExtend(withMessage, code, "\n\nTimestamp: ");
    ContainsExtend(withMessage, t, "\n\nTimestamp: ");
    ContainsExtend(withMessage, m, "\n\nTimestamp: ");
    ContainsExtend(withMessage + "\n\nTimestamp: ", code, localTime);
    ContainsExtend(withMessage + "\n\nTimestamp: ", t, localTime);
    ContainsExtend(withMessage + "\n\nTimestamp: ", m, localTime);
    ContainsSuffix(withMessage + "\n\nTimestamp: ", localTime);
    d
  }

  /** The report `Send to IT` files; `isoTime` is the clock in ISO 8601. */
  function Report(e: ErrorInfo, code: string, isoTime: string): (t: Ticket)
    ensures t.issue == ReportedTitle(e)
    ensures StartsWith(t.description, ReportedMessage(e))
    ensures Contains(t.description, code) && Contains(t.description, isoTime)
  {
    var m := ReportedMessage(e);
    var withCode := m + "\n\nError Code: " + code;
    var d := withCode + "\nTimestamp: " + isoTime;
    assert d[..|m|] == m;
    ContainsSuffix(m + "\n\nError Code: ", code);
    ContainsExtend(withCode, code, "\nTimestamp: ");
    ContainsExtend(withCode + "\nTimestamp: ", code, isoTime);
    ContainsSuffix(withCode + "\nTimestamp: ", isoTime);
    Ticket(ReportedTitle(e), d)
  }

  /** One render of the card. */
  datatype Card = Card(heading: string, code: string, message: string, details: string)

  /** What the notification renders for the current error: nothing when
      there is none; `now` and `localTime` are the clock at render time. */
  function Render(error: Option<ErrorInfo>, now: nat, localTime: string): (c: Option<Card>)
    ensures c.None? <==> error.None?
    ensures c.Some? ==> c.value.heading == ShownTitle(error.value) && c.value.message == ShownMessage(error.value)
    ensures c.Some? ==> c.value.code == ErrorCode(now)
    ensures c.Some? ==> c.value.details == ErrorDetails(error.value, c.value.code, localTime)
  {
    match error
    case None => None
    case Some(e) =>
      var code := ErrorCode(now);
      Some(Card(ShownTitle(e), code, ShownMessage(e), ErrorDetails(e, code, localTime)))
  }

  /** The code on the card is the one both the copied details and the
      report carry. */
  lemma CardCodeTravels(e: ErrorInfo, now: nat, localTime: string, isoTime: string)
    ensures var card := Render(Some(e), now, localTime).value;
      && StartsWith(card.details, "Error Code: " + ErrorCode(now))
      && Contains(Report(e, card.code, isoTime).description, ErrorCode(now))
  {
  }

  const SendFailureAlert := "Failed to send error report. Please try again or contact IT directly."

  /** The card's hook state. */
  class ErrorNotification {
    var sending: bool
    var sent: bool
    var copied: bool

    constructor ()
      ensures !sending && !sent && !copied
    {
      sending, sent, copied := false, false, false;
    }

    /** The Send to IT button is disabled while sending and once sent. */
    function SendDisabled(): (d: bool)
      reads this
      ensures d <==> sending || sent
    {
      sending || sent
    }

    function SendLabel(): (caption: string)
      reads this
      ensures sending ==> caption == "Sending..."
      ensures !sending && sent ==> caption == "Sent to IT"
      ensures !sending && !sent ==> caption == "Send to IT"
    {
      if sending then "Sending..." else if sent then "Sent to IT" else "Send to IT"
    }

    function CopyLabel(): (caption: string)
      reads this
      ensures caption == (if copied then "Copied!" else "Copy Error")
    {
      if copied then "Copied!" else "Copy Error"
    }

    /** The "Report sent to IT department successfully!" banner. */
    function ShowsSentBanner(): (b: bool)
      reads this
      ensures b == sent
    {
      sent
    }

    /** The copy button: `written` is what the clipboard write did. A
        failure is only logged. */
    method HandleCopy(written: Outcome<()>)
      modifies this
      ensures copied == (old(copied) || written.Done?)
      ensures sending == old(sending) && sent == old(sent)
    {
      if written.Done? {
        copied := true;
      }
    }

    /** The two-second timer the copy button starts. */
    method CopiedTimerFired()
      modifies this
      ensures !copied && sending == old(sending) && sent == old(sent)
    {
      copied := false;
    }

    /** The Send to IT button for the error `e` shown with `code`: `result`
        is what `reportIssue` did. Success marks the report sent and starts
        the two-second timer that closes the card; failure raises an alert.
        Either way sending is over. */
    method HandleSendToIT(e: ErrorInfo, code: string, isoTime: string, result: Outcome<()>)
      returns (ticket: Ticket, closeScheduled: bool, alert: Option<string>, ghost whileWaiting: bool)
      modifies this
      ensures ticket == Report(e, code, isoTime)
      ensures whileWaiting && !sending
      ensures sent == (old(sent) || result.Done?)
      ensures closeScheduled == result.Done?
      ensures alert == (if result.Threw? then Some(SendFailureAlert) else None)
      ensures copied == old(copied)
    {
      sending := true;
      whileWaiting := sending;
      ticket := Report(e, code, isoTime);
      if result.Done? {
        sent := true;
        closeScheduled, alert := true, None;
      } else {
        closeScheduled, alert := false, Some(SendFailureAlert);
      }
      sending := false;
    }
  }

  /** Sending a report and what the card then shows: after a successful
      send the button reads "Sent to IT" and is disabled and the banner is
      up; after a failed one the button reads "Send to IT" again and can be
      pressed once more. */
  method SendThenCaptions(e: ErrorInfo, code: string, isoTime: string, result: Outcome<()>)
    returns (caption: string, disabled: bool, banner: bool)
    ensures result.Done? ==> caption == "Sent to IT" && disabled && banner
    ensures result.Threw? ==> caption == "Send to IT" && !disabled && !banner
  {
    var card := new ErrorNotification();
    var _, _, _, _ := card.HandleSendToIT(e, code, isoTime, result);
    caption := card.SendLabel();
    disabled := card.SendDisabled();
    banner := card.ShowsSentBanner();
  }

  /** Copying and the timer that follows: a successful copy reads
      "Copied!" until the timer fires, and "Copy Error" afterwards. */
  method CopyThenTimer(written: Outcome<()>) returns (during: string, after: string)
    ensures during == (if written.Done? then "Copied!" else "Copy Error")
    ensures after == "Copy Error"
  {
    var card := new ErrorNotification();
    card.HandleCopy(written);
    during := card.CopyLabel();
    card.CopiedTimerFired();
    after := card.CopyLabel();
  }
}
