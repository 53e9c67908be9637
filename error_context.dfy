/** The error context: the one error currently shown, the two actions
    pages use to show and clear it, the hook that reaches the context, and
    the notification card the provider always renders. */
module ErrorContext {
  import opened Outcomes
  import opened ErrorNotification

  const OutsideProviderMessage := "useError must be used within ErrorProvider"

  /** `useError()`: the context value when rendered inside the provider,
      else the error the hook throws. */
  function UseError<C>(context: Option<C>): (r: Outcome<C>)
    ensures r.Done? <==> context.Some?
    ensures r.Done? ==> r.value == context.value
    ensures r.Threw? ==> r.err == JsError(None, OutsideProviderMessage)
  {
    match context
    case Some(c) => Done(c)
    case None => Threw(JsError(None, OutsideProviderMessage))
  }

  class ErrorProvider {
    var currentError: Option<ErrorInfo>
    /** The hook state of the notification card the provider renders. */
    var notification: ErrorNotification

    constructor ()
      ensures currentError == None && fresh(notification)
      ensures !notification.sending && !notification.sent && !notification.copied
    {
      currentError := None;
      notification := new ErrorNotification();
    }

    /** `showError(title, message)`, with the card remounted for the new
        error so that it starts with fresh flags. */
    method ShowError(title: Option<string>, message: Option<string>)
      modifies this
      ensures currentError == Some(ErrorInfo(title, message)) && fresh(notification)
      ensures !notification.sending && !notification.sent && !notification.copied
    {
      currentError := Some(ErrorInfo(title, message));
      notification := new ErrorNotification();
    }

    /** `showError(title, message)` as written: the card stays mounted, so
        its flags carry over from the previous error. */
    method ShowErrorAsWritten(title: Option<string>, message: Option<string>)
      modifies this
      ensures currentError == Some(ErrorInfo(title, message)) && notification == old(notification)
    {
      currentError := Some(ErrorInfo(title, message));
    }

    /** `clearError()`, the card's close action; clearing is idempotent. */
    method ClearError()
      modifies this
      ensures currentError == None && notification == old(notification)
    {
      currentError := None;
    }

    /** What the card renders for the current error. */
    function Shown(now: nat, localTime: string): (c: Option<Card>)
      reads this
      ensures c.Some? <==> currentError.Some?
      ensures c.Some? ==> c.value == Render(currentError, now, localTime).value
    {
      Render(currentError, now, localTime)
    }
  }

  /** As written: once one error has been sent to IT and the card closed,
      the next error already shows the "sent" banner and a disabled Send to
      IT button, so it cannot be reported. */
  method SentFlagOutlivesItsErrorAsWritten(first: ErrorInfo, second: ErrorInfo, code: string, isoTime: string)
    returns (banner: bool, sendDisabled: bool)
    ensures banner && sendDisabled
  {
    var provider := new ErrorProvider();
    provider.ShowErrorAsWritten(first.title, first.message);
    var card := provider.notification;
    var _, _, _, _ := card.HandleSendToIT(first, code, isoTime, Done(()));
    provider.ClearError();
    provider.ShowErrorAsWritten(second.title, second.message);
    banner := provider.notification.ShowsSentBanner();
    sendDisabled := provider.notification.SendDisabled();
  }

  /** With the card remounted per error, the next error after a report can
      be sent again and shows no banner. */
  method NextErrorCanBeSent(first: ErrorInfo, second: ErrorInfo, code: string, isoTime: string)
    returns (banner: bool, sendDisabled: bool)
    ensures !banner && !sendDisabled
  {
    var provider := new ErrorProvider();
    provider.ShowError(first.title, first.message);
    var card := provider.notification;
    var _, _, _, _ := card.HandleSendToIT(first, code, isoTime, Done(()));
    provider.ClearError();
    provider.ShowError(second.title, second.message);
    banner := provider.notification.ShowsSentBanner();
    sendDisabled := provider.notification.SendDisabled();
  }

  /** Showing an error renders its card with the defaulted heading and
      message and the clock's code; clearing it renders nothing. */
  method ShowThenClear(title: Option<string>, message: Option<string>, now: nat, localTime: string)
    returns (shown: Option<Card>, cleared: Option<Card>)
    ensures shown.Some?
    ensures shown.value.heading == OptOrElse(title, "Error Occurred")
    ensures shown.value.message == OptOrElse(message, "An unexpected error occurred.")
    ensures shown.value.code == ErrorCode(now)
    ensures cleared.None?
  {
    var provider := new ErrorProvider();
    provider.ShowError(title, message);
    shown := provider.Shown(now, localTime);
    provider.ClearError();
    cleared := provider.Shown(now, localTime);
  }
}
