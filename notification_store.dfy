/**
 * The notification store: a single toast slot. Every call that shows a message
 * overwrites the slot; hiding only closes it.
 */
module NotificationStore {
  import opened Js

  datatype Severity = Success | Info | Warning | Error
  datatype Vertical = Top | Bottom
  datatype Horizontal = Left | Center | Right

  /** The options of `showNotification`; `None` is an omitted property. */
  datatype Options = Options(
    severity: Option<Severity>,
    autoHideDuration: Option<int>,
    vertical: Option<Vertical>,
    horizontal: Option<Horizontal>)

  const DefaultDuration := 6000
  const ErrorDuration := 8000

  /** A destructuring default: used only when the property is undefined. */
  function Default<T>(o: Option<T>, d: T): (r: T)
    ensures o.Some? ==> r == o.value
    ensures o.None? ==> r == d
  {
    if o.Some? then o.value else d
  }

  /** `duration || fallback`: a missing or zero duration falls back. */
  function DurationOr(duration: Option<int>, fallback: int): (r: int)
    ensures duration.Some? && duration.value != 0 ==> r == duration.value
    ensures duration.None? || duration.value == 0 ==> r == fallback
  {
    if duration.Some? && duration.value != 0 then duration.value else fallback
  }

  class Notifier {
    var open: bool
    var message: string
    var severity: Severity
    var autoHideDuration: int
    var vertical: Vertical
    var horizontal: Horizontal

    /** The initial state: closed, empty, 'info', 6000 ms, bottom centre. */
    constructor ()
      ensures !open && message == "" && severity == Info && autoHideDuration == 6000
      ensures vertical == Bottom && horizontal == Center
    {
      open, message, severity, autoHideDuration := false, "", Info, DefaultDuration;
      vertical, horizontal := Bottom, Center;
    }

    /** `showNotification`: opens with the message; omitted options take 'info', 6000, bottom, centre. */
    method ShowNotification(msg: string, opts: Options)
      modifies this
      ensures open && message == msg
      ensures severity == (if opts.severity.Some? then opts.severity.value else Info)
      ensures autoHideDuration == (if opts.autoHideDuration.Some? then opts.autoHideDuration.value else 6000)
      ensures vertical == (if opts.vertical.Some? then opts.vertical.value else Bottom)
      ensures horizontal == (if opts.horizontal.Some? then opts.horizontal.value else Center)
    {
      open, message := true, msg;
      severity := Default(opts.severity, Info);
      autoHideDuration := Default(opts.autoHideDuration, DefaultDuration);
      vertical := Default(opts.vertical, Bottom);
      horizontal := Default(opts.horizontal, Center);
    }

    /** `hideNotification`: closes the toast and keeps everything else. */
    method HideNotification()
      modifies this
      ensures !open
      ensures message == old(message) && severity == old(severity) && autoHideDuration == old(autoHideDuration)
      ensures vertical == old(vertical) && horizontal == old(horizontal)
    {
      open := false;
    }

    /** The shortcuts share this: open, overwrite message, severity and duration; position stays. */
    method Show(msg: string, sev: Severity, duration: Option<int>, fallback: int)
      modifies this
      ensures open && message == msg && severity == sev
      ensures autoHideDuration == (if duration.Some? && duration.value != 0 then duration.value else fallback)
      ensures vertical == old(vertical) && horizontal == old(horizontal)
    {
      open, message, severity := true, msg, sev;
      autoHideDuration := DurationOr(duration, fallback);
    }

    /** `showSuccess`. */
    method ShowSuccess(msg: string, duration: Option<int>)
      modifies this
      ensures open && message == msg && severity == Success
      ensures autoHideDuration == (if duration.Some? && duration.value != 0 then duration.value else 6000)
      ensures vertical == old(vertical) && horizontal == old(horizontal)
    {
      Show(msg, Success, duration, DefaultDuration);
    }

    /** `showError`: the fallback duration is 8000. */
    method ShowError(msg: string, duration: Option<int>)
      modifies this
      ensures open && message == msg && severity == Error
      ensures autoHideDuration == (if duration.Some? && duration.value != 0 then duration.value else 8000)
      ensures vertical == old(vertical) && horizontal == old(horizontal)
    {
      Show(msg, Error, duration, ErrorDuration);
    }

    /** `showWarning`. */
    method ShowWarning(msg: string, duration: Option<int>)
      modifies this
      ensures open && message == msg && severity == Warning
      ensures autoHideDuration == (if duration.Some? && duration.value != 0 then duration.value else 6000)
      ensures vertical == old(vertical) && horizontal == old(horizontal)
    {
      Show(msg, Warning, duration, DefaultDuration);
    }

    /** `showInfo`. */
    method ShowInfo(msg: string, duration: Option<int>)
      modifies this
      ensures open && message == msg && severity == Info
      ensures autoHideDuration == (if duration.Some? && duration.value != 0 then duration.value else 6000)
      ensures vertical == old(vertical) && horizontal == old(horizontal)
    {
      Show(msg, Info, duration, DefaultDuration);
    }
  }

  /** An explicit 0 survives `showNotification` but not the shortcuts, which treat it as missing. */
  method ZeroDuration() returns (viaOptions: int, viaShortcut: int)
    ensures viaOptions == 0 && viaShortcut == 6000
  {
    var n := new Notifier();
    n.ShowNotification("saved", Options(None, Some(0), None, None));
    viaOptions := n.autoHideDuration;
    n.ShowSuccess("saved", Some(0));
    viaShortcut := n.autoHideDuration;
  }
}
