/** The program's error type, `NotificationError`, with its `Display` text,
    its `source()` and the `From` conversions into it. Foreign error values
    (I/O errors, boxed errors, D-Bus library errors) are opaque values that
    carry their message. */
module Errors {
  import opened Wrappers

  /** An operating-system I/O failure, known only by its message. */
  datatype IoError = IoError(message: string)

  datatype NotificationError =
    | SendFailed(backend: string, reason: string)
    | UnsupportedPlatform(detail: string)
    | CommandExecution(cause: IoError)
    | Other(message: string)
  {
    /** The `Display` text of the error. */
    function ToString(): (r: string)
      ensures SendFailed? ==> r == backend + SendFailedInfix + reason
      ensures UnsupportedPlatform? ==> r == UnsupportedPrefix + detail
      ensures CommandExecution? ==> r == CommandPrefix + cause.message
      ensures Other? ==> r == message
    {
      match this
      case SendFailed(b, why) => b + SendFailedInfix + why
      case UnsupportedPlatform(d) => UnsupportedPrefix + d
      case CommandExecution(e) => CommandPrefix + e.message
      case Other(m) => m
    }

    /** The underlying cause (`std::error::Error::source`). */
    function Source(): (r: Option<IoError>)
      ensures r.Some? <==> CommandExecution?
      ensures r.Some? ==> r.value == cause
    {
      match this
      case CommandExecution(e) => Some(e)
      case _ => None
    }
  }

  const SendFailedInfix := " notification failed: "
  const UnsupportedPrefix := "Unsupported platform: "
  const CommandPrefix := "Command execution error: "

  /** `From<std::io::Error>`: a failure to start a process. */
  function FromIo(e: IoError): (r: NotificationError)
    ensures r.CommandExecution? && r.cause == e
    ensures r.Source() == Some(e)
  {
    CommandExecution(e)
  }

  /** `From<String>` and `From<&str>`: the text becomes the whole message. */
  function FromMessage(msg: string): (r: NotificationError)
    ensures r.Other?
    ensures r.ToString() == msg
    ensures r.Source() == None
  {
    Other(msg)
  }

  /** `From<Box<dyn Error>>`, with the boxed error known by its `to_string`. */
  function FromBoxed(text: string): (r: NotificationError)
    ensures r == FromMessage(text)
  {
    Other(text)
  }

  /** `From<notify_rust::error::Error>`, with the library error known by its
      `to_string`: a Linux send failure. */
  function FromDbus(text: string): (r: NotificationError)
    ensures r.SendFailed? && r.backend == "Linux" && r.reason == text
    ensures r.ToString() == "Linux notification failed: " + text
  {
    SendFailed("Linux", text)
  }

  /** The display text keeps the payload: stripping the fixed prefix of an
      `UnsupportedPlatform` or `CommandExecution` text gives the payload back,
      and a `SendFailed` text starts with the backend and ends with the reason.
      So two errors of the same kind with different payloads never display
      alike. */
  lemma DisplayKeepsPayload(e: NotificationError)
    ensures e.UnsupportedPlatform? ==> e.ToString()[|UnsupportedPrefix|..] == e.detail
    ensures e.CommandExecution? ==> e.ToString()[|CommandPrefix|..] == e.cause.message
    ensures e.SendFailed? ==>
      && e.ToString()[..|e.backend|] == e.backend
      && e.ToString()[|e.ToString()| - |e.reason|..] == e.reason
  {
  }

  /** Each display of a kind determines its payload. */
  lemma {:induction false} DisplayInjectivePerKind(e1: NotificationError, e2: NotificationError)
    requires e1.ToString() == e2.ToString()
    ensures e1.UnsupportedPlatform? && e2.UnsupportedPlatform? ==> e1 == e2
    ensures e1.CommandExecution? && e2.CommandExecution? ==> e1 == e2
    ensures e1.Other? && e2.Other? ==> e1 == e2
  {
    DisplayKeepsPayload(e1);
    DisplayKeepsPayload(e2);
  }
}
