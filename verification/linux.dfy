/** The Linux backend: a desktop notification over D-Bus through the
    notify-rust library. The library call is a parameter (`show`), given the
    request the backend builds and answering None on success or the library's
    error message. A build for any other target gets a stub that always
    refuses. */
module Linux {
  import opened Wrappers
  import opened Errors
  import N = Notifications

  /** The library's expiry setting. */
  datatype Timeout = Never | Milliseconds(ms: N.u32)

  /** The library's urgency scale. */
  datatype Urgency = Low | Normal | Critical

  /** A timeout of 0 means the notification never expires. */
  function ToTimeout(ms: N.u32): (t: Timeout)
    ensures t == Never <==> ms == 0
    ensures t.Milliseconds? ==> t.ms == ms
  {
    if ms == 0 then Never else Milliseconds(ms)
  }

  /** The millisecond count a library timeout stands for (0 for never). */
  function TimeoutMillis(t: Timeout): N.u32 {
    match t
    case Never => 0
    case Milliseconds(ms) => ms
  }

  /** The timeout conversion loses nothing, and its results are exactly the
      library timeouts other than an explicit zero. */
  lemma TimeoutConversionInverts(ms: N.u32, t: Timeout)
    ensures TimeoutMillis(ToTimeout(ms)) == ms
    ensures t != Milliseconds(0) ==> ToTimeout(TimeoutMillis(t)) == t
    ensures ToTimeout(ms) != Milliseconds(0)
  {
  }

  function ToUrgency(u: N.UrgencyLevel): (r: Urgency)
    ensures r.Low? <==> u.Low?
    ensures r.Normal? <==> u.Normal?
    ensures r.Critical? <==> u.Critical?
  {
    match u
    case Low => Low
    case Normal => Normal
    case Critical => Critical
  }

  function FromUrgency(r: Urgency): N.UrgencyLevel {
    match r
    case Low => N.UrgencyLevel.Low
    case Normal => N.UrgencyLevel.Normal
    case Critical => N.UrgencyLevel.Critical
  }

  /** The urgency mapping is a bijection between the two three-level scales. */
  lemma UrgencyBijection(u: N.UrgencyLevel, r: Urgency)
    ensures FromUrgency(ToUrgency(u)) == u
    ensures ToUrgency(FromUrgency(r)) == r
  {
  }

  /** The arguments the library's notification builder receives. */
  datatype DbusRequest = DbusRequest(summary: string, body: string, icon: string, timeout: Timeout, urgency: Urgency)

  /** Title as summary, message as body, the icon unchanged, and the
      converted timeout and urgency. */
  function RequestFor(n: N.Notification): (r: DbusRequest)
    ensures r.summary == n.title && r.body == n.message && r.icon == n.icon
    ensures TimeoutMillis(r.timeout) == n.timeout && (r.timeout == Never <==> n.timeout == 0)
    ensures FromUrgency(r.urgency) == n.urgency
  {
    DbusRequest(n.title, n.message, n.icon, ToTimeout(n.timeout), ToUrgency(n.urgency))
  }

  const StubReason := "Linux notification requires a binary compiled for Linux"

  /** `is_available`: true exactly in a build for Linux. */
  function IsAvailable(os: string): (r: bool)
    ensures r <==> os == "linux"
  {
    os == "linux"
  }

  function BackendName(os: string): (r: string)
    ensures os == "linux" ==> r == "Linux (D-Bus)"
    ensures os != "linux" ==> r == "Linux (unavailable)"
  {
    if os == "linux" then "Linux (D-Bus)" else "Linux (unavailable)"
  }

  /** `send`: in a Linux build, the library call succeeds or its error becomes
      a Linux `SendFailed`; in any other build, always `UnsupportedPlatform`. */
  function Send(n: N.Notification, os: string, show: DbusRequest -> Option<string>): (r: Result<(), NotificationError>)
    ensures os != "linux" ==> r == Err(UnsupportedPlatform(StubReason))
    ensures os == "linux" ==> (r.Ok? <==> show(RequestFor(n)).None?)
    ensures os == "linux" && show(RequestFor(n)).Some? ==>
      r == Err(SendFailed("Linux", show(RequestFor(n)).value))
  {
    if os != "linux" then Err(UnsupportedPlatform(StubReason))
    else
      match show(RequestFor(n))
      case None => Ok(())
      case Some(message) => Err(FromDbus(message))
  }
}
