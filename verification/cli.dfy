/** The command-line front end: the parsed arguments, their two enumerations,
    and the conversion of an argument set into a notification builder. Parsing
    the command line itself is not modelled; `Args` is its result. */
module Cli {
  import opened Wrappers
  import P = Platforms
  import N = Notifications

  /** The urgency values the command line accepts. */
  datatype CliUrgencyLevel = Low | Normal | Critical

  /** The backends `--backend` can force. There is no way to ask for WSL or
      for an unknown platform. */
  datatype CliBackend = Linux | Windows | Macos

  /** Every option after parsing, absent options already at their defaults. */
  datatype Args = Args(
    title: string,
    message: string,
    timeout: N.u32,
    icon: string,
    urgency: CliUrgencyLevel,
    subtitle: string,
    sound: string,
    backend: Option<CliBackend>)

  /** The option defaults the parser fills in; only the message is required. */
  function WithDefaults(message: string): (a: Args)
    ensures a.message == message && a.backend.None?
    ensures a.title == N.DefaultTitle && a.timeout == N.DefaultTimeout
    ensures a.icon == N.DefaultIcon && ToUrgencyLevel(a.urgency) == N.DefaultUrgency()
    ensures a.subtitle == N.DefaultSubtitle && a.sound == N.DefaultSound
  {
    Args("Notification", message, 5000, "dialog-information", Normal, "", "default", None)
  }

  /** `From<CliUrgencyLevel> for UrgencyLevel`: level for level. */
  function ToUrgencyLevel(u: CliUrgencyLevel): (r: N.UrgencyLevel)
    ensures r.Low? <==> u.Low?
    ensures r.Normal? <==> u.Normal?
    ensures r.Critical? <==> u.Critical?
  {
    match u
    case Low => N.UrgencyLevel.Low
    case Normal => N.UrgencyLevel.Normal
    case Critical => N.UrgencyLevel.Critical
  }

  function FromUrgencyLevel(r: N.UrgencyLevel): CliUrgencyLevel {
    match r
    case Low => Low
    case Normal => Normal
    case Critical => Critical
  }

  /** The urgency conversion is a bijection: nothing is lost either way. */
  lemma UrgencyConversionBijective(u: CliUrgencyLevel, r: N.UrgencyLevel)
    ensures FromUrgencyLevel(ToUrgencyLevel(u)) == u
    ensures ToUrgencyLevel(FromUrgencyLevel(r)) == r
  {
  }

  /** `From<CliBackend> for Platform`: the three concrete platforms. */
  function ToPlatform(b: CliBackend): (p: P.Platform)
    ensures p != P.Wsl && p != P.Unknown
    ensures p == P.Linux <==> b == Linux
    ensures p == P.Windows <==> b == Windows
    ensures p == P.MacOs <==> b == Macos
  {
    match b
    case Linux => P.Linux
    case Windows => P.Windows
    case Macos => P.MacOs
  }

  /** The backend choice that names a platform, if any does. */
  function FromPlatform(p: P.Platform): Option<CliBackend> {
    match p
    case Linux => Some(Linux)
    case Windows => Some(Windows)
    case MacOs => Some(Macos)
    case Wsl => None
    case Unknown => None
  }

  /** The platforms reachable from `--backend` are exactly Linux, Windows and
      macOS, each from one choice. */
  lemma BackendConversionInverts(b: CliBackend, p: P.Platform)
    ensures FromPlatform(ToPlatform(b)) == Some(b)
    ensures FromPlatform(p).Some? <==> p in {P.Linux, P.Windows, P.MacOs}
    ensures FromPlatform(p).Some? ==> ToPlatform(FromPlatform(p).value) == p
  {
  }

  /** `Args::into_builder`: every field set on a fresh builder, the urgency
      converted, and the backend forced only when one was given. */
  function IntoBuilder(a: Args): (b: N.Builder)
    ensures b.Build() == N.Notification(
      a.title, a.message, a.timeout, a.icon, ToUrgencyLevel(a.urgency),
      a.subtitle, a.sound, b.Build().backendOverride)
    ensures a.backend.None? ==> b.Build().backendOverride.None?
    ensures a.backend.Some? ==> b.Build().backendOverride == Some(ToPlatform(a.backend.value))
  {
    var b := N.NewBuilder()
      .Title(a.title)
      .Message(a.message)
      .Timeout(a.timeout)
      .Icon(a.icon)
      .Urgency(ToUrgencyLevel(a.urgency))
      .Subtitle(a.subtitle)
      .Sound(a.sound);
    match a.backend
    case Some(backend) => b.Backend(ToPlatform(backend))
    case None => b
  }

  /** The command line's defaults agree with the library's: a run giving only
      a message builds the same notification as a builder given only that
      message. */
  lemma DefaultsAgree(message: string)
    ensures IntoBuilder(WithDefaults(message)).Build() == N.NewBuilder().Message(message).Build()
  {
    N.DefaultsOfNewBuilder();
  }

  /** Distinct arguments give distinct notifications: the conversion keeps
      every field. */
  lemma IntoBuilderInjective(a1: Args, a2: Args)
    requires IntoBuilder(a1).Build() == IntoBuilder(a2).Build()
    ensures a1 == a2
  {
    UrgencyConversionBijective(a1.urgency, N.UrgencyLevel.Low);
    UrgencyConversionBijective(a2.urgency, N.UrgencyLevel.Low);
    if a1.backend.Some? && a2.backend.Some? {
      BackendConversionInverts(a1.backend.value, P.Unknown);
      BackendConversionInverts(a2.backend.value, P.Unknown);
    }
  }
}
