/** Backend selection (`select_notifier`) and the builder's `send`, which
    builds, selects and delegates. Everything the running system would observe
    is carried by an `Env`. */
module Dispatch {
  import opened Wrappers
  import opened Errors
  import opened Platforms
  import opened Notifications
  import opened Process
  import Linux
  import MacOs
  import Windows

  /** The world a send runs in: the compile target's OS name, the contents of
      `/proc/version` (None when unreadable), the process runner used by the
      script backends and the D-Bus library call used by the Linux backend. */
  datatype Env = Env(
    os: string,
    procVersion: Option<string>,
    run: Command -> Outcome,
    show: Linux.DbusRequest -> Option<string>)

  /** The three implementations of the `Notifier` capability. */
  datatype Notifier = LinuxNotifier | WindowsNotifier | MacOsNotifier {

    function IsAvailable(os: string): bool {
      match this
      case LinuxNotifier => Linux.IsAvailable(os)
      case WindowsNotifier => Windows.IsAvailable(os)
      case MacOsNotifier => MacOs.IsAvailable(os)
    }

    function BackendName(os: string): string {
      match this
      case LinuxNotifier => Linux.BackendName(os)
      case WindowsNotifier => Windows.BackendName
      case MacOsNotifier => MacOs.BackendName
    }

    function Send(n: Notification, env: Env): Result<(), NotificationError> {
      match this
      case LinuxNotifier => Linux.Send(n, env.os, env.show)
      case WindowsNotifier => Windows.Send(n, env.run)
      case MacOsNotifier => MacOs.Send(n, env.run)
    }
  }

  /** Which build targets each backend is available on. */
  lemma AvailabilityTable(b: Notifier, os: string)
    ensures b == LinuxNotifier ==> (b.IsAvailable(os) <==> os == "linux")
    ensures b == MacOsNotifier ==> (b.IsAvailable(os) <==> os == "macos")
    ensures b == WindowsNotifier ==> (b.IsAvailable(os) <==> os == "windows" || os == "linux")
  {
  }

  /** The backend for a platform: WSL and Windows share the Windows backend,
      and Unknown has none. */
  function NotifierFor(p: Platform): (r: Option<Notifier>)
    ensures r.None? <==> p == Unknown
    ensures r == Some(LinuxNotifier) <==> p == Linux
    ensures r == Some(WindowsNotifier) <==> p.IsWindowsLike()
    ensures r == Some(MacOsNotifier) <==> p == MacOs
  {
    match p
    case Linux => Some(LinuxNotifier)
    case Wsl => Some(WindowsNotifier)
    case Windows => Some(WindowsNotifier)
    case MacOs => Some(MacOsNotifier)
    case Unknown => None
  }

  /** The explicit override when there is one; detection only otherwise. */
  function ResolvePlatform(n: Notification, os: string, procVersion: Option<string>): (p: Platform)
    ensures n.backendOverride.Some? ==> p == n.backendOverride.value
    ensures n.backendOverride.None? ==> p == Detect(os, procVersion)
  {
    match n.backendOverride
    case Some(p) => p
    case None => Detect(os, procVersion)
  }

  /** The detail of the refusal when no backend fits the platform. */
  const UnknownReason := "Unknown platform. Use --backend to specify manually."
  /** Appended to a backend's name when this build cannot use that backend. */
  const UnavailableSuffix := " notifier is not available on this platform"

  /** `select_notifier`: resolve the platform, pick its backend, and refuse a
      backend that is not available in this build. */
  function SelectNotifier(n: Notification, os: string, procVersion: Option<string>): (r: Result<Notifier, NotificationError>)
    ensures var p := ResolvePlatform(n, os, procVersion);
      r.Ok? <==> NotifierFor(p).Some? && NotifierFor(p).value.IsAvailable(os)
    ensures r.Ok? ==>
      && r.value.IsAvailable(os)
      && NotifierFor(ResolvePlatform(n, os, procVersion)) == Some(r.value)
    ensures ResolvePlatform(n, os, procVersion) == Unknown ==>
      r == Err(UnsupportedPlatform(UnknownReason))
    ensures var p := ResolvePlatform(n, os, procVersion);
      NotifierFor(p).Some? && !NotifierFor(p).value.IsAvailable(os) ==>
        r == Err(UnsupportedPlatform(NotifierFor(p).value.BackendName(os) + UnavailableSuffix))
  {
    match NotifierFor(ResolvePlatform(n, os, procVersion))
    case None => Err(UnsupportedPlatform(UnknownReason))
    case Some(b) =>
      if !b.IsAvailable(os) then Err(UnsupportedPlatform(b.BackendName(os) + UnavailableSuffix))
      else Ok(b)
  }

  /** With an override, the kernel version text is never consulted. */
  lemma OverrideIgnoresDetection(n: Notification, os: string, pv1: Option<string>, pv2: Option<string>)
    requires n.backendOverride.Some?
    ensures SelectNotifier(n, os, pv1) == SelectNotifier(n, os, pv2)
  {
  }

  /** Without an override, a build for Linux, macOS or Windows always finds a
      usable backend: the platform's own one, or Windows from WSL. */
  lemma AutomaticSelectionSucceeds(n: Notification, os: string, procVersion: Option<string>)
    requires n.backendOverride.None?
    requires os in {"linux", "macos", "windows"}
    ensures SelectNotifier(n, os, procVersion).Ok?
    ensures os == "linux" ==>
      SelectNotifier(n, os, procVersion).value ==
        (if IsWsl(procVersion) then WindowsNotifier else LinuxNotifier)
    ensures os == "macos" ==> SelectNotifier(n, os, procVersion).value == MacOsNotifier
    ensures os == "windows" ==> SelectNotifier(n, os, procVersion).value == WindowsNotifier
  {
  }

  /** An override naming a platform whose backend this build lacks fails,
      naming the backend as the build sees it. */
  lemma OverrideRejectedWhenUnavailable(n: Notification, os: string, procVersion: Option<string>)
    requires n.backendOverride == Some(MacOs) && os != "macos"
    ensures SelectNotifier(n, os, procVersion) ==
      Err(UnsupportedPlatform(MacOs.BackendName + UnavailableSuffix))
  {
  }

  /** `NotificationBuilder::send`: build, select, then delegate to the chosen
      backend; a selection failure is returned as is. */
  function SendNotification(b: Builder, env: Env): (r: Result<(), NotificationError>)
    ensures var sel := SelectNotifier(b.Build(), env.os, env.procVersion);
      && (sel.Err? ==> r == Err(sel.error))
      && (sel.Ok? ==> r == sel.value.Send(b.Build(), env))
  {
    var n := b.Build();
    var notifier :- SelectNotifier(n, env.os, env.procVersion);
    notifier.Send(n, env)
  }

  /** A send that succeeds went through a backend that was selected and is
      available on the target: an unavailable choice fails before any command
      is run. */
  lemma SendOnlyThroughAvailableBackend(b: Builder, env: Env)
    requires SendNotification(b, env).Ok?
    ensures SelectNotifier(b.Build(), env.os, env.procVersion).Ok?
    ensures SelectNotifier(b.Build(), env.os, env.procVersion).value.IsAvailable(env.os)
  {
  }

  /** The builder of the end-to-end example: title "Test", message "Hello",
      timeout 1000, urgency Critical, macOS forced. */
  function ScenarioBuilder(): Builder {
    NewBuilder().Title("Test").Message("Hello").Timeout(1000).Urgency(Critical).Backend(MacOs)
  }

  /** The example's notification: the four fields it sets, defaults elsewhere. */
  lemma ScenarioNotification()
    ensures ScenarioBuilder().Build() ==
      Notification("Test", "Hello", 1000, DefaultIcon, Critical, DefaultSubtitle, DefaultSound, Some(MacOs))
  {
    DefaultsOfNewBuilder();
  }

  /** Neither field of the example needs escaping, so the script opens with
      them verbatim. */
  lemma ScenarioHead()
    ensures MacOs.ScriptHead(ScenarioBuilder().Build()) == "display notification \"Hello\" with title \"Test\""
  {
    ScenarioNotification();
    var n := ScenarioBuilder().Build();
    PlainFieldsVerbatim("Hello", "Test");
    assert MacOs.ScriptHead(n) == MacOs.MessageOpen + "Hello" + "\"" + MacOs.TitleOpen + "Test" + "\"";
    ScenarioHeadText();
  }

  /** "Hello" and "Test" hold nothing AppleScript needs escaped. The two
      texts are bound to parameters so that the escape is reasoned about
      symbolically rather than unfolded on literals. */
  lemma PlainFieldsVerbatim(message: string, title: string)
    requires message == "Hello" && title == "Test"
    ensures MacOs.Escape(message) == message && MacOs.Escape(title) == title
  {
    assert forall i | 0 <= i < |message| :: message[i] in "Helo";
    assert forall i | 0 <= i < |title| :: title[i] in "Tets";
  }

  /** The example's opening clause, spelled out. */
  lemma ScenarioHeadText()
    ensures MacOs.MessageOpen + "Hello" + "\"" + MacOs.TitleOpen + "Test" + "\""
      == "display notification \"Hello\" with title \"Test\""
  {
    var head := MacOs.MessageOpen + "Hello" + "\"" + MacOs.TitleOpen + "Test" + "\"";
    assert |head| == 46;
    assert forall i | 0 <= i < |head| :: head[i] == "display notification \"Hello\" with title \"Test\""[i];
  }

  /** The end-to-end example, off macOS: the forced backend is refused. */
  lemma ScenarioRejectedElsewhere(env: Env)
    requires env.os != "macos"
    ensures SendNotification(ScenarioBuilder(), env) ==
      Err(UnsupportedPlatform(MacOs.BackendName + UnavailableSuffix))
  {
    ScenarioNotification();
    OverrideRejectedWhenUnavailable(ScenarioBuilder().Build(), env.os, env.procVersion);
  }

  /** The end-to-end example, on macOS: the result is whatever running the
      `osascript` command reports. */
  lemma ScenarioDelegatesOnMacOs(env: Env)
    requires env.os == "macos"
    ensures SendNotification(ScenarioBuilder(), env) == MacOs.Send(ScenarioBuilder().Build(), env.run)
  {
    var n := ScenarioBuilder().Build();
    ScenarioNotification();
    assert ResolvePlatform(n, env.os, env.procVersion) == MacOs;
    assert SelectNotifier(n, env.os, env.procVersion) == Ok(MacOsNotifier);
  }

  /** The end-to-end example's script opens with its message and title clause. */
  lemma ScenarioScript()
    ensures var script := MacOs.CommandFor(ScenarioBuilder().Build()).args[1];
      |script| >= 46 && script[..46] == "display notification \"Hello\" with title \"Test\""
  {
    var n := ScenarioBuilder().Build();
    ScenarioHead();
    MacOs.ScriptLayout(n);
    assert |MacOs.ScriptHead(n)| == 46;
  }
}
