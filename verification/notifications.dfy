/** The notification value, its urgency, and the fluent builder that fills in
    documented defaults. */
module Notifications {
  import opened Wrappers
  import opened Platforms

  /** Rust's `u32`. */
  type u32 = x: int | 0 <= x < 0x1_0000_0000

  datatype UrgencyLevel = Low | Normal | Critical

  /** `UrgencyLevel::default()`. */
  function DefaultUrgency(): (u: UrgencyLevel)
    ensures u == Normal
  {
    Normal
  }

  datatype Notification = Notification(
    title: string,
    message: string,
    timeout: u32,          // milliseconds, 0 = never expires
    icon: string,          // used by the Linux backend only
    urgency: UrgencyLevel, // used by the Linux backend only
    subtitle: string,      // used by the macOS backend only
    sound: string,         // used by the macOS backend only
    backendOverride: Option<Platform>)

  const DefaultTitle := "Notification"
  const DefaultMessage := ""
  const DefaultTimeout: u32 := 5000
  const DefaultIcon := "dialog-information"
  const DefaultSubtitle := ""
  const DefaultSound := "default"

  /** Accumulates optional fields; every setter replaces exactly one of them. */
  datatype Builder = Builder(
    title: Option<string>,
    message: Option<string>,
    timeout: Option<u32>,
    icon: Option<string>,
    urgency: Option<UrgencyLevel>,
    subtitle: Option<string>,
    sound: Option<string>,
    backend: Option<Platform>)
  {
    function Title(t: string): (b: Builder)
      ensures b.title == Some(t) && b.(title := title) == this
    {
      this.(title := Some(t))
    }

    function Message(m: string): (b: Builder)
      ensures b.message == Some(m) && b.(message := message) == this
    {
      this.(message := Some(m))
    }

    function Timeout(ms: u32): (b: Builder)
      ensures b.timeout == Some(ms) && b.(timeout := timeout) == this
    {
      this.(timeout := Some(ms))
    }

    function Icon(i: string): (b: Builder)
      ensures b.icon == Some(i) && b.(icon := icon) == this
    {
      this.(icon := Some(i))
    }

    function Urgency(u: UrgencyLevel): (b: Builder)
      ensures b.urgency == Some(u) && b.(urgency := urgency) == this
    {
      this.(urgency := Some(u))
    }

    function Subtitle(s: string): (b: Builder)
      ensures b.subtitle == Some(s) && b.(subtitle := subtitle) == this
    {
      this.(subtitle := Some(s))
    }

    function Sound(s: string): (b: Builder)
      ensures b.sound == Some(s) && b.(sound := sound) == this
    {
      this.(sound := Some(s))
    }

    function Backend(p: Platform): (b: Builder)
      ensures b.backend == Some(p) && b.(backend := backend) == this
    {
      this.(backend := Some(p))
    }

    /** The notification, with each unset field taking its default. Total. */
    function Build(): (n: Notification)
      ensures title.Some? ==> n.title == title.value
      ensures title.None? ==> n.title == DefaultTitle
      ensures message.Some? ==> n.message == message.value
      ensures message.None? ==> n.message == DefaultMessage
      ensures timeout.Some? ==> n.timeout == timeout.value
      ensures timeout.None? ==> n.timeout == DefaultTimeout
      ensures icon.Some? ==> n.icon == icon.value
      ensures icon.None? ==> n.icon == DefaultIcon
      ensures urgency.Some? ==> n.urgency == urgency.value
      ensures urgency.None? ==> n.urgency == DefaultUrgency()
      ensures subtitle.Some? ==> n.subtitle == subtitle.value
      ensures subtitle.None? ==> n.subtitle == DefaultSubtitle
      ensures sound.Some? ==> n.sound == sound.value
      ensures sound.None? ==> n.sound == DefaultSound
      ensures n.backendOverride == backend
    {
      Notification(
        title.GetOr(DefaultTitle),
        message.GetOr(DefaultMessage),
        timeout.GetOr(DefaultTimeout),
        icon.GetOr(DefaultIcon),
        urgency.GetOr(DefaultUrgency()),
        subtitle.GetOr(DefaultSubtitle),
        sound.GetOr(DefaultSound),
        backend)
    }
  }

  /** `NotificationBuilder::new()`: nothing set. */
  function NewBuilder(): (b: Builder)
    ensures b.title.None? && b.message.None? && b.timeout.None? && b.icon.None?
    ensures b.urgency.None? && b.subtitle.None? && b.sound.None? && b.backend.None?
  {
    Builder(None, None, None, None, None, None, None, None)
  }

  /** Building a fresh builder gives the documented defaults. */
  lemma DefaultsOfNewBuilder()
    ensures NewBuilder().Build() ==
      Notification("Notification", "", 5000, "dialog-information", Normal, "", "default", None)
  {
  }

  /** A value given to a setter appears unchanged in the built notification,
      and every other field is built exactly as it would have been without
      the call: setters are independent of one another. */
  lemma SetterReachesBuild(b: Builder, s: string, ms: u32, u: UrgencyLevel, p: Platform)
    ensures b.Title(s).Build() == b.Build().(title := s)
    ensures b.Message(s).Build() == b.Build().(message := s)
    ensures b.Timeout(ms).Build() == b.Build().(timeout := ms)
    ensures b.Icon(s).Build() == b.Build().(icon := s)
    ensures b.Urgency(u).Build() == b.Build().(urgency := u)
    ensures b.Subtitle(s).Build() == b.Build().(subtitle := s)
    ensures b.Sound(s).Build() == b.Build().(sound := s)
    ensures b.Backend(p).Build() == b.Build().(backendOverride := Some(p))
  {
  }

  /** One builder call, as data, so that statements about any pair of calls
      can be made at once. */
  datatype Setter =
    | SetTitle(t: string)
    | SetMessage(m: string)
    | SetTimeout(ms: u32)
    | SetIcon(i: string)
    | SetUrgency(u: UrgencyLevel)
    | SetSubtitle(st: string)
    | SetSound(sd: string)
    | SetBackend(p: Platform)
  {
    /** Which of the eight builder fields the call writes. */
    function Field(): nat {
      match this
      case SetTitle(_) => 0
      case SetMessage(_) => 1
      case SetTimeout(_) => 2
      case SetIcon(_) => 3
      case SetUrgency(_) => 4
      case SetSubtitle(_) => 5
      case SetSound(_) => 6
      case SetBackend(_) => 7
    }
  }

  /** The builder after the call `c`. */
  function Apply(b: Builder, c: Setter): Builder {
    match c
    case SetTitle(t) => b.Title(t)
    case SetMessage(m) => b.Message(m)
    case SetTimeout(ms) => b.Timeout(ms)
    case SetIcon(i) => b.Icon(i)
    case SetUrgency(u) => b.Urgency(u)
    case SetSubtitle(st) => b.Subtitle(st)
    case SetSound(sd) => b.Sound(sd)
    case SetBackend(p) => b.Backend(p)
  }

  /** A later call to the same setter overrides an earlier one, whichever of
      the eight setters it is. */
  lemma LastSetterWins(b: Builder, c1: Setter, c2: Setter)
    requires c1.Field() == c2.Field()
    ensures Apply(Apply(b, c1), c2) == Apply(b, c2)
  {
  }

  /** Calls to different setters commute, for every pair of setters. */
  lemma SettersCommute(b: Builder, c1: Setter, c2: Setter)
    requires c1.Field() != c2.Field()
    ensures Apply(Apply(b, c1), c2) == Apply(Apply(b, c2), c1)
  {
  }
}
