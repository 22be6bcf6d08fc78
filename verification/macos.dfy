/** The macOS backend: an AppleScript `display notification` command run by
    `osascript -e`. Interpolated text is escaped for AppleScript's
    double-quoted string literals, except the sound name, which is spliced in
    as given. */
module MacOs {
  import opened Wrappers
  import opened Text
  import opened Errors
  import opened Notifications
  import opened Process

  const Backslash: char := '\\'
  const Quote: char := '"'

  /** `escape_applescript`: every backslash doubled, then every quote given a
      backslash, as two whole-string replacements in that order. */
  function Escape(s: string): (r: string)
    ensures Backslash !in s && Quote !in s ==> r == s
    ensures |r| == |s| + Count(s, Backslash) + Count(s, Quote)
  {
    var once := Replace(s, Backslash, "\\\\");
    ReplaceLength(s, Backslash, "\\\\");
    ReplaceLength(once, Quote, "\\\"");
    CountReplaceOther(s, Backslash, "\\\\", Quote);
    Replace(once, Quote, "\\\"")
  }

  /** Reference escaping of a single character. */
  function EscapeChar(c: char): string {
    if c == Backslash then "\\\\" else if c == Quote then "\\\"" else [c]
  }

  /** Reference escaping, one character at a time. */
  function EscapeEach(s: string): string {
    if |s| == 0 then [] else EscapeChar(s[0]) + EscapeEach(s[1..])
  }

  /** The two successive replacements act like one pass that rewrites each
      backslash to two backslashes and each quote to backslash-quote. In
      particular the backslash put in front of a quote is never doubled,
      because quotes are handled after backslashes. */
  lemma {:induction false} EscapeIsCharwise(s: string)
    ensures Escape(s) == EscapeEach(s)
  {
    if |s| > 0 {
      var c, rest := s[0], s[1..];
      assert s == [c] + rest;
      ReplaceAppend([c], rest, Backslash, "\\\\");
      var head := Replace([c], Backslash, "\\\\");
      assert [c][1..] == [];
      assert head == if c == Backslash then "\\\\" else [c];
      ReplaceAppend(head, Replace(rest, Backslash, "\\\\"), Quote, "\\\"");
      assert Replace(head, Quote, "\\\"") == EscapeChar(c);
      EscapeIsCharwise(rest);
    }
  }

  /** Reads the body of an AppleScript double-quoted literal whose opening
      quote is already consumed: backslash-backslash stands for a backslash,
      backslash-quote for a quote, any other character but a quote for itself,
      and an unescaped quote closes the literal. Yields the string denoted and
      the text after the closing quote; None when the text ends first or holds
      any other backslash sequence. */
  function ReadLiteral(t: string): Option<(string, string)>
    decreases |t|
  {
    if |t| == 0 then None
    else if t[0] == Quote then Some(("", t[1..]))
    else if t[0] == Backslash then
      if |t| >= 2 && (t[1] == Backslash || t[1] == Quote) then
        match ReadLiteral(t[2..])
        case None => None
        case Some((body, rest)) => Some(([t[1]] + body, rest))
      else None
    else
      match ReadLiteral(t[1..])
      case None => None
      case Some((body, rest)) => Some(([t[0]] + body, rest))
  }

  lemma {:induction false} ReadEscapedEach(s: string, tail: string)
    ensures ReadLiteral(EscapeEach(s) + [Quote] + tail) == Some((s, tail))
  {
    var t := EscapeEach(s) + [Quote] + tail;
    if |s| == 0 {
      assert t == [Quote] + tail;
      assert t[1..] == tail;
    } else {
      var c := s[0];
      var inner := EscapeEach(s[1..]) + [Quote] + tail;
      assert t == EscapeChar(c) + inner;
      ReadEscapedEach(s[1..], tail);
      if c == Backslash || c == Quote {
        assert t[2..] == inner;
      } else {
        assert t[1..] == inner;
      }
      assert s == [c] + s[1..];
    }
  }

  lemma {:induction false} ReadOnlyEscapedEach(t: string, s: string, tail: string)
    requires ReadLiteral(t) == Some((s, tail))
    ensures t == EscapeEach(s) + [Quote] + tail
    decreases |t|
  {
    if t[0] == Quote {
      assert t == [Quote] + t[1..];
    } else if t[0] == Backslash {
      var body := ReadLiteral(t[2..]).value.0;
      ReadOnlyEscapedEach(t[2..], body, tail);
      assert s == [t[1]] + body;
      assert s[1..] == body;
      assert t == [t[0], t[1]] + t[2..];
    } else {
      var body := ReadLiteral(t[1..]).value.0;
      ReadOnlyEscapedEach(t[1..], body, tail);
      assert s == [t[0]] + body;
      assert s[1..] == body;
      assert t == [t[0]] + t[1..];
    }
  }

  /** Escaped text written between quotes reads back as the original string,
      and the literal closes exactly at the quote written after it, whatever
      text follows: nothing in the input can end the literal early. */
  lemma LiteralRoundTrip(s: string, tail: string)
    ensures ReadLiteral(Escape(s) + "\"" + tail) == Some((s, tail))
  {
    EscapeIsCharwise(s);
    ReadEscapedEach(s, tail);
  }

  /** Conversely, a literal that reads as `s` is exactly the escaping of `s`:
      escaping is the only encoding the reader accepts. */
  lemma LiteralOnlyFromEscape(t: string, s: string, tail: string)
    requires ReadLiteral(t) == Some((s, tail))
    ensures t == Escape(s) + "\"" + tail
  {
    EscapeIsCharwise(s);
    ReadOnlyEscapedEach(t, s, tail);
  }

  /** Different strings escape differently. */
  lemma EscapeInjective(a: string, b: string)
    requires Escape(a) == Escape(b)
    ensures a == b
  {
    LiteralRoundTrip(a, "");
    LiteralRoundTrip(b, "");
  }

  // The clauses of the generated script; each ends with the opening quote of
  // the literal that follows it.
  const MessageOpen := "display notification \""
  const TitleOpen := " with title \""
  const SubtitleOpen := " subtitle \""
  const SoundOpen := " sound name \""

  /** The head every script starts with: message and title, both escaped. */
  function ScriptHead(n: Notification): string {
    MessageOpen + Escape(n.message) + "\"" + TitleOpen + Escape(n.title) + "\""
  }

  /** The subtitle clause, present only when the escaped subtitle is non-empty. */
  function SubtitleClause(subtitle: string): string {
    var escaped := Escape(subtitle);
    if escaped != "" then SubtitleOpen + escaped + "\"" else ""
  }

  /** The sound clause, with the sound inserted verbatim. */
  function SoundClause(sound: string): string {
    SoundOpen + sound + "\""
  }

  /** The AppleScript text `send` hands to `osascript`. */
  function Script(n: Notification): string {
    MessageOpen + Escape(n.message) + "\""
      + (TitleOpen + Escape(n.title) + "\""
      + (SubtitleClause(n.subtitle) + SoundClause(n.sound)))
  }

  lemma Regroup(a: string, b: string, c: string, d: string, e: string, f: string, x: string)
    ensures a + b + c + (d + e + f + x) == (a + b + c + d + e + f) + x
  {
  }

  lemma PrefixSuffix(a: string, b: string)
    ensures (a + b)[..|a|] == a
    ensures (a + b)[|a + b| - |b|..] == b
  {
  }

  /** The script starts with the escaped message and title, carries a
      subtitle clause exactly when the raw subtitle is non-empty, and always
      ends with the verbatim sound clause. */
  lemma ScriptLayout(n: Notification)
    ensures Script(n) == ScriptHead(n) + (SubtitleClause(n.subtitle) + SoundClause(n.sound))
    ensures SubtitleClause(n.subtitle) == "" <==> n.subtitle == ""
    ensures n.subtitle != "" ==> SubtitleClause(n.subtitle) == SubtitleOpen + Escape(n.subtitle) + "\""
    ensures Script(n)[..|ScriptHead(n)|] == ScriptHead(n)
    ensures Script(n)[|Script(n)| - |SoundClause(n.sound)|..] == SoundClause(n.sound)
  {
    SubtitleClauseShape(n.subtitle);
    ScriptIsHeadThenClauses(n);
    var h, c, d := ScriptHead(n), SubtitleClause(n.subtitle), SoundClause(n.sound);
    PrefixSuffix(h, c + d);
    assert h + (c + d) == (h + c) + d;
    PrefixSuffix(h + c, d);
  }

  lemma ScriptIsHeadThenClauses(n: Notification)
    ensures Script(n) == ScriptHead(n) + (SubtitleClause(n.subtitle) + SoundClause(n.sound))
  {
    var rest := SubtitleClause(n.subtitle) + SoundClause(n.sound);
    Regroup(MessageOpen, Escape(n.message), "\"", TitleOpen, Escape(n.title), "\"", rest);
  }

  /** The subtitle clause is absent exactly for an empty subtitle. */
  lemma SubtitleClauseShape(subtitle: string)
    ensures SubtitleClause(subtitle) == "" <==> subtitle == ""
    ensures subtitle != "" ==> SubtitleClause(subtitle) == SubtitleOpen + Escape(subtitle) + "\""
  {
    assert |Escape(subtitle)| >= |subtitle|;
  }

  /** The fields a script carries, as an AppleScript reader would see them. */
  datatype ScriptFields = ScriptFields(message: string, title: string, subtitle: Option<string>, sound: string)

  function ParseSubtitle(t: string): Option<(Option<string>, string)> {
    match StripPrefix(t, SubtitleOpen)
    case None => Some((None, t))
    case Some(r) =>
      match ReadLiteral(r)
      case None => None
      case Some((s, rest)) => Some((Some(s), rest))
  }

  function ParseSound(t: string): Option<string> {
    var r :- StripPrefix(t, SoundOpen);
    var lit :- ReadLiteral(r);
    if lit.1 == "" then Some(lit.0) else None
  }

  function ParseAfterTitle(message: string, title: string, t: string): Option<ScriptFields> {
    var subtitle :- ParseSubtitle(t);
    var sound :- ParseSound(subtitle.1);
    Some(ScriptFields(message, title, subtitle.0, sound))
  }

  function ParseAfterMessage(message: string, t: string): Option<ScriptFields> {
    var r :- StripPrefix(t, TitleOpen);
    var title :- ReadLiteral(r);
    ParseAfterTitle(message, title.0, title.1)
  }

  /** Reads a script of the generated shape back into its fields. */
  function ParseScript(t: string): Option<ScriptFields> {
    var r :- StripPrefix(t, MessageOpen);
    var message :- ReadLiteral(r);
    ParseAfterMessage(message.0, message.1)
  }

  function SubtitleField(subtitle: string): Option<string> {
    if subtitle == "" then None else Some(subtitle)
  }

  lemma ParseSubtitleClause(subtitle: string, rest: string)
    requires |rest| > 2 && rest[2] == 'o'
    ensures ParseSubtitle(SubtitleClause(subtitle) + rest) == Some((SubtitleField(subtitle), rest))
  {
    if subtitle != "" {
      ParseSubtitlePresent(subtitle, rest);
    } else {
      assert SubtitleClause(subtitle) + rest == rest;
      ParseSubtitleAbsent(rest);
    }
  }

  /** A present subtitle clause reads back as the raw subtitle. */
  lemma ParseSubtitlePresent(subtitle: string, rest: string)
    requires subtitle != ""
    ensures ParseSubtitle(SubtitleClause(subtitle) + rest) == Some((Some(subtitle), rest))
  {
    var e := Escape(subtitle);
    assert SubtitleClause(subtitle) == SubtitleOpen + e + "\"";
    assert SubtitleClause(subtitle) + rest == SubtitleOpen + (e + "\"" + rest);
    StripPrefixAppend(SubtitleOpen, e + "\"" + rest);
    LiteralRoundTrip(subtitle, rest);
  }

  /** Text that goes on with " sound" holds no subtitle clause. */
  lemma ParseSubtitleAbsent(rest: string)
    requires |rest| > 2 && rest[2] == 'o'
    ensures ParseSubtitle(rest) == Some((None, rest))
  {
    assert SubtitleOpen[2] == 'u';
    if |SubtitleOpen| <= |rest| {
      assert rest[..|SubtitleOpen|][2] != SubtitleOpen[2];
    }
  }

  lemma ParseAfterTitleOk(message: string, title: string, subtitle: string, sound: string)
    ensures ParseAfterTitle(message, title, SubtitleClause(subtitle) + SoundClause(sound)) ==
      match ParseSound(SoundClause(sound))
      case None => None
      case Some(snd) => Some(ScriptFields(message, title, SubtitleField(subtitle), snd))
  {
    ParseSubtitleClause(subtitle, SoundClause(sound));
  }

  lemma ParseAfterMessageOk(message: string, title: string, rest: string)
    ensures ParseAfterMessage(message, TitleOpen + Escape(title) + "\"" + rest) ==
      ParseAfterTitle(message, title, rest)
  {
    assert TitleOpen + Escape(title) + "\"" + rest == TitleOpen + (Escape(title) + "\"" + rest);
    StripPrefixAppend(TitleOpen, Escape(title) + "\"" + rest);
    LiteralRoundTrip(title, rest);
  }

  lemma ParseScriptOk(message: string, rest: string)
    ensures ParseScript(MessageOpen + Escape(message) + "\"" + rest) == ParseAfterMessage(message, rest)
  {
    assert MessageOpen + Escape(message) + "\"" + rest == MessageOpen + (Escape(message) + "\"" + rest);
    StripPrefixAppend(MessageOpen, Escape(message) + "\"" + rest);
    LiteralRoundTrip(message, rest);
  }

  /** Whenever the verbatim sound clause reads as a sound, the generated
      script reads back with message, title and subtitle exactly as given and
      that sound; when the clause does not read, neither does the script. */
  lemma ParseScriptUpToSound(n: Notification)
    ensures ParseScript(Script(n)) ==
      match ParseSound(SoundClause(n.sound))
      case None => None
      case Some(snd) => Some(ScriptFields(n.message, n.title, SubtitleField(n.subtitle), snd))
  {
    var afterTitle := SubtitleClause(n.subtitle) + SoundClause(n.sound);
    var afterMessage := TitleOpen + Escape(n.title) + "\"" + afterTitle;
    ParseScriptOk(n.message, afterMessage);
    ParseAfterMessageOk(n.message, n.title, afterTitle);
    ParseAfterTitleOk(n.message, n.title, n.subtitle, n.sound);
  }

  /** With a sound name free of backslashes and quotes, every field of the
      notification the script shows can be read back from it. */
  lemma ScriptRoundTrip(n: Notification)
    requires Backslash !in n.sound && Quote !in n.sound
    ensures ParseScript(Script(n)) ==
      Some(ScriptFields(n.message, n.title, SubtitleField(n.subtitle), n.sound))
  {
    ParseScriptUpToSound(n);
    assert SoundClause(n.sound) == SoundOpen + (n.sound + "\"");
    StripPrefixAppend(SoundOpen, n.sound + "\"");
    LiteralRoundTrip(n.sound, "");
    assert n.sound + "\"" == Escape(n.sound) + "\"" + "";
  }

  /** The sound is not escaped: when it contains a quote or a backslash, the
      script does not carry that sound name, either failing to read or
      reading as another name. */
  lemma UnescapedSoundIsLost(n: Notification)
    requires Quote in n.sound || Backslash in n.sound
    ensures ParseScript(Script(n)).None? || ParseScript(Script(n)).value.sound != n.sound
  {
    ParseScriptUpToSound(n);
    assert SoundClause(n.sound) == SoundOpen + (n.sound + "\"");
    StripPrefixAppend(SoundOpen, n.sound + "\"");
    var c := SoundClause(n.sound);
    if ParseSound(c).Some? {
      var snd := ParseSound(c).value;
      assert ReadLiteral(n.sound + "\"") == Some((snd, ""));
      LiteralOnlyFromEscape(n.sound + "\"", snd, "");
      assert n.sound + "\"" == Escape(snd) + "\"";
      assert n.sound == (n.sound + "\"")[..|n.sound|];
      assert n.sound == Escape(snd);
    }
  }

  /** What a quote in the sound does: the sound literal closes at that quote
      and the rest of the sound is read as script text after it. */
  lemma SoundQuoteClosesLiteral(before: string, after: string)
    requires Backslash !in before && Quote !in before
    ensures ReadLiteral(before + "\"" + after + "\"") == Some((before, after + "\""))
  {
    LiteralRoundTrip(before, after + "\"");
    assert before + "\"" + after + "\"" == Escape(before) + "\"" + (after + "\"");
  }

  const BackendName := "macOS (osascript)"

  /** `is_available`: only a build for macOS can use this backend. */
  function IsAvailable(os: string): (r: bool)
    ensures r <==> os == "macos"
  {
    os == "macos"
  }

  /** The process `send` starts: `osascript -e <script>`. */
  function CommandFor(n: Notification): (c: Command)
    ensures c.program == "osascript" && |c.args| == 2 && c.args[0] == "-e"
    ensures c.args[1] == Script(n)
  {
    Command("osascript", ["-e", Script(n)])
  }

  /** `send`, with `run` standing for starting the process and collecting its
      exit status and standard error. */
  function Send(n: Notification, run: Command -> Outcome): (r: Result<(), NotificationError>)
    ensures r.Ok? <==> run(CommandFor(n)).Exited? && run(CommandFor(n)).success
    ensures run(CommandFor(n)).SpawnFailed? ==> r == Err(CommandExecution(run(CommandFor(n)).error))
    ensures run(CommandFor(n)).Exited? && !run(CommandFor(n)).success ==>
      r == Err(SendFailed("macOS", run(CommandFor(n)).stderr))
  {
    CheckExit("macOS", run(CommandFor(n)))
  }
}
