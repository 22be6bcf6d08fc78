/** The Windows backend: a PowerShell script showing a balloon tip, run by
    `powershell.exe`; also used from WSL. Title and message are escaped for
    PowerShell's single-quoted string literals. */
module Windows {
  import opened Wrappers
  import opened Text
  import opened Errors
  import opened Notifications
  import opened Process

  const Apostrophe: char := '\''

  /** `escape_powershell`: every single quote doubled. */
  function Escape(s: string): (r: string)
    ensures Apostrophe !in s ==> r == s
    ensures |r| == |s| + Count(s, Apostrophe)
  {
    ReplaceLength(s, Apostrophe, "''");
    Replace(s, Apostrophe, "''")
  }

  /** Reference escaping of a single character. */
  function EscapeChar(c: char): string {
    if c == Apostrophe then "''" else [c]
  }

  /** Reference escaping, one character at a time. */
  function EscapeEach(s: string): string {
    if |s| == 0 then [] else EscapeChar(s[0]) + EscapeEach(s[1..])
  }

  /** The replacement doubles each single quote and leaves every other
      character as it is. */
  lemma {:induction false} EscapeIsCharwise(s: string)
    ensures Escape(s) == EscapeEach(s)
  {
    if |s| > 0 {
      var c, rest := s[0], s[1..];
      assert s == [c] + rest;
      ReplaceAppend([c], rest, Apostrophe, "''");
      assert [c][1..] == [];
      assert Replace([c], Apostrophe, "''") == EscapeChar(c);
      EscapeIsCharwise(rest);
    }
  }

  /** Every pair of single quotes replaced by one, left to right. */
  function Unescape(t: string): string
    decreases |t|
  {
    if |t| == 0 then []
    else if |t| >= 2 && t[0] == Apostrophe && t[1] == Apostrophe then [Apostrophe] + Unescape(t[2..])
    else [t[0]] + Unescape(t[1..])
  }

  lemma {:induction false} UnescapeEach(s: string)
    ensures Unescape(EscapeEach(s)) == s
  {
    if |s| > 0 {
      var u := EscapeEach(s[1..]);
      var t := EscapeChar(s[0]) + u;
      assert EscapeEach(s) == t;
      UnescapeEach(s[1..]);
      if s[0] == Apostrophe {
        assert t[2..] == u;
      } else {
        assert t[1..] == u;
      }
      assert s == [s[0]] + s[1..];
    }
  }

  /** Turning each doubled quote back into one recovers the input. */
  lemma UnescapeEscape(s: string)
    ensures Unescape(Escape(s)) == s
  {
    EscapeIsCharwise(s);
    UnescapeEach(s);
  }

  /** Length of the run of single quotes at the front of `t`. */
  function QuoteRun(t: string): nat
    decreases |t|
  {
    if |t| > 0 && t[0] == Apostrophe then 1 + QuoteRun(t[1..]) else 0
  }

  /** A maximal run of single quotes starts at index `i`. */
  predicate RunStart(t: string, i: int) {
    0 <= i < |t| && t[i] == Apostrophe && (i == 0 || t[i - 1] != Apostrophe)
  }

  /** Every maximal run of single quotes in `t` has even length. */
  predicate RunsEven(t: string) {
    forall i | 0 <= i < |t| :: RunStart(t, i) ==> QuoteRun(t[i..]) % 2 == 0
  }

  lemma {:induction false} EachRunsEven(s: string)
    ensures RunsEven(EscapeEach(s))
  {
    if |s| > 0 {
      EachRunsEven(s[1..]);
      PrependKeepsRunsEven(EscapeChar(s[0]), EscapeEach(s[1..]));
    }
  }

  /** The run at the front of text whose runs are all even is even. */
  lemma LeadingRunEven(u: string)
    requires RunsEven(u)
    ensures QuoteRun(u) % 2 == 0
  {
    if |u| > 0 && u[0] == Apostrophe {
      assert RunStart(u, 0);
      assert u[0..] == u;
    }
  }

  /** A doubled quote in front lengthens the leading run by two. */
  lemma DoubledQuoteRun(u: string)
    ensures QuoteRun("''" + u) == QuoteRun(u) + 2
  {
    assert ("''" + u)[1..] == "'" + u;
    assert ("'" + u)[1..] == u;
  }

  /** Putting one escaped character in front of text whose runs are even
      keeps them even. */
  lemma PrependKeepsRunsEven(h: string, u: string)
    requires h == "''" || (|h| == 1 && h[0] != Apostrophe)
    requires RunsEven(u)
    ensures RunsEven(h + u)
  {
    var t := h + u;
    forall i | RunStart(t, i)
      ensures QuoteRun(t[i..]) % 2 == 0
    {
      if i < |h| {
        if h == "''" {
          assert i == 0;
          assert t[0..] == t;
          LeadingRunEven(u);
          FrontRunEven(u);
        } else {
          assert false;
        }
      } else {
        ShiftedRunStart(h, u, i);
      }
    }
  }

  /** A doubled quote in front of an even leading run keeps it even. */
  lemma FrontRunEven(u: string)
    requires QuoteRun(u) % 2 == 0
    ensures QuoteRun("''" + u) % 2 == 0
  {
    DoubledQuoteRun(u);
  }

  /** A run starting inside `u` is a run of `u` itself. */
  lemma ShiftedRunStart(h: string, u: string, i: int)
    requires h == "''" || (|h| == 1 && h[0] != Apostrophe)
    requires RunsEven(u)
    requires |h| <= i && RunStart(h + u, i)
    ensures QuoteRun((h + u)[i..]) % 2 == 0
  {
    var j := i - |h|;
    assert (h + u)[i..] == u[j..];
    if j > 0 {
      assert (h + u)[i - 1] == u[j - 1];
    }
    assert RunStart(u, j);
  }

  /** In escaped text every maximal run of single quotes has even length. */
  lemma EscapedRunsEven(s: string)
    ensures RunsEven(Escape(s))
  {
    EscapeIsCharwise(s);
    EachRunsEven(s);
  }

  /** Reads the body of a PowerShell single-quoted literal whose opening quote
      is already consumed, taking the ASCII apostrophe as the only quote
      character: two apostrophes stand for one, any other
      character for itself, and a single quote not followed by another closes
      the literal. Yields the string denoted and the text after the closing
      quote; None when the text ends first. */
  function ReadLiteral(t: string): Option<(string, string)>
    decreases |t|
  {
    if |t| == 0 then None
    else if t[0] == Apostrophe then
      if |t| >= 2 && t[1] == Apostrophe then
        match ReadLiteral(t[2..])
        case None => None
        case Some((body, rest)) => Some(([Apostrophe] + body, rest))
      else Some(("", t[1..]))
    else
      match ReadLiteral(t[1..])
      case None => None
      case Some((body, rest)) => Some(([t[0]] + body, rest))
  }

  lemma {:induction false} ReadEscapedEach(s: string, tail: string)
    requires |tail| == 0 || tail[0] != Apostrophe
    ensures ReadLiteral(EscapeEach(s) + [Apostrophe] + tail) == Some((s, tail))
  {
    var t := EscapeEach(s) + [Apostrophe] + tail;
    if |s| == 0 {
      assert t == [Apostrophe] + tail;
      assert t[1..] == tail;
    } else {
      var c := s[0];
      var inner := EscapeEach(s[1..]) + [Apostrophe] + tail;
      assert t == EscapeChar(c) + inner;
      ReadEscapedEach(s[1..], tail);
      if c == Apostrophe {
        assert t[2..] == inner;
      } else {
        assert t[1..] == inner;
      }
      assert s == [c] + s[1..];
    }
  }

  lemma {:induction false} ReadOnlyEscapedEach(t: string, s: string, tail: string)
    requires ReadLiteral(t) == Some((s, tail))
    ensures t == EscapeEach(s) + [Apostrophe] + tail
    ensures |tail| == 0 || tail[0] != Apostrophe
    decreases |t|
  {
    if t[0] == Apostrophe {
      if |t| >= 2 && t[1] == Apostrophe {
        var body := ReadLiteral(t[2..]).value.0;
        ReadOnlyEscapedEach(t[2..], body, tail);
        assert s == [Apostrophe] + body;
        assert s[1..] == body;
        assert t == [t[0], t[1]] + t[2..];
      } else {
        assert t == [Apostrophe] + t[1..];
      }
    } else {
      var body := ReadLiteral(t[1..]).value.0;
      ReadOnlyEscapedEach(t[1..], body, tail);
      assert s == [t[0]] + body;
      assert s[1..] == body;
      assert t == [t[0]] + t[1..];
    }
  }

  /** Escaped text written between single quotes reads back as the original
      string, and the literal closes exactly at the quote written after it,
      provided the next character is not itself a single quote. */
  lemma LiteralRoundTrip(s: string, tail: string)
    requires |tail| == 0 || tail[0] != Apostrophe
    ensures ReadLiteral(Escape(s) + "'" + tail) == Some((s, tail))
  {
    EscapeIsCharwise(s);
    ReadEscapedEach(s, tail);
  }

  /** Conversely, a literal that reads as `s` is exactly the escaping of `s`,
      closed by a quote that no further quote follows. */
  lemma LiteralOnlyFromEscape(t: string, s: string, tail: string)
    requires ReadLiteral(t) == Some((s, tail))
    ensures t == Escape(s) + "'" + tail
    ensures |tail| == 0 || tail[0] != Apostrophe
  {
    EscapeIsCharwise(s);
    ReadOnlyEscapedEach(t, s, tail);
  }

  /** Different strings escape differently. */
  lemma EscapeInjective(a: string, b: string)
    requires Escape(a) == Escape(b)
    ensures a == b
  {
    UnescapeEscape(a);
    UnescapeEscape(b);
  }

  // The fixed text of the generated script, one statement per line, each
  // line indented by twelve spaces. Each piece ends where an interpolated
  // value starts.
  const TitleOpen :=
    "\n            Add-Type -AssemblyName System.Windows.Forms"
    + "\n            $balloon = New-Object System.Windows.Forms.NotifyIcon"
    + "\n            $balloon.Icon = [System.Drawing.SystemIcons]::Information"
    + "\n            $balloon.BalloonTipTitle = '"
  const TextOpen := "\n            $balloon.BalloonTipText = '"
  const ShowOpen :=
    "\n            $balloon.Visible = $true"
    + "\n            $balloon.ShowBalloonTip("
  const Trailer :=
    ")"
    + "\n            Start-Sleep -Milliseconds 100"
    + "\n            $balloon.Dispose()"
    + "\n            "

  /** The PowerShell text `send` hands to `powershell.exe`. */
  function Script(n: Notification): string {
    TitleOpen + (Escape(n.title) + "'"
      + (TextOpen + (Escape(n.message) + "'"
      + (ShowOpen + (Decimal(n.timeout) + Trailer)))))
  }

  /** What a PowerShell reader finds in the balloon statements. */
  datatype BalloonFields = BalloonFields(title: string, text: string, showMillis: nat)

  function ParseAfterText(title: string, text: string, t: string): Option<BalloonFields> {
    var r :- StripPrefix(t, ShowOpen);
    var millis :- ReadNat(r);
    if millis.1 == Trailer then Some(BalloonFields(title, text, millis.0)) else None
  }

  function ParseAfterTitle(title: string, t: string): Option<BalloonFields> {
    var r :- StripPrefix(t, TextOpen);
    var text :- ReadLiteral(r);
    ParseAfterText(title, text.0, text.1)
  }

  /** Reads a script of the generated shape back into its fields. */
  function ParseScript(t: string): Option<BalloonFields> {
    var r :- StripPrefix(t, TitleOpen);
    var title :- ReadLiteral(r);
    ParseAfterTitle(title.0, title.1)
  }

  lemma ParseAfterTextOk(title: string, text: string, millis: nat)
    ensures ParseAfterText(title, text, ShowOpen + (Decimal(millis) + Trailer)) ==
      Some(BalloonFields(title, text, millis))
  {
    StripPrefixAppend(ShowOpen, Decimal(millis) + Trailer);
    ReadNatDecimal(millis, Trailer);
  }

  lemma ParseAfterTitleOk(title: string, text: string, rest: string)
    requires |rest| > 0 && rest[0] == '\n'
    ensures ParseAfterTitle(title, TextOpen + (Escape(text) + "'" + rest)) ==
      ParseAfterText(title, text, rest)
  {
    StripPrefixAppend(TextOpen, Escape(text) + "'" + rest);
    LiteralRoundTrip(text, rest);
  }

  /** The escaped title sits in `BalloonTipTitle`, the escaped message in
      `BalloonTipText` and the decimal timeout in `ShowBalloonTip(...)`: a
      reader whose only quote character is the ASCII apostrophe recovers all
      three for every title and message. PowerShell's typographic quotes are
      the subject of the PowerShellQuotes module. */
  lemma ScriptRoundTrip(n: Notification)
    ensures ParseScript(Script(n)) == Some(BalloonFields(n.title, n.message, n.timeout))
  {
    var afterText := ShowOpen + (Decimal(n.timeout) + Trailer);
    var afterTitle := TextOpen + (Escape(n.message) + "'" + afterText);
    StripPrefixAppend(TitleOpen, Escape(n.title) + "'" + afterTitle);
    assert afterTitle[0] == '\n';
    LiteralRoundTrip(n.title, afterTitle);
    assert afterText[0] == '\n';
    ParseAfterTitleOk(n.title, n.message, afterText);
    ParseAfterTextOk(n.title, n.message, n.timeout);
  }

  const BackendName := "Windows (PowerShell)"

  /** `is_available`: a Windows build, or a Linux build (which may be WSL). */
  function IsAvailable(os: string): (r: bool)
    ensures r <==> os == "windows" || os == "linux"
  {
    os == "windows" || os == "linux"
  }

  /** The process `send` starts. */
  function CommandFor(n: Notification): (c: Command)
    ensures c.program == "powershell.exe"
    ensures c.args == ["-NoProfile", "-NonInteractive", "-Command", Script(n)]
  {
    Command("powershell.exe", ["-NoProfile", "-NonInteractive", "-Command", Script(n)])
  }

  /** `send`, with `run` standing for starting the process and collecting its
      exit status and standard error. */
  function Send(n: Notification, run: Command -> Outcome): (r: Result<(), NotificationError>)
    ensures r.Ok? <==> run(CommandFor(n)).Exited? && run(CommandFor(n)).success
    ensures run(CommandFor(n)).SpawnFailed? ==> r == Err(CommandExecution(run(CommandFor(n)).error))
    ensures run(CommandFor(n)).Exited? && !run(CommandFor(n)).success ==>
      r == Err(SendFailed("Windows", run(CommandFor(n)).stderr))
  {
    CheckExit("Windows", run(CommandFor(n)))
  }
}
