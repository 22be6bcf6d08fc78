/** PowerShell's single-quoted literals end at any of five quote characters:
    the ASCII apostrophe U+0027 and the typographic quotes U+2018, U+2019,
    U+201A and U+201B. Inside a literal two quote characters in a row stand
    for the second of them. The Windows backend's escape doubles only the
    ASCII apostrophe; this module reads its output with the full quote set,
    exhibits a title that breaks the generated script, and proves a corrected
    escape that doubles all five. */
module PowerShellQuotes {
  import opened Wrappers
  import opened Text
  import opened Notifications
  import W = Windows

  /** The characters PowerShell treats as a single quote. */
  predicate IsQuote(c: char) {
    c == '\'' || c == '\U{2018}' || c == '\U{2019}' || c == '\U{201A}' || c == '\U{201B}'
  }

  /** `s` holds no typographic quote; the ASCII apostrophe may occur. */
  predicate NoTypographicQuote(s: string) {
    forall i | 0 <= i < |s| :: IsQuote(s[i]) ==> s[i] == '\''
  }

  /** Reads the body of a single-quoted literal whose opening quote is already
      consumed, as PowerShell's tokenizer does: a quote character followed by
      another stands for the second one, any other character for itself, and
      a quote character not followed by another closes the literal. */
  function ReadQuoted(t: string): (r: Option<(string, string)>)
    ensures r.Some? ==> |r.value.1| < |t|
    decreases |t|
  {
    if |t| == 0 then None
    else if IsQuote(t[0]) then
      if |t| >= 2 && IsQuote(t[1]) then
        match ReadQuoted(t[2..])
        case None => None
        case Some((body, rest)) => Some(([t[1]] + body, rest))
      else Some(("", t[1..]))
    else
      match ReadQuoted(t[1..])
      case None => None
      case Some((body, rest)) => Some(([t[0]] + body, rest))
  }

  /** On text without typographic quotes the full reader and the ASCII-only
      reader of the Windows backend agree. */
  lemma {:induction false} ReadersAgree(t: string)
    requires NoTypographicQuote(t)
    ensures ReadQuoted(t) == W.ReadLiteral(t)
    decreases |t|
  {
    if |t| >= 2 && t[0] == '\'' && t[1] == '\'' {
      assert NoTypographicQuote(t[2..]) by {
        forall i | 0 <= i < |t[2..]| ensures IsQuote(t[2..][i]) ==> t[2..][i] == '\'' {
          assert t[2..][i] == t[i + 2];
        }
      }
      ReadersAgree(t[2..]);
    } else if |t| > 0 {
      assert NoTypographicQuote(t[1..]) by {
        forall i | 0 <= i < |t[1..]| ensures IsQuote(t[1..][i]) ==> t[1..][i] == '\'' {
          assert t[1..][i] == t[i + 1];
        }
      }
      ReadersAgree(t[1..]);
    }
  }

  // As written: the Windows escape leaves U+2019 alone, so the title
  // "It’s" closes its literal after "It".

  /** The escape passes "It’s" through unchanged, and the full reader ends the
      literal at the typographic apostrophe. */
  lemma {:induction false} CurlyApostropheClosesLiteral(tail: string)
    ensures W.Escape("It\U{2019}s") == "It\U{2019}s"
    ensures ReadQuoted("It\U{2019}s" + tail) == Some(("It", "s" + tail))
  {
    var s := "It\U{2019}s";
    assert forall i | 0 <= i < |s| :: s[i] != '\'';
    var t := s + tail;
    assert t[0] == 'I' && t[1] == 't' && t[2] == '\U{2019}' && t[3] == 's';
    var t3 := t[3..];
    assert t3 == "s" + tail;
    assert t[2..] == [t[2]] + t3;
    assert ReadQuoted(t[2..]) == Some(("", t3));
    var t1 := t[1..];
    assert t1[0] == 't' && t1[1..] == t[2..];
    assert ReadQuoted(t1) == Some(([t1[0]] + "", t3));
    assert [t1[0]] + "" == [t[1]];
    assert ReadQuoted(t) == Some(([t[0]] + [t[1]], t3));
    assert [t[0]] + [t[1]] == "It";
  }

  function ParseQuotedAfterTitle(title: string, t: string): Option<W.BalloonFields> {
    var r :- StripPrefix(t, W.TextOpen);
    var text :- ReadQuoted(r);
    W.ParseAfterText(title, text.0, text.1)
  }

  /** Reads a script of the Windows backend's shape with the full quote set. */
  function ParseQuotedScript(t: string): Option<W.BalloonFields> {
    var r :- StripPrefix(t, W.TitleOpen);
    var title :- ReadQuoted(r);
    ParseQuotedAfterTitle(title.0, title.1)
  }

  /** The script text after the title literal's closing quote. */
  function AfterTitle(n: Notification): string {
    W.TextOpen + (W.Escape(n.message) + "'" + (W.ShowOpen + (Decimal(n.timeout) + W.Trailer)))
  }

  /** When the full reader closes the title literal early, at a point not
      followed by the next statement's line break, the script does not read. */
  lemma TitleClosedEarly(n: Notification, body: string, after: string)
    requires ReadQuoted(W.Escape(n.title) + "'" + AfterTitle(n)) == Some((body, after))
    requires |after| > 0 && after[0] != '\n'
    ensures ParseQuotedScript(W.Script(n)).None?
  {
    assert W.Script(n) == W.TitleOpen + (W.Escape(n.title) + "'" + AfterTitle(n));
    StripPrefixAppend(W.TitleOpen, W.Escape(n.title) + "'" + AfterTitle(n));
    assert after[0] != W.TextOpen[0];
  }

  /** A notification titled "It’s" yields a script PowerShell cannot read as
      the intended balloon: the title literal closes after "It" and the text
      that follows is not the next statement. */
  lemma CurlyApostropheBreaksScript(n: Notification)
    requires n.title == "It\U{2019}s"
    ensures ParseQuotedScript(W.Script(n)).None?
  {
    var tail := "'" + AfterTitle(n);
    CurlyApostropheClosesLiteral(tail);
    assert W.Escape(n.title) + "'" + AfterTitle(n) == "It\U{2019}s" + tail;
    TitleClosedEarly(n, "It", "s" + tail);
  }

  // Corrected: every quote character doubled.

  /** Escaping for all five quote characters: each one written twice. */
  function EscapeQuotes(s: string): (r: string)
    ensures |r| >= |s|
    ensures |s| > 0 && !IsQuote(s[0]) ==> r[0] == s[0]
  {
    if |s| == 0 then []
    else if IsQuote(s[0]) then [s[0], s[0]] + EscapeQuotes(s[1..])
    else [s[0]] + EscapeQuotes(s[1..])
  }

  /** Where no typographic quote occurs the corrected escape is the one the
      Windows backend applies. */
  lemma {:induction false} EscapeQuotesExtendsEscape(s: string)
    requires NoTypographicQuote(s)
    ensures EscapeQuotes(s) == W.Escape(s)
  {
    W.EscapeIsCharwise(s);
    EachAgrees(s);
  }

  lemma {:induction false} EachAgrees(s: string)
    requires NoTypographicQuote(s)
    ensures EscapeQuotes(s) == W.EscapeEach(s)
  {
    if |s| > 0 {
      assert NoTypographicQuote(s[1..]) by {
        forall i | 0 <= i < |s[1..]| ensures IsQuote(s[1..][i]) ==> s[1..][i] == '\'' {
          assert s[1..][i] == s[i + 1];
        }
      }
      EachAgrees(s[1..]);
    }
  }

  /** Text escaped with every quote doubled, closed by a quote that no quote
      character follows, reads back as the original under the full reader. */
  lemma {:induction false} QuotedRoundTrip(s: string, tail: string)
    requires |tail| == 0 || !IsQuote(tail[0])
    ensures ReadQuoted(EscapeQuotes(s) + "'" + tail) == Some((s, tail))
  {
    var t := EscapeQuotes(s) + "'" + tail;
    if |s| == 0 {
      assert t == "'" + tail;
      assert t[1..] == tail;
    } else {
      var inner := EscapeQuotes(s[1..]) + "'" + tail;
      QuotedRoundTrip(s[1..], tail);
      if IsQuote(s[0]) {
        assert t == [s[0], s[0]] + inner;
        assert t[2..] == inner;
      } else {
        assert t == [s[0]] + inner;
        assert t[1..] == inner;
      }
      assert s == [s[0]] + s[1..];
    }
  }

  /** The corrected escape loses nothing. */
  lemma EscapeQuotesInjective(a: string, b: string)
    requires EscapeQuotes(a) == EscapeQuotes(b)
    ensures a == b
  {
    QuotedRoundTrip(a, "");
    QuotedRoundTrip(b, "");
  }

  /** The Windows script with the corrected escape in both literals. */
  function QuoteSafeScript(n: Notification): string {
    W.TitleOpen + (EscapeQuotes(n.title) + "'"
      + (W.TextOpen + (EscapeQuotes(n.message) + "'"
      + (W.ShowOpen + (Decimal(n.timeout) + W.Trailer)))))
  }

  /** The corrected script is the Windows backend's script whenever title and
      message hold no typographic quote. */
  lemma QuoteSafeScriptExtendsScript(n: Notification)
    requires NoTypographicQuote(n.title) && NoTypographicQuote(n.message)
    ensures QuoteSafeScript(n) == W.Script(n)
  {
    EscapeQuotesExtendsEscape(n.title);
    EscapeQuotesExtendsEscape(n.message);
  }

  /** With every quote character doubled, PowerShell's reader recovers title,
      message and timeout from the script, whatever characters title and
      message hold. */
  lemma QuoteSafeScriptRoundTrip(n: Notification)
    ensures ParseQuotedScript(QuoteSafeScript(n)) == Some(W.BalloonFields(n.title, n.message, n.timeout))
  {
    var afterText := W.ShowOpen + (Decimal(n.timeout) + W.Trailer);
    var afterTitle := W.TextOpen + (EscapeQuotes(n.message) + "'" + afterText);
    StripPrefixAppend(W.TitleOpen, EscapeQuotes(n.title) + "'" + afterTitle);
    assert afterTitle[0] == '\n';
    QuotedRoundTrip(n.title, afterTitle);
    StripPrefixAppend(W.TextOpen, EscapeQuotes(n.message) + "'" + afterText);
    assert afterText[0] == '\n';
    QuotedRoundTrip(n.message, afterText);
    W.ParseAfterTextOk(n.title, n.message, n.timeout);
  }
}
