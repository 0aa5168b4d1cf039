/** Escaping a value for a single-quoted JavaScript string literal, in the two forms the
    script runners use: quotes and backslashes only (the QuickJS runners), or also carriage
    returns and line feeds (the WebView runners). Both are chains of `string.Replace` calls. */
module JsEscape {
  import opened Wrappers
  import opened Text

  // ---------------------------------------------------------------------------------------------
  // Backslash and quote

  /** `value.Replace("\\", "\\\\").Replace("'", "\\'")`. */
  function EscapeQuotes(value: string): string {
    Replace(Replace(value, "\\", "\\\\"), "'", "\\'")
  }

  /** The escape of one character under the two replacements. */
  function QuoteEscapeOf(c: char): string {
    if c == '\\' then "\\\\" else if c == '\'' then "\\'" else [c]
  }

  /** The escape taken character by character. */
  function QuoteEscapeChars(s: string): string
    decreases |s|
  {
    if |s| == 0 then "" else QuoteEscapeOf(s[0]) + QuoteEscapeChars(s[1..])
  }

  lemma EscapeQuotesConcat(a: string, b: string)
    ensures EscapeQuotes(a + b) == EscapeQuotes(a) + EscapeQuotes(b)
  {
    ReplaceCharConcat(a, b, '\\', "\\\\");
    ReplaceCharConcat(Replace(a, "\\", "\\\\"), Replace(b, "\\", "\\\\"), '\'', "\\'");
  }

  lemma EscapeQuotesOne(c: char)
    ensures EscapeQuotes([c]) == QuoteEscapeOf(c)
  {
    ReplaceCharCons(c, "", '\\', "\\\\");
    var r1 := ReplaceOne(c, '\\', "\\\\");
    assert Replace([c], "\\", "\\\\") == r1;
    if c == '\\' {
      ReplaceCharCons('\\', "\\", '\'', "\\'");
      ReplaceCharCons('\\', "", '\'', "\\'");
    } else {
      ReplaceCharCons(c, "", '\'', "\\'");
    }
  }

  /** Backslashes are doubled before quotes are escaped, so the replacements act character by
      character: no backslash added for a quote is doubled again. */
  lemma {:induction false} EscapeQuotesPerChar(s: string)
    ensures EscapeQuotes(s) == QuoteEscapeChars(s)
    decreases |s|
  {
    if |s| > 0 {
      assert s == [s[0]] + s[1..];
      EscapeQuotesConcat([s[0]], s[1..]);
      EscapeQuotesOne(s[0]);
      EscapeQuotesPerChar(s[1..]);
    }
  }

  /** The literal reads back as the original value. */
  lemma {:induction false} QuotesRoundTrip(s: string)
    ensures UnescapeLines(EscapeQuotes(s)) == s
    decreases |s|
  {
    EscapeQuotesPerChar(s);
    QuoteCharsRoundTrip(s);
  }

  lemma {:induction false} QuoteCharsRoundTrip(s: string)
    ensures UnescapeLines(QuoteEscapeChars(s)) == s
    decreases |s|
  {
    if |s| > 0 {
      var e := QuoteEscapeChars(s);
      var rest := QuoteEscapeChars(s[1..]);
      QuoteCharsRoundTrip(s[1..]);
      if s[0] == '\\' || s[0] == '\'' {
        assert e[2..] == rest;
      } else {
        assert e[1..] == rest;
      }
    }
  }

  /** Every quote in the escaped text is preceded by a backslash, so it cannot end the literal. */
  predicate QuotesEscapedIn(e: string) {
    forall i :: 0 <= i < |e| && e[i] == '\'' ==> i > 0 && e[i - 1] == '\\'
  }

  lemma {:induction false} QuotesGuarded(s: string)
    ensures QuotesEscapedIn(QuoteEscapeChars(s))
    decreases |s|
  {
    if |s| > 0 {
      QuotesGuarded(s[1..]);
      var e := QuoteEscapeChars(s);
      var h := QuoteEscapeOf(s[0]);
      var rest := QuoteEscapeChars(s[1..]);
      assert e == h + rest;
      assert QuotesEscapedIn(rest);
      forall i | 0 <= i < |e| && e[i] == '\''
        ensures i > 0 && e[i - 1] == '\\'
      {
        if i > |h| {
          assert e[i] == rest[i - |h|] && e[i - 1] == rest[i - |h| - 1];
        } else if i < |h| {
          assert e[i] == h[i] && e[0] == h[0];
          if s[0] == '\'' {
            assert h == ['\\', '\''];
          }
        }
      }
    }
  }

  /** A value without backslashes or quotes is left as it is. */
  lemma QuotesUnchanged(s: string)
    requires '\\' !in s && '\'' !in s
    ensures EscapeQuotes(s) == s
  {
    ContainsChar(s, '\\');
    ReplaceAbsent(s, "\\", "\\\\");
    ContainsChar(s, '\'');
    ReplaceAbsent(s, "'", "\\'");
  }

  /** A text without a carriage return or a line feed: a single-quoted JavaScript literal may
      not hold either one raw. */
  predicate SingleLine(s: string) {
    '\r' !in s && '\n' !in s
  }

  /** The character a backslash sequence stands for in a literal: `\r` and `\n` the control
      characters, anything else itself. */
  function EscapedChar(c: char): char {
    if c == 'r' then '\r' else if c == 'n' then '\n' else c
  }

  /** How a JavaScript parser reads a single-quoted literal whose opening quote is already
      consumed: the body up to the first quote not taken by a backslash, and the text after that
      closing quote. None when the literal is never closed, or when a raw carriage return or line
      feed comes first (a SyntaxError: unterminated string literal). */
  function ReadLiteral(s: string): Option<(string, string)>
    decreases |s|
  {
    if |s| == 0 || s[0] == '\r' || s[0] == '\n' then None
    else if s[0] == '\'' then Some(("", s[1..]))
    else if s[0] == '\\' then
      if |s| < 2 then None
      else match ReadLiteral(s[2..]) {
        case None => None
        case Some(p) => Some(([EscapedChar(s[1])] + p.0, p.1))
      }
    else match ReadLiteral(s[1..]) {
      case None => None
      case Some(p) => Some(([s[0]] + p.0, p.1))
    }
  }

  /** The quote escape keeps line breaks raw: a value on one line is read back exactly, and a
      value holding a line break makes the literal unreadable. */
  lemma {:induction false} ReadQuoteChars(a: string, rest: string)
    ensures SingleLine(a) ==> ReadLiteral(QuoteEscapeChars(a) + "'" + rest) == Some((a, rest))
    ensures !SingleLine(a) ==> ReadLiteral(QuoteEscapeChars(a) + "'" + rest) == None
    decreases |a|
  {
    var s := QuoteEscapeChars(a) + "'" + rest;
    if |a| == 0 {
      assert s == "'" + rest;
    } else {
      var tail := QuoteEscapeChars(a[1..]) + "'" + rest;
      assert a == [a[0]] + a[1..];
      assert s == QuoteEscapeOf(a[0]) + tail;
      if a[0] == '\r' || a[0] == '\n' {
        assert s[0] == a[0];
      } else {
        ReadQuoteChars(a[1..], rest);
        assert SingleLine(a) <==> SingleLine(a[1..]);
        if a[0] == '\\' || a[0] == '\'' {
          assert s[2..] == tail;
        } else {
          assert s[1..] == tail;
        }
      }
    }
  }

  /** An escaped value on one line followed by a closing quote is read back as exactly that
      value, and the literal ends at that quote: nothing in the value can close it early. A
      value holding a carriage return or a line feed is not read at all. */
  lemma ReadEscaped(a: string, rest: string)
    ensures SingleLine(a) ==> ReadLiteral(EscapeQuotes(a) + "'" + rest) == Some((a, rest))
    ensures !SingleLine(a) ==> ReadLiteral(EscapeQuotes(a) + "'" + rest) == None
  {
    EscapeQuotesPerChar(a);
    ReadQuoteChars(a, rest);
  }

  /** The quote escape leaves line breaks where they are. */
  lemma {:induction false} QuoteCharsKeepLines(s: string)
    ensures SingleLine(QuoteEscapeChars(s)) <==> SingleLine(s)
    decreases |s|
  {
    if |s| > 0 {
      QuoteCharsKeepLines(s[1..]);
      assert s == [s[0]] + s[1..];
    }
  }

  /** The runtime's null-tolerant form: null becomes "". */
  function EscapeJavaScriptString(value: Option<string>): (r: string)
    ensures value.None? ==> r == ""
    ensures value.Some? ==> UnescapeLines(r) == value.value
    ensures value.Some? ==> (SingleLine(r) <==> SingleLine(value.value))
  {
    if value.None? then "" else
      QuotesRoundTrip(value.value);
      EscapeQuotesPerChar(value.value);
      QuoteCharsKeepLines(value.value);
      EscapeQuotes(value.value)
  }

  // ---------------------------------------------------------------------------------------------
  // Backslash, quote, carriage return and line feed

  /** `value.Replace("\\", "\\\\").Replace("'", "\\'").Replace("\r", "\\r").Replace("\n", "\\n")`. */
  function EscapeLines(value: string): string {
    Replace(Replace(Replace(Replace(value, "\\", "\\\\"), "'", "\\'"), "\r", "\\r"), "\n", "\\n")
  }

  function LineEscapeOf(c: char): string {
    if c == '\\' then "\\\\" else if c == '\'' then "\\'" else if c == '\r' then "\\r"
    else if c == '\n' then "\\n" else [c]
  }

  function LineEscapeChars(s: string): string
    decreases |s|
  {
    if |s| == 0 then "" else LineEscapeOf(s[0]) + LineEscapeChars(s[1..])
  }

  lemma EscapeLinesConcat(a: string, b: string)
    ensures EscapeLines(a + b) == EscapeLines(a) + EscapeLines(b)
  {
    var a1, b1 := Replace(a, "\\", "\\\\"), Replace(b, "\\", "\\\\");
    ReplaceCharConcat(a, b, '\\', "\\\\");
    var a2, b2 := Replace(a1, "'", "\\'"), Replace(b1, "'", "\\'");
    ReplaceCharConcat(a1, b1, '\'', "\\'");
    var a3, b3 := Replace(a2, "\r", "\\r"), Replace(b2, "\r", "\\r");
    ReplaceCharConcat(a2, b2, '\r', "\\r");
    ReplaceCharConcat(a3, b3, '\n', "\\n");
  }

  /** Replacing a character in a two-character text. */
  lemma ReplacePair(x: char, y: char, c: char, rep: string)
    ensures Replace([x, y], [c], rep) == ReplaceOne(x, c, rep) + ReplaceOne(y, c, rep)
  {
    assert [x, y] == [x] + [y];
    ReplaceCharCons(x, [y], c, rep);
    ReplaceCharCons(y, "", c, rep);
  }

  lemma ReplaceSingle(x: char, c: char, rep: string)
    ensures Replace([x], [c], rep) == ReplaceOne(x, c, rep)
  {
    ReplaceCharCons(x, "", c, rep);
  }

  lemma EscapeLinesOne(c: char)
    ensures EscapeLines([c]) == LineEscapeOf(c)
  {
    ReplaceSingle(c, '\\', "\\\\");
    if c == '\\' {
      ReplacePair('\\', '\\', '\'', "\\'");
      ReplacePair('\\', '\\', '\r', "\\r");
      ReplacePair('\\', '\\', '\n', "\\n");
    } else if c == '\'' {
      ReplaceSingle(c, '\'', "\\'");
      ReplacePair('\\', '\'', '\r', "\\r");
      ReplacePair('\\', '\'', '\n', "\\n");
    } else if c == '\r' {
      ReplaceSingle(c, '\'', "\\'");
      ReplaceSingle(c, '\r', "\\r");
      ReplacePair('\\', 'r', '\n', "\\n");
    } else {
      ReplaceSingle(c, '\'', "\\'");
      ReplaceSingle(c, '\r', "\\r");
      ReplaceSingle(c, '\n', "\\n");
    }
  }

  /** The four replacements act character by character: none of them rewrites what an earlier
      one inserted (the inserted texts hold only backslashes, quotes and letters). */
  lemma {:induction false} EscapeLinesPerChar(s: string)
    ensures EscapeLines(s) == LineEscapeChars(s)
    decreases |s|
  {
    if |s| > 0 {
      assert s == [s[0]] + s[1..];
      EscapeLinesConcat([s[0]], s[1..]);
      EscapeLinesOne(s[0]);
      EscapeLinesPerChar(s[1..]);
    }
  }

  /** What a JavaScript parser reads back: `\r` and `\n` stand for the control characters, a
      backslash before anything else for that character. */
  function UnescapeLines(s: string): string
    decreases |s|
  {
    if |s| >= 2 && s[0] == '\\' then
      [if s[1] == 'r' then '\r' else if s[1] == 'n' then '\n' else s[1]] + UnescapeLines(s[2..])
    else if |s| == 0 then "" else [s[0]] + UnescapeLines(s[1..])
  }

  /** One escaped character reads back as that character. */
  lemma UnescapeLinesHead(c: char, rest: string)
    ensures UnescapeLines(LineEscapeOf(c) + rest) == [c] + UnescapeLines(rest)
  {
    var e := LineEscapeOf(c) + rest;
    if c == '\\' || c == '\'' || c == '\r' || c == '\n' {
      assert e[2..] == rest;
    } else {
      assert e[1..] == rest;
    }
  }

  lemma {:induction false} LineCharsRoundTrip(s: string)
    ensures UnescapeLines(LineEscapeChars(s)) == s
    decreases |s|
  {
    if |s| > 0 {
      LineCharsRoundTrip(s[1..]);
      UnescapeLinesHead(s[0], LineEscapeChars(s[1..]));
      assert s == [s[0]] + s[1..];
    }
  }

  /** The escaped text holds no line break, so the literal stays on one line. */
  lemma {:induction false} LineCharsSingleLine(s: string)
    ensures '\r' !in LineEscapeChars(s) && '\n' !in LineEscapeChars(s)
    decreases |s|
  {
    if |s| > 0 {
      LineCharsSingleLine(s[1..]);
    }
  }

  /** The literal reads back as the value and stays on one line. */
  lemma LinesRoundTrip(s: string)
    ensures UnescapeLines(EscapeLines(s)) == s
    ensures '\r' !in EscapeLines(s) && '\n' !in EscapeLines(s)
  {
    EscapeLinesPerChar(s);
    LineCharsRoundTrip(s);
    LineCharsSingleLine(s);
  }

  /** A value without any of the four characters is left as it is. */
  lemma {:induction false} LinesUnchanged(s: string)
    requires '\\' !in s && '\'' !in s && '\r' !in s && '\n' !in s
    ensures EscapeLines(s) == s
    decreases |s|
  {
    EscapeLinesPerChar(s);
    LineCharsUnchanged(s);
  }

  lemma {:induction false} LineCharsUnchanged(s: string)
    requires '\\' !in s && '\'' !in s && '\r' !in s && '\n' !in s
    ensures LineEscapeChars(s) == s
    decreases |s|
  {
    if |s| > 0 {
      var t := s[1..];
      assert s == [s[0]] + t;
      assert '\\' !in t && '\'' !in t && '\r' !in t && '\n' !in t;
      LineCharsUnchanged(t);
    }
  }

  lemma {:induction false} ReadLineChars(a: string, rest: string)
    ensures ReadLiteral(LineEscapeChars(a) + "'" + rest) == Some((a, rest))
    decreases |a|
  {
    var s := LineEscapeChars(a) + "'" + rest;
    if |a| == 0 {
      assert s == "'" + rest;
    } else {
      var tail := LineEscapeChars(a[1..]) + "'" + rest;
      ReadLineChars(a[1..], rest);
      assert s == LineEscapeOf(a[0]) + tail;
      if a[0] == '\\' || a[0] == '\'' || a[0] == '\r' || a[0] == '\n' {
        assert s[2..] == tail;
      } else {
        assert s[1..] == tail;
      }
      assert a == [a[0]] + a[1..];
    }
  }

  /** A value escaped with the four replacements and followed by a closing quote is read back as
      exactly that value, and the literal ends at that quote. */
  lemma ReadLinesEscaped(a: string, rest: string)
    ensures ReadLiteral(EscapeLines(a) + "'" + rest) == Some((a, rest))
  {
    EscapeLinesPerChar(a);
    ReadLineChars(a, rest);
  }

  /** The WebView runners' null-tolerant form: null becomes "". */
  function EscapeJsString(value: Option<string>): (r: string)
    ensures value.None? ==> r == ""
    ensures value.Some? ==> UnescapeLines(r) == value.value && '\n' !in r && '\r' !in r
  {
    if value.None? then "" else
      LinesRoundTrip(value.value);
      EscapeLines(value.value)
  }
}
