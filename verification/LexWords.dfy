/** How the pieces of printed text lex: words, punctuation, numbers, string literals, heredocs. */
module LexWords {
  import opened Text
  import opened Tokens
  import opened LexSpec
  import opened PrintSpec
  import opened PrintTokens

  predicate IsWord(w: string) { w != "" && IsIdentStart(w[0]) && IdentLen(w) == |w| }

  /** A text that lexes as one identifier that is not a keyword. */
  predicate IsName(w: string) { IsWord(w) && LookupIdent(w) == IDENT }

  predicate IsNumberText(n: string) {
    n != "" && IsDigit(n[0]) && forall i :: 0 <= i < |n| ==> IsDigit(n[i]) || n[i] == '.'
  }

  /** What may follow a word or a number in printed text. */
  predicate Breaks(s: string) {
    s == "" || s[0] in {' ', '\n', ',', '(', ')', '[', ']', ':', '.', '='}
  }

  lemma {:induction false} IdentLenStops(w: string, s: string)
    requires IdentLen(w) == |w| && Breaks(s)
    ensures IdentLen(w + s) == |w|
  {
    if w == "" {
      assert w + s == s;
    } else {
      IdentLenStops(w[1..], s);
      assert (w + s)[1..] == w[1..] + s;
    }
  }

  lemma LexWord(w: string, s: string)
    requires IsWord(w) && Breaks(s)
    ensures Lex(w + s) == [Token(LookupIdent(w), w)] + Lex(s)
  {
    hide Scan, LookupIdent;
    IdentLenStops(w, s);
    ScanWord(w + s);
    LexStep(w + s);
    assert (w + s)[..|w|] == w && (w + s)[|w|..] == s;
  }

  lemma LexName(w: string, s: string)
    requires IsName(w) && Breaks(s)
    ensures Lex(w + s) == [IdentToken(w)] + Lex(s)
  {
    LexWord(w, s);
  }

  lemma {:induction false} NumberLenStops(n: string, s: string)
    requires forall i :: 0 <= i < |n| ==> IsDigit(n[i]) || n[i] == '.'
    requires Breaks(s) && (s != "" ==> s[0] != '.')
    ensures NumberLen(n + s) == |n|
  {
    if n == "" {
      assert n + s == s;
    } else {
      NumberLenStops(n[1..], s);
      assert (n + s)[1..] == n[1..] + s;
    }
  }

  lemma LexNumber(n: string, s: string)
    requires IsNumberText(n) && Breaks(s) && (s != "" ==> s[0] != '.')
    ensures Lex(n + s) == [Token(NUMBER, n)] + Lex(s)
  {
    hide Scan;
    NumberLenStops(n, s);
    ScanNumber(n + s);
    LexStep(n + s);
    assert (n + s)[..|n|] == n && (n + s)[|n|..] == s;
  }

  lemma LexSpace(s: string)
    ensures Lex(" " + s) == Lex(s)
  {
    LexBlank(" " + s);
    assert (" " + s)[1..] == s;
  }

  lemma LexPunctuation(c: char, s: string)
    requires Punctuation(c).Some?
    requires c == '=' ==> s != "" && s[0] != '='
    ensures Lex([c] + s) == [Token(Punctuation(c).value, [c])] + Lex(s)
  {
    hide Scan;
    ScanPunctuation([c] + s);
    LexStep([c] + s);
    assert ([c] + s)[1..] == s;
  }

  lemma LexEqual(s: string)
    ensures Lex("==" + s) == [Token(EQ, "==")] + Lex(s)
    ensures Lex("!=" + s) == [Token(NEQ, "!=")] + Lex(s)
  {
    hide Scan;
    ScanEquality("==" + s);
    LexStep("==" + s);
    assert ("==" + s)[2..] == s;
    ScanEquality("!=" + s);
    LexStep("!=" + s);
    assert ("!=" + s)[2..] == s;
  }

  // ---------------------------------------------------------------- string literals

  lemma ReadEscapedChar(c: char, s: string)
    ensures ReadString(EscapeChar(c) + s) == ReadString(s).(text := [c] + ReadString(s).text)
  {
    var t := EscapeChar(c) + s;
    if EscapeChar(c) == [c] {
      assert t[1..] == s;
    } else {
      assert t[2..] == s;
    }
  }

  /** Reading back an escaped string stops at its closing quote and gives the string itself. */
  lemma {:induction false} ReadEscaped(v: string, s: string)
    ensures ReadString(Escape(v) + ("\"" + s)) == Reading(true, v, s)
  {
    var close := "\"" + s;
    if v == "" {
      assert Escape(v) + close == close && close[1..] == s;
    } else {
      ReadEscaped(v[1..], s);
      ReadEscapedChar(v[0], Escape(v[1..]) + close);
      ConcatAssociates(EscapeChar(v[0]), Escape(v[1..]), close);
      assert [v[0]] + v[1..] == v;
    }
  }

  lemma LexLiteral(body: string, v: string, s: string)
    requires ReadString(body + ("\"" + s)) == Reading(true, v, s)
    ensures Lex("\"" + body + "\"" + s) == [StringToken(v)] + Lex(s)
  {
    var t := "\"" + body + "\"" + s;
    hide Scan, ReadString, Lex;
    assert t[1..] == body + ("\"" + s);
    ScanQuote(t);
    LexStep(t);
  }

  /** Every string survives printing as a literal and lexing, whatever text follows. */
  lemma LexQuoted(v: string, s: string)
    ensures Lex(QuoteString(v) + s) == [StringToken(v)] + Lex(s)
  {
    ReadEscaped(v, s);
    LexLiteral(Escape(v), v, s);
  }

  // ---------------------------------------------------------------- heredocs

  lemma {:induction false} MarkerLenStops(m: string, s: string)
    requires IsMarker(m) || m == ""
    requires s != "" && s[0] == '\n'
    ensures MarkerLen(m + s) == |m|
  {
    if m == "" {
      assert m + s == s;
    } else {
      MarkerLenStops(m[1..], s);
      assert (m + s)[1..] == m[1..] + s;
    }
  }

  lemma LineLenAt(line: string, s: string)
    requires forall i :: 0 <= i < |line| ==> line[i] != '\n'
    ensures LineLen(line + ("\n" + s)) == |line|
    ensures NextLine(line + ("\n" + s)) == s
    ensures (line + ("\n" + s))[..|line|] == line
  {
    var t := line + ("\n" + s);
    LineLenIsFirstNewline(t);
    assert t[|line|] == '\n';
    assert LineLen(t) == |line|;
    assert t[|line| + 1..] == s;
  }

  lemma TrimMarker(m: string)
    requires IsMarker(m)
    ensures TrimSpace(m) == m
  {}

  lemma HeredocLine(line: string, more: string, m: string)
    requires forall i :: 0 <= i < |line| ==> line[i] != '\n'
    requires TrimSpace(line) != m
    ensures ReadHeredoc(line + ("\n" + more), m) ==
      ReadHeredoc(more, m).(text := line + "\n" + ReadHeredoc(more, m).text)
  {
    hide TrimSpace;
    LineLenAt(line, more);
  }

  lemma HeredocClose(m: string, s: string)
    requires IsMarker(m)
    ensures ReadHeredoc(m + ("\n" + s), m) == Reading(true, "", s)
  {
    LineLenAt(m, s);
    TrimMarker(m);
    hide TrimSpace;
  }

  /** The body of a printed heredoc is read to its end, and no line of it is taken for the marker. */
  lemma {:induction false} ReadHeredocBody(content: string, m: string, s: string)
    requires IsMarker(m) && !Contains(content, m)
    ensures ReadHeredoc(content + ("\n" + (m + ("\n" + s))), m) == Reading(true, content + "\n", s)
    decreases |content|
  {
    hide Contains, ReadHeredoc, TrimSpace, LineLen;
    var close := m + ("\n" + s);
    var n := LineLen(content);
    var line := content[..n];
    LineIsNotMarker(content, n, m);
    LineLenIsFirstNewline(content);
    if n == |content| {
      assert line == content;
      HeredocLine(line, close, m);
      HeredocClose(m, s);
      assert content + "\n" + "" == content + "\n";
    } else {
      var tail := content[n + 1..];
      var more := tail + ("\n" + close);
      AbsentInTail(content, n + 1, m);
      ReadHeredocBody(tail, m, s);
      SplitAtNewline(content, n, "\n" + close);
      SplitAtNewline(content, n, "\n");
      HeredocLine(line, more, m);
      ConcatAssociates(line, "\n", tail + "\n");
    }
  }

  lemma SplitAtNewline(s: string, n: nat, after: string)
    requires n < |s| && s[n] == '\n'
    ensures s + after == s[..n] + ("\n" + (s[n + 1..] + after))
  {
    assert s == s[..n] + "\n" + s[n + 1..];
  }

  lemma LineIsNotMarker(content: string, n: nat, m: string)
    requires n <= |content| && !Contains(content, m)
    ensures TrimSpace(content[..n]) != m
  {
    assert "" + content[..n] + content[n..] == content;
    if TrimSpace(content[..n]) == m {
      TrimmedIsContained(content[..n]);
      ContainsInContext("", content[..n], content[n..], m);
    }
  }

  lemma AbsentInTail(content: string, n: nat, m: string)
    requires n <= |content| && !Contains(content, m)
    ensures !Contains(content[n..], m)
  {
    assert content[..n] + content[n..] + "" == content;
    if Contains(content[n..], m) {
      ContainsInContext(content[..n], content[n..], "", m);
    }
  }

  /** A heredoc gives back its content without trailing newlines, and the newline after it is swallowed. */
  lemma LexHeredoc(content: string, s: string)
    ensures Lex(HeredocText(content) + ("\n" + s)) ==
      [Token(HEREDOC_START, ChooseMarker(content)), Token(HEREDOC_BODY, TrimNewlines(content))] + Lex(s)
  {
    var m := ChooseMarker(content);
    var close := m + ("\n" + s);
    var after := "\n" + (content + ("\n" + close));
    var t := "<<" + (m + after);
    hide ChooseMarker, Scan, Lex, HeredocText;
    HeredocTextSplit(content, s);
    ScanMarker(t);
    assert t[2..] == m + after;
    ScanPrintedHeredoc(content, m, s);
    hide ScanHeredoc, TrimNewlines;
    LexStep(t);
  }

  lemma ScanPrintedHeredoc(content: string, m: string, s: string)
    requires IsMarker(m) && !Contains(content, m)
    ensures ScanHeredoc(m + ("\n" + (content + ("\n" + (m + ("\n" + s)))))) ==
      Scanned([Token(HEREDOC_START, m), Token(HEREDOC_BODY, TrimNewlines(content))], s)
  {
    hide Contains, ReadHeredoc, MarkerLen, TrimNewlines;
    var body := content + ("\n" + (m + ("\n" + s)));
    MarkerLenStops(m, "\n" + body);
    ReadHeredocBody(content, m, s);
    TrimLastNewline(content);
    hide IsMarker;
    HeredocParts(m, body);
  }

  lemma TrimLastNewline(content: string)
    ensures TrimNewlines(content + "\n") == TrimNewlines(content)
  {
    assert (content + "\n")[..|content|] == content;
  }

  lemma HeredocParts(m: string, body: string)
    ensures var t := m + ("\n" + body); t[..|m|] == m && t[|m|] == '\n' && t[|m| + 1..] == body
  {}

  lemma HeredocTextSplit(content: string, s: string)
    ensures var m := ChooseMarker(content);
      HeredocText(content) + ("\n" + s) == "<<" + (m + ("\n" + (content + ("\n" + (m + ("\n" + s))))))
  {
    hide ChooseMarker;
    var m := ChooseMarker(content);
    var end := "\n" + s;
    calc {
      HeredocText(content) + end;
      "<<" + m + "\n" + content + "\n" + m + end;
      "<<" + m + "\n" + content + "\n" + (m + end);
      "<<" + m + "\n" + content + ("\n" + (m + end));
      "<<" + m + "\n" + (content + ("\n" + (m + end)));
      "<<" + m + ("\n" + (content + ("\n" + (m + end))));
      "<<" + (m + ("\n" + (content + ("\n" + (m + end)))));
    }
  }
}
