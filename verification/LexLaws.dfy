/** The lexer on any text: how far each token reaches, and what becomes of comments, blanks and what does not lex. */
module LexLaws {
  import opened Text
  import opened Tokens
  import opened LexSpec
  import opened LexWords
  import opened PrintTokens

  // ---------------------------------------------------------------- how far a token reaches

  /** Inside an identifier: a letter, a digit, an underscore, or a hyphen with a letter or underscore behind it. */
  predicate InIdent(s: string, i: nat)
    requires i < |s|
  {
    IsIdentPart(s[i]) || (s[i] == '-' && i + 1 < |s| && IsIdentStart(s[i + 1]))
  }

  /** An identifier takes all it can, and a number, a line and a marker too. */
  lemma {:induction false} IdentIsMaximal(s: string)
    ensures (forall i: nat :: i < IdentLen(s) ==> InIdent(s, i)) && (IdentLen(s) < |s| ==> !InIdent(s, IdentLen(s)))
  {
    hide IsLetter, IsIdentPart;
    if IdentLen(s) > 0 {
      IdentIsMaximal(s[1..]);
      forall i: nat | 0 < i < |s|
        ensures InIdent(s, i) == InIdent(s[1..], i - 1)
      {}
    }
  }

  lemma {:induction false} NumberIsMaximal(s: string)
    ensures forall i: nat :: i < NumberLen(s) ==> '0' <= s[i] <= '9' || s[i] == '.'
    ensures NumberLen(s) < |s| ==> !('0' <= s[NumberLen(s)] <= '9' || s[NumberLen(s)] == '.')
  {
    if NumberLen(s) > 0 {
      NumberIsMaximal(s[1..]);
      assert forall i: nat :: 0 < i < |s| ==> s[i] == s[1..][i - 1];
    }
  }

  lemma {:induction false} MarkerIsMaximal(s: string)
    ensures forall i: nat :: i < MarkerLen(s) ==> s[i] != '\n' && s[i] != ' '
    ensures MarkerLen(s) < |s| ==> s[MarkerLen(s)] == '\n' || s[MarkerLen(s)] == ' '
  {
    if MarkerLen(s) > 0 {
      MarkerIsMaximal(s[1..]);
      assert forall i: nat :: 0 < i < |s| ==> s[i] == s[1..][i - 1];
    }
  }

  /** A letter of ASCII is a letter, and nothing else of ASCII is. */
  lemma LettersExactly(c: char)
    requires c as int <= 0x7F
    ensures IsLetter(c) <==> 'a' <= c <= 'z' || 'A' <= c <= 'Z'
    ensures IsIdentStart(c) <==> 'a' <= c <= 'z' || 'A' <= c <= 'Z' || c == '_'
    ensures IsIdentPart(c) <==> 'a' <= c <= 'z' || 'A' <= c <= 'Z' || '0' <= c <= '9' || c == '_'
    ensures IsBlank(c) <==> c in {' ', '\t', '\r'}
  {}

  // ---------------------------------------------------------------- blanks, comments and what does not lex

  predicate AllBlank(s: string) { forall i :: 0 <= i < |s| ==> IsBlank(s[i]) }

  lemma {:induction false} BlanksAreSkipped(b: string, s: string)
    requires AllBlank(b)
    ensures Lex(b + s) == Lex(s)
  {
    if b == "" {
      assert b + s == s;
    } else {
      assert (b + s)[1..] == b[1..] + s;
      BlanksAreSkipped(b[1..], s);
      LexBlank(b + s);
    }
  }

  lemma {:induction false} LineStops(c: string, s: string)
    requires (forall i :: 0 <= i < |c| ==> c[i] != '\n') && (s == "" || s[0] == '\n')
    ensures LineLen(c + s) == |c|
  {
    if c == "" {
      assert c + s == s;
    } else {
      assert (c + s)[1..] == c[1..] + s;
      LineStops(c[1..], s);
    }
  }

  /** A comment reaches to the end of its line, whatever is in it, and is one token. */
  lemma CommentIsOneToken(c: string, s: string)
    requires (forall i :: 0 <= i < |c| ==> c[i] != '\n') && (s == "" || s[0] == '\n')
    ensures Lex("#" + c + s) == [Token(COMMENT, "#" + c)] + Lex(s)
  {
    var t := "#" + c + s;
    assert t == ("#" + c) + s && t[0] == '#';
    LineStops("#" + c, s);
    ScanComment(t);
    LexStep(t);
    assert t[..|"#" + c|] == "#" + c && t[|"#" + c|..] == s;
    hide Scan, LineLen;
  }

  /** A character that begins no token is one illegal token by itself, and what follows is lexed as ever. */
  lemma IllegalIsOneToken(c: char, s: string)
    requires c as int <= 0x7F && !('a' <= c <= 'z' || 'A' <= c <= 'Z' || '0' <= c <= '9')
    requires c !in {' ', '\t', '\r', '\n', '_', '#', '"', '=', '+', '.', ',', '(', ')', '{', '}', '[', ']', ':', '<', '!'}
    ensures Lex([c] + s) == [Token(ILLEGAL, [c])] + Lex(s)
  {
    var t := [c] + s;
    LettersExactly(c);
    ScanIllegal(t);
    LexStep(t);
    assert t[1..] == s;
    hide Scan;
  }

  lemma LoneAngle(c: char, s: string)
    requires c in {'<', '!'} && (s != "" ==> s[0] != (if c == '<' then '<' else '='))
    ensures Lex([c] + s) == [Token(ILLEGAL, [c])] + Lex(s)
  {
    var t := [c] + s;
    LettersExactly(c);
    ScanIllegal(t);
    LexStep(t);
    assert t[1..] == s;
    hide Scan;
  }

  /** No quote ends the text: every one of them is escaped. */
  predicate NeverCloses(s: string)
    decreases |s|
  {
    s == "" || (s[0] != '"' && NeverCloses(if s[0] == '\\' && |s| > 1 then s[2..] else s[1..]))
  }

  lemma {:induction false} ReadsToTheEnd(s: string)
    ensures NeverCloses(s) <==> !ReadString(s).closed
    ensures !ReadString(s).closed ==> ReadString(s).rest == ""
    decreases |s|
  {
    ReadStringEnd(s);
    if s != "" && s[0] != '"' {
      ReadStringStep(s);
      ReadsToTheEnd(if s[0] == '\\' && |s| > 1 then s[2..] else s[1..]);
      hide ReadString, Unescape;
    }
  }

  /** A string that is not closed takes the rest of the text and is illegal. */
  lemma UnclosedIsIllegal(s: string)
    requires NeverCloses(s)
    ensures Lex("\"" + s) == [Token(ILLEGAL, "unterminated string"), Token(EOF, "")]
  {
    var t := "\"" + s;
    assert t[1..] == s;
    ReadsToTheEnd(s);
    ScanAnyQuote(t);
    LexStep(t);
    assert Lex("") == [Token(EOF, "")];
    hide Scan, ReadString, NeverCloses;
  }

  /** No line of the text is the marker once it is trimmed. */
  predicate NoLineIs(s: string, m: string)
    decreases |s|
  {
    s == "" || (TrimSpace(s[..LineLen(s)]) != m && NoLineIs(NextLine(s), m))
  }

  lemma {:induction false} HeredocRunsOut(s: string, m: string)
    ensures NoLineIs(s, m) <==> !ReadHeredoc(s, m).closed
    ensures !ReadHeredoc(s, m).closed ==> ReadHeredoc(s, m).rest == ""
    decreases |s|
  {
    hide LineLen, TrimSpace;
    if s != "" && TrimSpace(s[..LineLen(s)]) != m { HeredocRunsOut(NextLine(s), m); }
  }

  /** A heredoc whose marker never comes back takes the rest of the text and is illegal. */
  lemma UnclosedHeredocIsIllegal(m: string, s: string)
    requires (forall i :: 0 <= i < |m| ==> m[i] != '\n' && m[i] != ' ') && NoLineIs(s, m)
    ensures Lex("<<" + m + "\n" + s) ==
      [Token(HEREDOC_START, m), Token(ILLEGAL, "unterminated heredoc, missing " + m), Token(EOF, "")]
  {
    var t := "<<" + m + "\n" + s;
    assert t[2..] == m + ("\n" + s);
    MarkerStops(m, "\n" + s);
    HeredocRunsOut(s, m);
    ScanMarker(t);
    LexStep(t);
    assert (m + ("\n" + s))[..|m|] == m && (m + ("\n" + s))[|m| + 1..] == s;
    hide Scan, ReadHeredoc, NoLineIs, MarkerLen, TrimNewlines;
    assert ScanHeredoc(m + ("\n" + s)).rest == "";
    assert Lex("") == [Token(EOF, "")];
  }

  lemma {:induction false} MarkerStops(m: string, s: string)
    requires (forall i :: 0 <= i < |m| ==> m[i] != '\n' && m[i] != ' ') && s != "" && s[0] == '\n'
    ensures MarkerLen(m + s) == |m|
  {
    if m == "" {
      assert m + s == s;
    } else {
      assert (m + s)[1..] == m[1..] + s;
      MarkerStops(m[1..], s);
    }
  }

  /** Words and keywords are told apart by the tables alone; a number may have any dots. */
  lemma WordsAndNumbers(w: string, n: string, s: string)
    requires Breaks(s) && (s != "" ==> s[0] != '.')
    ensures IsWord(w) ==> Lex(w + s) == [Token(LookupIdent(w), w)] + Lex(s)
    ensures IsNumberText(n) ==> Lex(n + s) == [Token(NUMBER, n)] + Lex(s)
  {
    if IsWord(w) { LexWord(w, s); }
    if IsNumberText(n) { LexNumber(n, s); }
    hide Lex, IsWord, IsNumberText;
  }
}
