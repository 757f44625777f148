/** What holds of the tokens of every text: they are well formed, and EOF comes last and only there. */
module LexFacts {
  import opened Text
  import opened Tokens
  import opened Ast
  import opened LexSpec
  import opened LexWords
  import opened LexPrinted
  import opened Closure

  lemma {:induction false} IdentLenOfPrefix(s: string)
    ensures IdentLen(s[..IdentLen(s)]) == IdentLen(s)
    ensures s != "" && IsIdentStart(s[0]) ==> IdentLen(s) > 0
  {
    var n := IdentLen(s);
    if n > 0 {
      IdentLenOfPrefix(s[1..]);
      assert s[..n][1..] == s[1..][..n - 1];
    }
  }

  lemma {:induction false} NumberLenOfPrefix(s: string)
    ensures forall i :: 0 <= i < NumberLen(s) ==> IsDigit(s[i]) || s[i] == '.'
  {
    if NumberLen(s) > 0 {
      NumberLenOfPrefix(s[1..]);
      forall i | 0 < i < NumberLen(s)
        ensures IsDigit(s[i]) || s[i] == '.'
      {
        assert s[i] == s[1..][i - 1];
      }
    }
  }

  lemma {:induction false} TrimmedEnd(s: string)
    ensures !EndsInNewline(TrimNewlines(s))
  {
    if s != "" && s[|s| - 1] == '\n' { TrimmedEnd(s[..|s| - 1]); }
  }

  /** The keyword tables give no token kind that the lexer makes in another way. */
  lemma KeywordKinds(w: string)
    ensures LookupIdent(w) !in {EOF, ILLEGAL, NEWLINE, COMMENT, STRING, NUMBER, LPAREN, DOT, HEREDOC_START, HEREDOC_BODY}
  {
    if w in DECLARATION_KEYWORDS {
      DeclarationKinds(w);
    } else if w in BUILD_KEYWORDS {
      BuildKinds(w);
    }
  }

  lemma DeclarationKinds(w: string)
    requires w in DECLARATION_KEYWORDS
    ensures DECLARATION_KEYWORDS[w] !in
      {EOF, ILLEGAL, NEWLINE, COMMENT, STRING, NUMBER, LPAREN, DOT, HEREDOC_START, HEREDOC_BODY}
  {}

  lemma BuildKinds(w: string)
    requires w in BUILD_KEYWORDS
    ensures BUILD_KEYWORDS[w] !in
      {EOF, ILLEGAL, NEWLINE, COMMENT, STRING, NUMBER, LPAREN, DOT, HEREDOC_START, HEREDOC_BODY}
  {}

  ghost predicate Emitted(t: Token) { LexedToken(t) && t.typ != EOF }

  lemma WordIsEmitted(s: string)
    requires s != "" && IsIdentStart(s[0])
    ensures Emitted(Token(LookupIdent(s[..IdentLen(s)]), s[..IdentLen(s)]))
  {
    var w := s[..IdentLen(s)];
    assert IsWord(w) by { IdentLenOfPrefix(s); }
    KeywordKinds(w);
    hide LookupIdent, IsWord, IdentLen, IsNumberText, EndsInNewline;
  }

  lemma NumberIsEmitted(s: string)
    requires s != "" && IsDigit(s[0])
    ensures Emitted(Token(NUMBER, s[..NumberLen(s)]))
  {
    NumberLenOfPrefix(s);
  }

  lemma HeredocIsEmitted(s: string)
    ensures forall i :: 0 <= i < |ScanHeredoc(s).tokens| ==> Emitted(ScanHeredoc(s).tokens[i])
  {
    var m := MarkerLen(s);
    var body := if m < |s| && s[m] == '\n' then s[m + 1..] else s[m..];
    TrimmedEnd(ReadHeredoc(body, s[..m]).text);
    hide ReadHeredoc, MarkerLen, TrimNewlines, EndsInNewline;
  }

  lemma ScanIsEmitted(s: string)
    requires s != "" && !IsBlank(s[0])
    ensures forall i :: 0 <= i < |Scan(s).tokens| ==> Emitted(Scan(s).tokens[i])
  {
    hide ScanHeredoc, LookupIdent, NumberLen, IdentLen, ReadString, LineLen;
    if Starts(s, '<', '<') {
      HeredocIsEmitted(s[2..]);
      ScanMarker(s);
    } else {
      if IsIdentStart(s[0]) { WordIsEmitted(s); }
      if IsDigit(s[0]) { NumberIsEmitted(s); }
      ScanSimple(s);
    }
  }

  lemma ScanSimple(s: string)
    requires s != "" && !IsBlank(s[0]) && !Starts(s, '<', '<')
    requires IsIdentStart(s[0]) ==> Emitted(Token(LookupIdent(s[..IdentLen(s)]), s[..IdentLen(s)]))
    requires IsDigit(s[0]) ==> Emitted(Token(NUMBER, s[..NumberLen(s)]))
    ensures forall i :: 0 <= i < |Scan(s).tokens| ==> Emitted(Scan(s).tokens[i])
  {
    hide ScanHeredoc, LookupIdent, NumberLen, IdentLen, ReadString, LineLen, IsLetter;
    assert |Scan(s).tokens| == 1;
  }

  /** The lexer is total: it emits one EOF, at the very end, after well-formed tokens. */
  lemma {:induction false} LexIsLexed(s: string)
    ensures var ts := Lex(s);
      && Lexed(ts)
      && ts != [] && ts[|ts| - 1] == Token(EOF, "")
      && forall i :: 0 <= i < |ts| - 1 ==> ts[i].typ != EOF
    decreases |s|
  {
    hide Scan, LexedToken;
    if s == "" {
      EndIsLexed();
    } else if IsBlank(s[0]) {
      LexIsLexed(s[1..]);
    } else {
      ScanIsEmitted(s);
      LexIsLexed(Scan(s).rest);
    }
  }

  lemma EndIsLexed()
    ensures LexedToken(Token(EOF, ""))
  {}

  /** An identifier token is always a name, so nothing but names can be printed bare and read back. */
  lemma IdentIsName(s: string, i: nat)
    requires i < |Lex(s)| && Lex(s)[i].typ == IDENT
    ensures IsName(Lex(s)[i].literal)
  {
    LexIsLexed(s);
    hide Lex, LookupIdent, IsWord, IsNumberText;
  }
}
