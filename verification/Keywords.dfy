/** Every keyword lexes as one word, and the tables give it its own token type. */
module Keywords {
  import opened Tokens
  import opened LexSpec
  import opened LexWords

  predicate IsPlain(w: string) {
    w != "" && forall i :: 0 <= i < |w| ==> 'a' <= w[i] <= 'z' || 'A' <= w[i] <= 'Z' || w[i] == '_'
  }

  lemma {:induction false} PlainLen(w: string)
    requires forall i :: 0 <= i < |w| ==> 'a' <= w[i] <= 'z' || 'A' <= w[i] <= 'Z' || w[i] == '_'
    ensures IdentLen(w) == |w|
  {
    if w != "" { PlainLen(w[1..]); }
  }

  lemma DeclarationKeywordsArePlain(w: string)
    requires w in DECLARATION_KEYWORDS
    ensures IsPlain(w) && 'A' <= w[0] <= 'Z'
  {
    DeclarationKeywordsAreUpper(w);
    hide DECLARATION_KEYWORDS;
  }

  lemma DeclarationKeywordsAreUpper(w: string)
    requires w in DECLARATION_KEYWORDS
    ensures w != "" && 'A' <= w[0] <= 'Z' && forall i :: 0 <= i < |w| ==> 'A' <= w[i] <= 'Z' || w[i] == '_'
  {}

  lemma BuildKeywordsArePlain(w: string)
    requires w in BUILD_KEYWORDS
    ensures IsPlain(w) && 'a' <= w[0] <= 'z'
  {}

  predicate IsKeyword(w: string, t: TokenType) { IsWord(w) && LookupIdent(w) == t }

  lemma DeclarationKeyword(w: string)
    requires w in DECLARATION_KEYWORDS
    ensures IsKeyword(w, DECLARATION_KEYWORDS[w])
  {
    DeclarationKeywordsArePlain(w);
    hide DECLARATION_KEYWORDS, BUILD_KEYWORDS;
    PlainLen(w);
  }

  lemma BuildKeyword(w: string)
    requires w in BUILD_KEYWORDS
    ensures IsKeyword(w, BUILD_KEYWORDS[w])
  {
    BuildKeywordsArePlain(w);
    if w in DECLARATION_KEYWORDS {
      DeclarationKeywordsArePlain(w);
    }
    PlainLen(w);
  }

  lemma LexDeclarationKeyword(w: string, s: string)
    requires w in DECLARATION_KEYWORDS && Breaks(s)
    ensures Lex(w + s) == [Token(DECLARATION_KEYWORDS[w], w)] + Lex(s)
  {
    hide Lex, LookupIdent;
    DeclarationKeyword(w);
    LexWord(w, s);
  }

  lemma LexBuildKeyword(w: string, s: string)
    requires w in BUILD_KEYWORDS && Breaks(s)
    ensures Lex(w + s) == [Token(BUILD_KEYWORDS[w], w)] + Lex(s)
  {
    hide Lex, LookupIdent;
    BuildKeyword(w);
    LexWord(w, s);
  }

  lemma PlainName(w: string)
    requires IsPlain(w) && w !in DECLARATION_KEYWORDS && w !in BUILD_KEYWORDS
    ensures IsName(w)
  {
    hide DECLARATION_KEYWORDS, BUILD_KEYWORDS;
    PlainLen(w);
  }
}
