/** The literal forms of the AgentFile language: which texts they are, and which values they carry. */
module Literals {
  import opened Text
  import opened Tokens
  import opened Ast
  import opened LexSpec
  import opened PrintSpec
  import opened PrintTokens
  import opened LexWords
  import opened LexPrinted
  import opened LexDecls
  import opened LexFacts

  // ---------------------------------------------------------------- the four passes of FormatStringLiteral

  /** `strings.ReplaceAll` for a pattern of one character. */
  function ReplaceAll(s: string, c: char, repl: string): string {
    if s == "" then "" else (if s[0] == c then repl else [s[0]]) + ReplaceAll(s[1..], c, repl)
  }

  function FourPasses(s: string): string {
    ReplaceAll(ReplaceAll(ReplaceAll(ReplaceAll(s, '\\', "\\\\"), '"', "\\\""), '\n', "\\n"), '\t', "\\t")
  }

  function FormatStringLiteral(s: string): string { "\"" + FourPasses(s) + "\"" }

  lemma {:induction false} ReplaceConcat(a: string, b: string, c: char, repl: string)
    ensures ReplaceAll(a + b, c, repl) == ReplaceAll(a, c, repl) + ReplaceAll(b, c, repl)
  {
    if a == "" {
      assert a + b == b;
    } else {
      assert (a + b)[1..] == a[1..] + b;
      ReplaceConcat(a[1..], b, c, repl);
    }
  }

  lemma FourPassesConcat(a: string, b: string)
    ensures FourPasses(a + b) == FourPasses(a) + FourPasses(b)
  {
    hide ReplaceAll;
    ReplaceConcat(a, b, '\\', "\\\\");
    var a1, b1 := ReplaceAll(a, '\\', "\\\\"), ReplaceAll(b, '\\', "\\\\");
    ReplaceConcat(a1, b1, '"', "\\\"");
    var a2, b2 := ReplaceAll(a1, '"', "\\\""), ReplaceAll(b1, '"', "\\\"");
    ReplaceConcat(a2, b2, '\n', "\\n");
    ReplaceConcat(ReplaceAll(a2, '\n', "\\n"), ReplaceAll(b2, '\n', "\\n"), '\t', "\\t");
  }

  lemma ReplaceOne(x: char, c: char, repl: string)
    ensures ReplaceAll([x], c, repl) == if x == c then repl else [x]
  {
    assert [x][1..] == "";
  }

  lemma ReplaceTwo(x: char, y: char, c: char, repl: string)
    requires x != c && y != c
    ensures ReplaceAll([x, y], c, repl) == [x, y]
  {
    assert [x, y] == [x] + [y];
    ReplaceConcat([x], [y], c, repl);
    ReplaceOne(x, c, repl);
    ReplaceOne(y, c, repl);
  }

  /** The backslash goes first, so no later pass touches what an earlier one put in. */
  lemma FourPassesChar(x: char)
    ensures FourPasses([x]) == EscapeChar(x)
  {
    hide ReplaceAll;
    ReplaceOne(x, '\\', "\\\\");
    ReplaceOne(x, '"', "\\\"");
    ReplaceOne(x, '\n', "\\n");
    ReplaceOne(x, '\t', "\\t");
    ReplaceTwo('\\', '\\', '"', "\\\"");
    ReplaceTwo('\\', '\\', '\n', "\\n");
    ReplaceTwo('\\', '\\', '\t', "\\t");
    ReplaceTwo('\\', '"', '\n', "\\n");
    ReplaceTwo('\\', '"', '\t', "\\t");
    ReplaceTwo('\\', 'n', '\t', "\\t");
  }

  /** Four passes over the whole string are one pass over its characters. */
  lemma {:induction false} FourPassesEscape(s: string)
    ensures FourPasses(s) == Escape(s)
  {
    if s == "" {
    } else {
      hide FourPasses;
      FourPassesConcat([s[0]], s[1..]);
      FourPassesChar(s[0]);
      FourPassesEscape(s[1..]);
      assert [s[0]] + s[1..] == s;
    }
  }

  /** Both writers of string literals produce the same text. */
  lemma FormattersAgree(s: string)
    ensures FormatStringLiteral(s) == QuoteString(s)
  {
    FourPassesEscape(s);
    hide FourPasses;
  }

  // ---------------------------------------------------------------- the literal grammar

  predicate IsRegular(c: char) { c !in {'"', '\\', '\n', '\t'} }

  /** CHAR* of the literal specification. */
  predicate IsLiteralBody(s: string)
    decreases |s|
  {
    || s == ""
    || (IsRegular(s[0]) && IsLiteralBody(s[1..]))
    || (|s| > 1 && s[0] == '\\' && s[1] in {'\\', '"', 'n', 't'} && IsLiteralBody(s[2..]))
  }

  lemma {:induction false} BodyExtends(c: char, s: string)
    requires IsLiteralBody(s)
    ensures IsLiteralBody(EscapeChar(c) + s)
  {
    var t := EscapeChar(c) + s;
    if EscapeChar(c) == [c] {
      assert t[1..] == s;
    } else {
      assert t[2..] == s;
    }
  }

  lemma {:induction false} EscapeIsBody(v: string)
    ensures IsLiteralBody(Escape(v))
  {
    if v != "" {
      EscapeIsBody(v[1..]);
      BodyExtends(v[0], Escape(v[1..]));
    }
  }

  /** Every literal body is the escape of the value it is read as: escaping reaches the whole grammar. */
  lemma {:induction false} BodyIsEscape(body: string) returns (v: string)
    requires IsLiteralBody(body)
    ensures Escape(v) == body
    decreases |body|
  {
    if body == "" {
      v := "";
    } else {
      var n := if IsRegular(body[0]) then 1 else 2;
      var w := BodyIsEscape(body[n..]);
      var c := if n == 1 then body[0] else if body[1] == 'n' then '\n' else if body[1] == 't' then '\t' else body[1];
      v := [c] + w;
      assert v[1..] == w;
      assert EscapeChar(c) == body[..n];
    }
  }

  /** Literals and strings correspond one to one: a text is a literal body iff reading and escaping returns it. */
  lemma LiteralsAreExact(body: string, after: string)
    ensures IsLiteralBody(body) <==>
      var r := ReadString(body + ("\"" + after)); r.closed && r.rest == after && Escape(r.text) == body
  {
    var r := ReadString(body + ("\"" + after));
    if IsLiteralBody(body) {
      var v := BodyIsEscape(body);
      ReadEscaped(v, after);
    } else if r.closed && r.rest == after && Escape(r.text) == body {
      EscapeIsBody(r.text);
    }
  }

  // ---------------------------------------------------------------- PROMPT text under %q

  /** What reading back a `%q` literal makes of its text. */
  function Restored(v: string): string {
    if v == "" then "" else (if SurvivesGoQuote(v[0]) then [v[0]] else GoQuoteChar(v[0])) + Restored(v[1..])
  }

  predicate IsInert(h: string) { forall i :: 0 <= i < |h| ==> h[i] != '"' && h[i] != '\\' }

  lemma {:induction false} ReadInert(h: string, s: string)
    requires IsInert(h)
    ensures ReadString(h + s) == ReadString(s).(text := h + ReadString(s).text)
  {
    if h == "" {
      assert h + s == s;
      assert h + ReadString(s).text == ReadString(s).text;
    } else {
      assert (h + s)[1..] == h[1..] + s;
      ReadInert(h[1..], s);
      assert [h[0]] + (h[1..] + ReadString(s).text) == h + ReadString(s).text;
    }
  }

  lemma {:induction false} HexIsInert(n: nat, width: nat)
    ensures IsInert(Hex(n, width))
  {
    if width > 0 { HexIsInert(n / 16, width - 1); }
  }

  lemma ReadUnknownEscape(x: char, h: string, s: string)
    requires x !in {'n', 't', '"', '\\'} && IsInert(h)
    ensures ReadString(['\\', x] + h + s) == ReadString(s).(text := ['\\', x] + h + ReadString(s).text)
  {
    ReadInert(h, s);
    ReadEscapeStep(x, h + s);
    hide ReadString;
    ConcatAssociates(['\\', x], h, s);
    ConcatAssociates(['\\', x], h, ReadString(s).text);
  }

  lemma ReadEscapeStep(x: char, more: string)
    requires x !in {'n', 't', '"', '\\'}
    ensures ReadString(['\\', x] + more) == ReadString(more).(text := ['\\', x] + ReadString(more).text)
  {
    var t := ['\\', x] + more;
    assert t[0] == '\\' && t[1] == x && t[2..] == more;
  }

  /** The other escapes of `%q` are unknown to the lexer, which keeps them as they are. */
  lemma ReadOtherEscape(c: char, s: string)
    requires !SurvivesGoQuote(c)
    ensures ReadString(GoQuoteChar(c) + s) == ReadString(s).(text := GoQuoteChar(c) + ReadString(s).text)
    ensures |GoQuoteChar(c)| > 1
  {
    var e := GoQuoteChar(c);
    HexIsInert(c as int, 2);
    HexIsInert(c as int, 4);
    HexIsInert(c as int, 8);
    hide ReadString, Hex;
    assert e == ['\\', e[1]] + e[2..] && e[1] in {'a', 'b', 'f', 'r', 'v', 'x', 'u', 'U'};
    ReadUnknownEscape(e[1], e[2..], s);
  }

  lemma {:induction false} ReadGoEscape(v: string, s: string)
    ensures ReadString(GoEscape(v) + ("\"" + s)) == Reading(true, Restored(v), s)
  {
    var close := "\"" + s;
    if v == "" {
      assert GoEscape(v) + close == close && close[1..] == s;
    } else {
      ReadGoEscape(v[1..], s);
      ConcatAssociates(GoQuoteChar(v[0]), GoEscape(v[1..]), close);
      hide ReadString;
      if SurvivesGoQuote(v[0]) {
        GoQuoteCharIsEscape(v[0]);
        ReadEscapedChar(v[0], GoEscape(v[1..]) + close);
      } else {
        ReadOtherEscape(v[0], GoEscape(v[1..]) + close);
      }
    }
  }

  lemma {:induction false} RestoredLonger(v: string)
    ensures |Restored(v)| >= |v| && (|Restored(v)| == |v| <==> PrintableText(v))
    ensures PrintableText(v) ==> Restored(v) == v
  {
    if v != "" {
      RestoredLonger(v[1..]);
      assert PrintableText(v) <==> SurvivesGoQuote(v[0]) && PrintableText(v[1..]) by {
        assert forall i :: 0 < i < |v| ==> v[i] == v[1..][i - 1];
      }
      if !SurvivesGoQuote(v[0]) { ReadOtherEscape(v[0], ""); }
      hide GoQuoteChar, SurvivesGoQuote, PrintableText;
    }
  }

  /** A PROMPT text comes back from its `%q` literal exactly when it is printable, newlines and tabs included. */
  lemma PromptSurvivesExactly(v: string, s: string)
    ensures Lex(GoQuote(v) + s) == [StringToken(v)] + Lex(s) <==> PrintableText(v)
  {
    hide Lex, GoEscape, PrintableText, Restored;
    ReadGoEscape(v, s);
    LexLiteral(GoEscape(v), Restored(v), s);
    RestoredLonger(v);
    assert ([StringToken(v)] + Lex(s))[0] == StringToken(v);
    assert ([StringToken(Restored(v))] + Lex(s))[0] == StringToken(Restored(v));
  }

  // ---------------------------------------------------------------- heredocs

  lemma {:induction false} TrimmedUnchanged(s: string)
    ensures TrimNewlines(s) == s <==> !EndsInNewline(s)
  {
    TrimmedEnd(s);
  }

  /** A heredoc on its own line comes back exactly when its content does not end in a newline. */
  lemma HeredocSurvivesExactly(content: string, s: string)
    ensures Lex(HeredocText(content) + ("\n" + s)) == HeredocTokens(content) + Lex(s) <==> !EndsInNewline(content)
  {
    hide Lex, ChooseMarker, HeredocText, EndsInNewline, TrimNewlines;
    LexHeredoc(content, s);
    TrimmedUnchanged(content);
    var got, want := Lex(HeredocText(content) + ("\n" + s)), HeredocTokens(content) + Lex(s);
    assert got[1] == Token(HEREDOC_BODY, TrimNewlines(content)) && want[1] == Token(HEREDOC_BODY, content);
  }

  // ---------------------------------------------------------------- names

  lemma {:induction false} BareLen(w: string)
    requires forall i :: 0 <= i < |w| ==> IsIdentChar(w[i])
    ensures IdentLen(w) == |w|
  {
    if w != "" { BareLen(w[1..]); }
  }

  lemma BareIsWord(w: string)
    requires IsBare(w) && !IsDigit(w[0])
    ensures IsWord(w)
  {
    BareLen(w);
  }

  lemma FirstOfNumber(w: string, s: string)
    requires w != "" && IsDigit(w[0])
    ensures Lex(w + s)[0].typ == NUMBER
  {
    hide Scan;
    ScanNumber(w + s);
    LexStep(w + s);
  }

  lemma FirstOfQuoted(v: string, s: string)
    ensures Lex(QuoteString(v) + s) != [] && Lex(QuoteString(v) + s)[0] == StringToken(v)
  {
    hide Lex, QuoteString;
    LexQuoted(v, s);
  }

  lemma FirstOfWord(w: string, s: string)
    requires IsWord(w) && Breaks(s)
    ensures Lex(w + s) != [] && Lex(w + s)[0] == Token(LookupIdent(w), w)
  {
    hide Lex, LookupIdent;
    LexWord(w, s);
  }

  /** The bare branch is safe exactly for names: bare keywords and bare digits do not come back. */
  lemma NameSurvivesExactly(w: string, s: string)
    requires Breaks(s)
    ensures var t := Lex(QuoteIfNeeded(w) + s)[0];
      (t.typ == IDENT || t.typ == STRING) && t.literal == w <==> PrintableName(w)
  {
    hide Lex, LookupIdent, QuoteString;
    if !IsBare(w) {
      FirstOfQuoted(w, s);
    } else if IsDigit(w[0]) {
      FirstOfNumber(w, s);
    } else {
      BareIsWord(w);
      FirstOfWord(w, s);
      KeywordKinds(w);
    }
  }

  /** An object key or a slug is printed bare whatever it is, and comes back exactly when it is a name. */
  lemma KeySurvivesExactly(key: string, s: string)
    requires Breaks(s)
    ensures Lex(key + s) != [] && Lex(key + s)[0] == IdentToken(key) <==> IsName(key)
  {
    hide Lex, LookupIdent;
    if IsName(key) {
      FirstOfWord(key, s);
    } else if Lex(key + s) != [] && Lex(key + s)[0] == IdentToken(key) {
      IdentIsName(key + s, 0);
    }
  }
}
