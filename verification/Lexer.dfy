/** The lexer as the program runs it: a cursor over the text and a growing token list. */
module Lexer {
  import opened Text
  import opened Tokens
  import opened LexSpec

  class Lexer {
    const input: string
    var pos: nat
    var tokens: seq<Token>

    ghost predicate Valid()
      reads this
    {
      pos <= |input|
    }

    ghost function Rest(): string
      requires Valid()
      reads this
    {
      input[pos..]
    }

    constructor (text: string)
      ensures Valid() && input == text && pos == 0 && tokens == []
    {
      input := text;
      pos := 0;
      tokens := [];
    }

    method Emit(typ: TokenType, literal: string)
      modifies this`tokens
      ensures tokens == old(tokens) + [Token(typ, literal)]
    {
      tokens := tokens + [Token(typ, literal)];
    }

    method Advance()
      requires pos < |input|
      modifies this`pos
      ensures pos == old(pos) + 1
    {
      pos := pos + 1;
    }

    predicate PeekIs(c: char, d: char)
      requires pos < |input|
      reads this
      ensures PeekIs(c, d) == Starts(input[pos..], c, d)
    {
      input[pos] == c && pos + 1 < |input| && input[pos + 1] == d
    }

    method SkipSpacesAndTabs()
      requires Valid()
      modifies this`pos
      ensures Valid() && old(pos) <= pos
      ensures pos < |input| ==> !IsBlank(input[pos])
      ensures Lex(Rest()) == Lex(old(Rest()))
    {
      while pos < |input| && IsBlank(input[pos])
        invariant Valid() && old(pos) <= pos
        invariant Lex(Rest()) == Lex(old(Rest()))
      {
        assert Rest()[1..] == input[pos + 1..];
        Advance();
      }
    }

    /** What lies between two positions, and what comes after, seen from the first one. */
    lemma Slices(p: nat, q: nat)
      requires p <= q <= |input|
      ensures input[p..][..q - p] == input[p..q] && input[p..][q - p..] == input[q..]
    {}

    method ReadComment()
      requires pos < |input| && input[pos] == '#'
      modifies this
      ensures Valid() && Rest() == old(Rest())[LineLen(old(Rest()))..]
      ensures tokens == old(tokens) + [Token(COMMENT, old(Rest())[..LineLen(old(Rest()))])]
    {
      var start := pos;
      SkipLine();
      Slices(start, pos);
      tokens := tokens + [Token(COMMENT, input[start..pos])];
    }

    /** Reading on from a later point gives `later`; with the text read so far it makes `whole`. */
    ghost static predicate Resumes(whole: Reading, text: string, later: Reading) {
      whole == later.(text := text + later.text)
    }

    static lemma ResumeAfter(whole: Reading, text: string, piece: string, later: Reading)
      requires Resumes(whole, text, later.(text := piece + later.text))
      ensures Resumes(whole, text + piece, later)
    {
      ConcatAssociates(text, piece, later.text);
    }

    method ReadString()
      requires pos < |input| && input[pos] == '"'
      modifies this
      ensures Valid() && Rest() == LexSpec.ReadString(old(Rest())[1..]).rest
      ensures var r := LexSpec.ReadString(old(Rest())[1..]);
        tokens == old(tokens) + [if r.closed then Token(STRING, r.text) else Token(ILLEGAL, "unterminated string")]
    {
      hide LexSpec.ReadString;
      Slices(pos, pos + 1);
      Advance();
      ghost var start := pos;
      var text := "";
      while pos < |input| && input[pos] != '"'
        invariant start <= pos <= |input| && tokens == old(tokens)
        invariant Resumes(LexSpec.ReadString(input[start..]), text, LexSpec.ReadString(Rest()))
      {
        ghost var whole, s, before := LexSpec.ReadString(input[start..]), Rest(), text;
        ReadStringStep(s);
        if input[pos] == '\\' && pos + 1 < |input| {
          Advance();
          text := text + Unescape(input[pos]);
        } else {
          text := text + [input[pos]];
        }
        Advance();
        assert Rest() == s[|s| - |Rest()|..];
        ResumeAfter(whole, before, text[|before|..], LexSpec.ReadString(Rest()));
      }
      assert text + "" == text;
      ReadStringEnd(Rest());
      if pos < |input| {
        assert Rest()[1..] == input[pos + 1..];
        Advance();
      } else {
        tokens := tokens + [Token(ILLEGAL, "unterminated string")];
        return;
      }
      tokens := tokens + [Token(STRING, text)];
    }

    method ReadNumber()
      requires pos < |input| && IsDigit(input[pos])
      modifies this
      ensures Valid() && Rest() == old(Rest())[NumberLen(old(Rest()))..]
      ensures tokens == old(tokens) + [Token(NUMBER, old(Rest())[..NumberLen(old(Rest()))])]
    {
      var start := pos;
      while pos < |input| && (IsDigit(input[pos]) || input[pos] == '.')
        invariant start <= pos <= |input| && tokens == old(tokens)
        invariant NumberLen(input[start..]) == pos - start + NumberLen(input[pos..])
      {
        assert input[pos..][1..] == input[pos + 1..];
        Advance();
      }
      Slices(start, pos);
      tokens := tokens + [Token(NUMBER, input[start..pos])];
    }

    method SkipIdentPart(ghost start: nat)
      requires start <= pos <= |input|
      requires IdentLen(input[start..]) == pos - start + IdentLen(input[pos..])
      modifies this`pos
      ensures old(pos) <= pos <= |input|
      ensures pos < |input| ==> !IsIdentPart(input[pos])
      ensures old(pos) < |input| && IsIdentPart(input[old(pos)]) ==> old(pos) < pos
      ensures IdentLen(input[start..]) == pos - start + IdentLen(input[pos..])
    {
      while pos < |input| && IsIdentPart(input[pos])
        invariant old(pos) <= pos <= |input|
        invariant IdentLen(input[start..]) == pos - start + IdentLen(input[pos..])
        invariant old(pos) < |input| && IsIdentPart(input[old(pos)]) ==> pos > old(pos) || IsIdentPart(input[pos])
      {
        assert input[pos..][1..] == input[pos + 1..];
        Advance();
      }
    }

    method ReadIdentifier()
      requires pos < |input| && IsIdentStart(input[pos])
      modifies this
      ensures Valid() && Rest() == old(Rest())[IdentLen(old(Rest()))..]
      ensures var word := old(Rest())[..IdentLen(old(Rest()))]; tokens == old(tokens) + [Token(LookupIdent(word), word)]
    {
      hide LookupIdent;
      var start := pos;
      SkipIdentPart(start);
      while pos < |input| && input[pos] == '-' && pos + 1 < |input| && IsIdentStart(input[pos + 1])
        invariant start <= pos <= |input| && tokens == old(tokens)
        invariant IdentLen(input[start..]) == pos - start + IdentLen(input[pos..])
        invariant pos < |input| ==> !IsIdentPart(input[pos])
        decreases |input| - pos
      {
        assert input[pos..][1..] == input[pos + 1..];
        Advance();
        SkipIdentPart(start);
      }
      Slices(start, pos);
      var literal := input[start..pos];
      tokens := tokens + [Token(LookupIdent(literal), literal)];
    }

    method ReadHeredoc()
      requires pos < |input| && PeekIs('<', '<')
      modifies this
      ensures Valid() && Rest() == ScanHeredoc(old(Rest())[2..]).rest
      ensures tokens == old(tokens) + ScanHeredoc(old(Rest())[2..]).tokens
    {
      hide TrimNewlines, LexSpec.ReadHeredoc, MarkerLen;
      Slices(pos, pos + 2);
      Advance();
      Advance();
      ghost var s, before := Rest(), tokens;
      var marker := ReadMarker();
      tokens := tokens + [Token(HEREDOC_START, marker)];
      ghost var p := pos;
      if pos < |input| && input[pos] == '\n' {
        pos := pos + 1;
      }
      Slices(p - |marker|, p);
      Slices(p - |marker|, pos);
      assert Rest() == if |marker| < |s| && s[|marker|] == '\n' then s[|marker| + 1..] else s[|marker|..];
      var body, found := ReadHeredocBody(marker);
      var last := if found then Token(HEREDOC_BODY, TrimNewlines(body))
        else Token(ILLEGAL, "unterminated heredoc, missing " + marker);
      ConcatAssociates(before, [Token(HEREDOC_START, marker)], [last]);
      tokens := tokens + [last];
    }

    method ReadMarker() returns (marker: string)
      requires Valid()
      modifies this`pos
      ensures Valid() && pos == old(pos) + |marker|
      ensures |marker| == MarkerLen(old(Rest())) && marker == old(Rest())[..|marker|]
    {
      var start := pos;
      while pos < |input| && input[pos] != '\n' && input[pos] != ' '
        invariant start <= pos <= |input|
        invariant MarkerLen(input[start..]) == pos - start + MarkerLen(input[pos..])
      {
        assert input[pos..][1..] == input[pos + 1..];
        Advance();
      }
      marker := input[start..pos];
    }

    method ReadHeredocBody(marker: string) returns (body: string, found: bool)
      requires Valid()
      modifies this`pos
      ensures Valid() && LexSpec.ReadHeredoc(old(Rest()), marker) == Reading(found, body, Rest())
    {
      body, found := "", false;
      ghost var whole := LexSpec.ReadHeredoc(Rest(), marker);
      while pos < |input|
        invariant Valid() && !found
        invariant Resumes(whole, body, LexSpec.ReadHeredoc(Rest(), marker))
        decreases |input| - pos
      {
        ghost var s, before := Rest(), body;
        var line, newline := ReadLine();
        if TrimSpace(line) == marker {
          found := true;
          assert body + "" == body;
          return;
        }
        body := body + line;
        if newline {
          body := body + "\n";
        }
        ghost var piece := line + (if newline then "\n" else "");
        assert body == before + piece;
        ResumeAfter(whole, before, piece, LexSpec.ReadHeredoc(Rest(), marker));
      }
    }

    method ReadLine() returns (line: string, newline: bool)
      requires Valid()
      modifies this`pos
      ensures Valid() && Rest() == NextLine(old(Rest()))
      ensures line == old(Rest())[..LineLen(old(Rest()))]
      ensures newline == (LineLen(old(Rest())) < |old(Rest())|)
    {
      var start := pos;
      SkipLine();
      line := input[start..pos];
      newline := pos < |input|;
      if newline {
        pos := pos + 1;
      }
    }

    method SkipLine()
      requires Valid()
      modifies this`pos
      ensures Valid() && pos == old(pos) + LineLen(old(Rest()))
    {
      while pos < |input| && input[pos] != '\n'
        invariant old(pos) <= pos <= |input|
        invariant LineLen(input[old(pos)..]) == pos - old(pos) + LineLen(input[pos..])
      {
        assert input[pos..][1..] == input[pos + 1..];
        pos := pos + 1;
      }
    }

    method EmitAndSkip(typ: TokenType, literal: string)
      requires Valid() && pos + |literal| <= |input|
      modifies this
      ensures Valid() && Rest() == old(Rest())[|literal|..]
      ensures tokens == old(tokens) + [Token(typ, literal)]
    {
      Slices(pos, pos + |literal|);
      Emit(typ, literal);
      pos := pos + |literal|;
    }

    /** The tokens a turn of the loop appends and the text it leaves are those of `Scan`. */
    method ReadToken()
      requires pos < |input| && !IsBlank(input[pos])
      modifies this
      ensures Valid() && Rest() == Scan(old(Rest())).rest
      ensures tokens == old(tokens) + Scan(old(Rest())).tokens
    {
      hide Scan, LexSpec.ReadString, ScanHeredoc, LookupIdent, IdentLen, NumberLen, LineLen;
      var c := input[pos];
      ghost var s := Rest();
      if c == '\n' {
        ScanPunctuation(s);
        EmitAndSkip(NEWLINE, "\n");
      } else if c == '#' {
        ScanComment(s);
        ReadComment();
      } else if c == '"' {
        ScanAnyQuote(s);
        ReadString();
      } else if PeekIs('<', '<') {
        ScanMarker(s);
        ReadHeredoc();
      } else if PeekIs('=', '=') {
        ScanEquality(s);
        EmitAndSkip(EQ, "==");
      } else if PeekIs('!', '=') {
        ScanEquality(s);
        EmitAndSkip(NEQ, "!=");
      } else if Punctuation(c).Some? {
        ScanPunctuation(s);
        EmitAndSkip(Punctuation(c).value, [c]);
      } else if IsDigit(c) {
        ScanNumber(s);
        ReadNumber();
      } else if IsIdentStart(c) {
        ScanWord(s);
        ReadIdentifier();
      } else {
        ScanIllegal(s);
        EmitAndSkip(ILLEGAL, [c]);
      }
    }

    /** The tokenize loop: whatever the text, it ends, stays inside the text and computes `Lex`. */
    method Tokenize()
      requires pos == 0 && tokens == []
      modifies this
      ensures Valid() && tokens == Lex(input)
    {
      assert input[0..] == input;
      while pos < |input|
        invariant Valid()
        invariant tokens + Lex(Rest()) == Lex(input)
        decreases |input| - pos
      {
        SkipSpacesAndTabs();
        if pos >= |input| {
          break;
        }
        ghost var before, s := tokens, Rest();
        LexStep(s);
        ReadToken();
        ConcatAssociates(before, Scan(s).tokens, Lex(Rest()));
      }
      Emit(EOF, "");
    }
  }

  method Tokenize(input: string) returns (tokens: seq<Token>)
    ensures tokens == Lex(input)
  {
    var l := new Lexer(input);
    l.Tokenize();
    tokens := l.tokens;
  }
}
