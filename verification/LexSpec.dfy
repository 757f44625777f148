/** What the AgentFile lexer computes, as functions on the text that is still unread. */
module LexSpec {
  import opened Text
  import opened Tokens

  /** The letters and digits outside ASCII. Left open: every result holds for any such classes. */
  const NON_ASCII_LETTERS: set<char>
  const NON_ASCII_DIGITS: set<char>

  predicate IsLetter(c: char) {
    'a' <= c <= 'z' || 'A' <= c <= 'Z' || (c as int > 0x7F && c in NON_ASCII_LETTERS)
  }

  predicate IsIdentStart(c: char) { IsLetter(c) || c == '_' }

  predicate IsIdentPart(c: char) {
    IsLetter(c) || IsDigit(c) || (c as int > 0x7F && c in NON_ASCII_DIGITS) || c == '_'
  }

  predicate IsBlank(c: char) { c == ' ' || c == '\t' || c == '\r' }

  /** How much of s an identifier that has already begun takes; a hyphen counts only before a letter. */
  function IdentLen(s: string): (n: nat)
    ensures n <= |s|
  {
    if s == "" then 0
    else if IsIdentPart(s[0]) then 1 + IdentLen(s[1..])
    else if s[0] == '-' && |s| > 1 && IsIdentStart(s[1]) then 1 + IdentLen(s[1..])
    else 0
  }

  function NumberLen(s: string): (n: nat)
    ensures n <= |s|
  {
    if s != "" && (IsDigit(s[0]) || s[0] == '.') then 1 + NumberLen(s[1..]) else 0
  }

  function LineLen(s: string): (n: nat)
    ensures n <= |s|
  {
    if s == "" || s[0] == '\n' then 0 else 1 + LineLen(s[1..])
  }

  function MarkerLen(s: string): (n: nat)
    ensures n <= |s|
  {
    if s == "" || s[0] == '\n' || s[0] == ' ' then 0 else 1 + MarkerLen(s[1..])
  }

  /** The rest of the text after the line that s starts with. */
  function NextLine(s: string): (r: string)
    ensures |r| <= |s| && (s != "" ==> |r| < |s|)
  {
    if LineLen(s) < |s| then s[LineLen(s) + 1..] else ""
  }

  datatype Reading = Reading(closed: bool, text: string, rest: string)

  function Unescape(c: char): string {
    match c
    case 'n' => "\n"
    case 't' => "\t"
    case '"' => "\""
    case '\\' => "\\"
    case _ => ['\\', c]
  }

  /** Reads a string literal whose opening quote has been consumed. */
  function ReadString(s: string): (r: Reading)
    ensures |r.rest| <= |s|
  {
    if s == "" then Reading(false, "", "")
    else if s[0] == '"' then Reading(true, "", s[1..])
    else if s[0] == '\\' && |s| > 1 then
      var r := ReadString(s[2..]);
      r.(text := Unescape(s[1]) + r.text)
    else
      var r := ReadString(s[1..]);
      r.(text := [s[0]] + r.text)
  }

  /** Reads heredoc lines up to the one that is the marker once trimmed. */
  function ReadHeredoc(s: string, marker: string): (r: Reading)
    ensures |r.rest| <= |s|
    decreases |s|
  {
    if s == "" then Reading(false, "", "")
    else if TrimSpace(s[..LineLen(s)]) == marker then Reading(true, "", NextLine(s))
    else
      var r := ReadHeredoc(NextLine(s), marker);
      r.(text := s[..LineLen(s)] + (if LineLen(s) < |s| then "\n" else "") + r.text)
  }

  datatype Scanned = Scanned(tokens: seq<Token>, rest: string)

  function ScanHeredoc(s: string): (r: Scanned)
    ensures |r.rest| <= |s|
  {
    var m := MarkerLen(s);
    var marker := s[..m];
    var start := Token(HEREDOC_START, marker);
    var body := if m < |s| && s[m] == '\n' then s[m + 1..] else s[m..];
    var r := ReadHeredoc(body, marker);
    var last := if r.closed then Token(HEREDOC_BODY, TrimNewlines(r.text))
      else Token(ILLEGAL, "unterminated heredoc, missing " + marker);
    Scanned([start, last], r.rest)
  }

  function Punctuation(c: char): Option<TokenType> {
    match c
    case '=' => Some(ASSIGN)
    case '+' => Some(PLUS)
    case '.' => Some(DOT)
    case ',' => Some(COMMA)
    case '(' => Some(LPAREN)
    case ')' => Some(RPAREN)
    case '{' => Some(LBRACE)
    case '}' => Some(RBRACE)
    case '[' => Some(LBRACKET)
    case ']' => Some(RBRACKET)
    case ':' => Some(COLON)
    case '\n' => Some(NEWLINE)
    case _ => None
  }

  predicate Starts(s: string, c: char, d: char) { |s| > 1 && s[0] == c && s[1] == d }

  /** One turn of the tokenize loop at a character that is not blank. */
  function Scan(s: string): (r: Scanned)
    requires s != "" && !IsBlank(s[0])
    ensures |r.rest| < |s|
  {
    if s[0] == '#' then Scanned([Token(COMMENT, s[..LineLen(s)])], s[LineLen(s)..])
    else if s[0] == '"' then
      var r := ReadString(s[1..]);
      Scanned([if r.closed then Token(STRING, r.text) else Token(ILLEGAL, "unterminated string")], r.rest)
    else if Starts(s, '<', '<') then ScanHeredoc(s[2..])
    else if Starts(s, '=', '=') then Scanned([Token(EQ, "==")], s[2..])
    else if Starts(s, '!', '=') then Scanned([Token(NEQ, "!=")], s[2..])
    else if Punctuation(s[0]).Some? then Scanned([Token(Punctuation(s[0]).value, [s[0]])], s[1..])
    else if IsDigit(s[0]) then Scanned([Token(NUMBER, s[..NumberLen(s)])], s[NumberLen(s)..])
    else if IsIdentStart(s[0]) then
      Scanned([Token(LookupIdent(s[..IdentLen(s)]), s[..IdentLen(s)])], s[IdentLen(s)..])
    else Scanned([Token(ILLEGAL, [s[0]])], s[1..])
  }

  function Lex(s: string): (tokens: seq<Token>)
    decreases |s|
  {
    if s == "" then [Token(EOF, "")]
    else if IsBlank(s[0]) then Lex(s[1..])
    else Scan(s).tokens + Lex(Scan(s).rest)
  }

  lemma LexStep(s: string)
    requires s != "" && !IsBlank(s[0])
    ensures Lex(s) == Scan(s).tokens + Lex(Scan(s).rest)
  {
    hide Scan;
  }

  lemma LexBlank(s: string)
    requires s != "" && IsBlank(s[0])
    ensures Lex(s) == Lex(s[1..])
  {
    hide Scan;
  }

  lemma {:induction false} LineLenIsFirstNewline(s: string)
    ensures LineLen(s) < |s| ==> s[LineLen(s)] == '\n'
    ensures forall i :: 0 <= i < LineLen(s) ==> s[i] != '\n'
  {
    if s != "" && s[0] != '\n' {
      LineLenIsFirstNewline(s[1..]);
      forall i | 0 < i < LineLen(s)
        ensures s[i] != '\n'
      {
        assert s[i] == s[1..][i - 1];
      }
    }
  }

  // ---------------------------------------------------------------- one kind of token at a time

  lemma ScanWord(t: string)
    requires t != "" && IsIdentStart(t[0])
    ensures Scan(t) == Scanned([Token(LookupIdent(t[..IdentLen(t)]), t[..IdentLen(t)])], t[IdentLen(t)..])
  {
    hide ScanHeredoc, ReadString, LookupIdent, IdentLen;
  }

  lemma ScanNumber(t: string)
    requires t != "" && IsDigit(t[0])
    ensures Scan(t) == Scanned([Token(NUMBER, t[..NumberLen(t)])], t[NumberLen(t)..])
  {
    hide ScanHeredoc, ReadString, LookupIdent, NumberLen;
  }

  lemma ScanPunctuation(t: string)
    requires t != "" && Punctuation(t[0]).Some? && !Starts(t, '=', '=')
    ensures Scan(t) == Scanned([Token(Punctuation(t[0]).value, [t[0]])], t[1..])
  {
    hide ScanHeredoc, ReadString, LookupIdent;
  }

  lemma ScanQuote(t: string)
    requires t != "" && t[0] == '"' && ReadString(t[1..]).closed
    ensures Scan(t) == Scanned([Token(STRING, ReadString(t[1..]).text)], ReadString(t[1..]).rest)
  {
    hide ScanHeredoc, ReadString, LookupIdent;
  }

  lemma ScanMarker(t: string)
    requires Starts(t, '<', '<')
    ensures Scan(t) == ScanHeredoc(t[2..])
  {
    hide ScanHeredoc, ReadString, LookupIdent;
  }

  lemma ScanEquality(t: string)
    requires Starts(t, '=', '=') || Starts(t, '!', '=')
    ensures Scan(t) == Scanned([if t[0] == '=' then Token(EQ, "==") else Token(NEQ, "!=")], t[2..])
  {
    hide ScanHeredoc, ReadString, LookupIdent;
  }

  lemma ScanAnyQuote(t: string)
    requires t != "" && t[0] == '"'
    ensures var r := ReadString(t[1..]);
      Scan(t) == Scanned([if r.closed then Token(STRING, r.text) else Token(ILLEGAL, "unterminated string")], r.rest)
  {
    hide ScanHeredoc, ReadString, LookupIdent;
  }

  lemma ScanComment(t: string)
    requires t != "" && t[0] == '#'
    ensures Scan(t) == Scanned([Token(COMMENT, t[..LineLen(t)])], t[LineLen(t)..])
  {
    hide ScanHeredoc, ReadString, LookupIdent, LineLen;
  }

  lemma ScanIllegal(t: string)
    requires t != "" && !IsBlank(t[0]) && t[0] != '#' && t[0] != '"' && Punctuation(t[0]).None?
    requires !IsDigit(t[0]) && !IsIdentStart(t[0]) && !Starts(t, '<', '<') && !Starts(t, '!', '=')
    ensures Scan(t) == Scanned([Token(ILLEGAL, [t[0]])], t[1..])
  {
    hide ScanHeredoc, ReadString, LookupIdent;
  }

  lemma ReadStringEnd(s: string)
    ensures s == "" ==> ReadString(s) == Reading(false, "", "")
    ensures s != "" && s[0] == '"' ==> ReadString(s) == Reading(true, "", s[1..])
  {}

  /** One step of reading a string literal that is neither its end nor its closing quote. */
  lemma ReadStringStep(s: string)
    requires s != "" && s[0] != '"'
    ensures var n := if s[0] == '\\' && |s| > 1 then 2 else 1;
      ReadString(s) == ReadString(s[n..]).(text := (if n == 2 then Unescape(s[1]) else [s[0]]) + ReadString(s[n..]).text)
  {}
}
