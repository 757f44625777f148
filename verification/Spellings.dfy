/** The spellings of declarations that the serializer does not use: they are read as the declarations it would write otherwise. */
module Spellings {
  import opened Text
  import opened Tokens
  import opened Ast
  import opened ParseSpec
  import opened ParseSteps
  import opened PrintTokens
  import opened Grouping

  /** A name may be a word or a quoted text. */
  predicate IsNameToken(t: Token) { t.typ == IDENT || t.typ == STRING }

  /** A line that begins with these tokens, read to its end. */
  ghost predicate LineReads(ts: seq<Token>, d: Decl) {
    forall rest, errs :: TryDeclaration(State(ts + ([NL] + rest), errs)) == Some(Parsed(d, State(rest, errs)))
  }

  lemma LineEnds(rest: seq<Token>, errs: seq<ParseError>)
    ensures ExpectNewline(State([NL] + rest, errs)) == State(rest, errs) && IsNewlineOrEnd(State([NL] + rest, errs))
  {
    Front(NL, rest, errs);
  }

  /** A comment before the end of a line is not read. */
  lemma CommentEnds(c: Token, rest: seq<Token>, errs: seq<ParseError>)
    requires c.typ == COMMENT
    ensures ExpectNewline(State([c] + ([NL] + rest), errs)) == State(rest, errs)
    ensures IsNewlineOrEnd(State([c] + ([NL] + rest), errs))
  {
    Front(c, [NL] + rest, errs);
    Front(NL, rest, errs);
    assert SkipComments(State([NL] + rest, errs)) == State([NL] + rest, errs);
  }

  lemma NameIsRead(t: Token, rest: seq<Token>, errs: seq<ParseError>)
    requires IsNameToken(t)
    ensures ExpectIdentOrString(State([t] + rest, errs)) == Parsed(t.literal, State(rest, errs))
  {
    Front(t, rest, errs);
  }

  /** What is not a name is reported, where a name is wanted; and so on for the other single tokens. */
  lemma OthersAreReported(s: State, t: TokenType)
    ensures ExpectIdent(s).next.errors == s.errors + if Kind(s) == IDENT then [] else [ParseError(WantedIdentifier, Current(s))]
    ensures ExpectIdentOrString(s).next.errors ==
      s.errors + if Kind(s) in {IDENT, STRING} then [] else [ParseError(WantedName, Current(s))]
    ensures ExpectString(s).next.errors == s.errors + if Kind(s) == STRING then [] else [ParseError(WantedString, Current(s))]
    ensures Expect(s, t).errors == s.errors + if Kind(s) == t then [] else [ParseError(Wanted(t), Current(s))]
  {
    assert s.errors + [] == s.errors;
  }

  lemma BadNumbersAreReported(s: State)
    ensures ExpectInt(s).next.errors == s.errors +
      if Kind(s) != NUMBER then [ParseError(WantedNumber, Current(s))]
      else if IntOf(Current(s).literal).None? then [ParseError(BadInteger, Current(s))] else []
  {
    assert s.errors + [] == s.errors;
    hide IntOf;
  }

  lemma NoLiteralIsReported(s: State)
    ensures Kind(s) in {STRING, NUMBER, TRUE, FALSE} ==> ParseLiteralValue(s).next.errors == s.errors
    ensures Kind(s) !in {STRING, NUMBER, TRUE, FALSE} ==>
      ParseLiteralValue(s).next.errors == s.errors + [ParseError(WantedLiteral, Current(s))]
  {
    hide FloatOf;
  }

  /** The function that reads each kind of declaration. */
  lemma Dispatches(s: State)
    ensures Kind(s) == KW_REMOVE ==> TryDeclaration(s) == Some(ParseRemoveDecl(s))
    ensures Kind(s) == KW_MODE ==> TryDeclaration(s) == Some(ParseModeDecl(s))
    ensures Kind(s) == KW_MCP ==> TryDeclaration(s) == Some(ParseMcpDecl(s))
    ensures Kind(s) == KW_SETUP ==> TryDeclaration(s) == Some(ParseSetupDecl(s))
    ensures Kind(s) == KW_CAPABILITY ==> TryDeclaration(s) == Some(ParseCapabilityDecl(s))
    ensures Kind(s) == KW_SKILLS ==>
      var r := ParseSlugs([], Advance(s)); TryDeclaration(s) == Some(Parsed(SkillsDecl(r.val), ExpectNewline(r.next)))
    ensures Kind(s) == KW_KNOWLEDGE ==>
      var r := ParseMounts([], Advance(s)); TryDeclaration(s) == Some(Parsed(KnowledgeDecl(r.val), ExpectNewline(r.next)))
  {
    hide ParseRemoveDecl, ParseModeDecl, ParseMcpDecl, ParseSetupDecl, ParseCapabilityDecl, ParseSlugs, ParseMounts, ExpectNewline, Advance;
  }

  // ---------------------------------------------------------------- single names

  function NamedKind(t: TokenType, name: string): Option<Decl> {
    match t
    case KW_AGENT => Some(AgentDecl(name))
    case KW_EXECUTABLE => Some(ExecutableDecl(name))
    case KW_GIT_CREDENTIAL => Some(GitCredentialDecl(name))
    case KW_USE_ENV_BUNDLE => Some(UseEnvBundleDecl(name))
    case KW_USE_CONFIG_BUNDLE => Some(UseConfigBundleDecl(name))
    case _ => None
  }

  /** Wherever a name stands by itself it may be quoted or not, whatever it is. */
  lemma NamedReads(k: Token, t: Token)
    requires NamedKind(k.typ, t.literal).Some? && IsNameToken(t)
    ensures LineReads([k, t], NamedKind(k.typ, t.literal).value)
  {
    forall rest, errs
      ensures TryDeclaration(State([k, t] + ([NL] + rest), errs)) == Some(Parsed(NamedKind(k.typ, t.literal).value, State(rest, errs)))
    {
      assert [k, t] + ([NL] + rest) == [k] + ([t] + ([NL] + rest));
      Front(k, [t] + ([NL] + rest), errs);
      NameIsRead(t, [NL] + rest, errs);
      LineEnds(rest, errs);
      hide ExpectIdentOrString, ExpectNewline;
    }
  }

  /** A REMOVE names what it removes, quoted or not. */
  lemma RemoveReads(k: Token, target: Token, t: Token)
    requires k.typ == KW_REMOVE && TargetOf(target.typ) != NoTarget && IsNameToken(t)
    ensures LineReads([k, target, t], RemoveDecl(TargetOf(target.typ), t.literal))
  {
    forall rest, errs
      ensures TryDeclaration(State([k, target, t] + ([NL] + rest), errs)) ==
        Some(Parsed(RemoveDecl(TargetOf(target.typ), t.literal), State(rest, errs)))
    {
      assert [k, target, t] + ([NL] + rest) == [k] + ([target] + ([t] + ([NL] + rest)));
      Front(k, [target] + ([t] + ([NL] + rest)), errs);
      Front(target, [t] + ([NL] + rest), errs);
      NameIsRead(t, [NL] + rest, errs);
      LineEnds(rest, errs);
      Dispatches(State([k] + ([target] + ([t] + ([NL] + rest))), errs));
      hide ExpectIdentOrString, ExpectNewline, TargetOf, TryDeclaration;
    }
  }

  /** The targets, each from its own keyword. */
  lemma TargetsExactly(t: TokenType)
    ensures TargetOf(t) == RemoveEnv <==> t == KW_ENV
    ensures TargetOf(t) == RemoveSkills <==> t == KW_SKILLS
    ensures TargetOf(t) == RemoveConfig <==> t == KW_CONFIG
    ensures TargetOf(t) == RemoveArg <==> t == KW_ARG
    ensures TargetOf(t) == RemoveFile <==> t == KW_FILE
  {}

  lemma ModeLine(k: Token, t: Token, rest: seq<Token>, errs: seq<ParseError>)
    requires k.typ == KW_MODE && IsNameToken(t) && t.literal in {"pty", "acp"}
    ensures TryDeclaration(State([k] + ([t] + ([NL] + rest)), errs)) == Some(Parsed(ModeDecl(t.literal), State(rest, errs)))
  {
    hide ExpectIdentOrString, ExpectNewline, TryDeclaration, Advance;
    Front(k, [t] + ([NL] + rest), errs);
    NameIsRead(t, [NL] + rest, errs);
    Front(NL, rest, errs);
    LineEnds(rest, errs);
    Dispatches(State([k] + ([t] + ([NL] + rest)), errs));
  }

  /** A MODE may be quoted. */
  lemma ModeReads(k: Token, t: Token)
    requires k.typ == KW_MODE && IsNameToken(t) && t.literal in {"pty", "acp"}
    ensures LineReads([k, t], ModeDecl(t.literal))
  {
    hide TryDeclaration;
    forall rest, errs
      ensures TryDeclaration(State([k, t] + ([NL] + rest), errs)) == Some(Parsed(ModeDecl(t.literal), State(rest, errs)))
    {
      assert [k, t] + ([NL] + rest) == [k] + ([t] + ([NL] + rest));
      ModeLine(k, t, rest, errs);
    }
  }

  /** The format of an MCP may be quoted; without one the server is only switched. */
  lemma McpReads(k: Token, on: Token, format: Token, t: Token)
    requires k.typ == KW_MCP && on.typ == KW_ON && format == Token(IDENT, "FORMAT") && IsNameToken(t)
    ensures LineReads([k, on, format, t], McpDecl(true, t.literal))
    ensures LineReads([k, on], McpDecl(true, ""))
    ensures LineReads([k, on.(typ := KW_OFF)], McpDecl(false, ""))
  {
    forall rest, errs
      ensures TryDeclaration(State([k, on, format, t] + ([NL] + rest), errs)) == Some(Parsed(McpDecl(true, t.literal), State(rest, errs)))
    {
      assert [k, on, format, t] + ([NL] + rest) == [k] + ([on] + ([format] + ([t] + ([NL] + rest))));
      Front(k, [on] + ([format] + ([t] + ([NL] + rest))), errs);
      Front(on, [format] + ([t] + ([NL] + rest)), errs);
      Front(format, [t] + ([NL] + rest), errs);
      NameIsRead(t, [NL] + rest, errs);
      LineEnds(rest, errs);
      Dispatches(State([k] + ([on] + ([format] + ([t] + ([NL] + rest)))), errs));
      hide ExpectIdentOrString, ExpectNewline, TryDeclaration;
    }
    McpSwitches(k, on);
    McpSwitches(k, on.(typ := KW_OFF));
  }

  lemma McpSwitches(k: Token, on: Token)
    requires k.typ == KW_MCP && on.typ in {KW_ON, KW_OFF}
    ensures LineReads([k, on], McpDecl(on.typ == KW_ON, ""))
  {
    forall rest, errs
      ensures TryDeclaration(State([k, on] + ([NL] + rest), errs)) == Some(Parsed(McpDecl(on.typ == KW_ON, ""), State(rest, errs)))
    {
      assert [k, on] + ([NL] + rest) == [k] + ([on] + ([NL] + rest));
      Front(k, [on] + ([NL] + rest), errs);
      Front(on, [NL] + rest, errs);
      Front(NL, rest, errs);
      LineEnds(rest, errs);
      Dispatches(State([k] + ([on] + ([NL] + rest)), errs));
      hide ExpectIdentOrString, ExpectNewline, TryDeclaration;
    }
  }

  /** An MCP that is switched neither on nor off is reported. */
  lemma McpIsReported(s: State)
    requires Kind(s) == KW_MCP && Kind(Advance(s)) !in {KW_ON, KW_OFF}
    ensures |ParseMcpDecl(s).next.errors| > |s.errors|
  {}

  /** An ENV in none of its forms is reported. */
  lemma EnvIsReported(s: State)
    requires Kind(s) == KW_ENV && Kind(Advance(Advance(s))) !in {KW_SECRET, KW_TEXT, ASSIGN}
    ensures |ParseEnvDecl(s).next.errors| > |s.errors|
  {
    EnvUnfolds(s);
    hide ParseEnvDecl, ParseEnvValue, SkipOptional, ExpectNewline;
  }

  /** A CONFIG with neither a type nor a default is reported. */
  lemma ConfigIsReported(s: State)
    requires Kind(s) == KW_CONFIG && Kind(Advance(Advance(s))) !in {KW_BOOL, KW_STRING, KW_NUMBER, KW_SECRET, KW_SELECT, ASSIGN}
    ensures |ParseConfigDecl(s).next.errors| > |s.errors|
  {
    hide ParseLiteralValue, ParseSelectOptions, ExpectNewline;
  }

  /** What is no target, no mode, no position and no mount mode is reported. */
  lemma WordsAreReported(s: State)
    ensures TargetOf(Kind(Advance(s))) == NoTarget ==> |ParseRemoveDecl(s).next.errors| > |s.errors|
    ensures Current(Advance(s)).literal !in {"pty", "acp"} ==> |ParseModeDecl(s).next.errors| > |s.errors|
    ensures !IsPosition(Current(Advance(s))) ==> |ParsePositionDecl(s).next.errors| > |s.errors|
    ensures Kind(s) == LBRACKET && Current(Advance(s)).literal !in {"ro", "rw"} ==> |ParseMountMode(s).next.errors| > |s.errors|
  {
    hide ExpectNewline, ParseStrings, TargetOf, IsPosition;
  }

  /** The positions, by keyword or by name. */
  lemma PositionsExactly(t: Token)
    ensures IsPosition(t) <==> t.typ in {KW_PREPEND, KW_APPEND, KW_NONE} || (t.typ == IDENT && t.literal == "after_first")
  {}

  // ---------------------------------------------------------------- lists

  /** Slugs, quoted or not, with commas between them or not. */
  function SpelledSlugs(items: seq<(Token, bool)>, rest: seq<Token>): seq<Token> {
    if items == [] then rest
    else [items[0].0] + ((if items[0].1 then [COMMA_TOKEN] else []) + SpelledSlugs(items[1..], rest))
  }

  function Literals(items: seq<(Token, bool)>): seq<string> { seq(|items|, i requires 0 <= i < |items| => items[i].0.literal) }

  lemma OptionalComma(comma: bool, rest: seq<Token>, errs: seq<ParseError>)
    requires rest != [] ==> rest[0].typ != COMMA
    ensures SkipComma(State((if comma then [COMMA_TOKEN] else []) + rest, errs)) == State(rest, errs)
  {
    Front(COMMA_TOKEN, rest, errs);
    assert [] + rest == rest;
  }

  lemma {:induction false} SlugsRead(items: seq<(Token, bool)>, acc: seq<string>, rest: seq<Token>, errs: seq<ParseError>)
    requires forall i :: 0 <= i < |items| ==> IsNameToken(items[i].0)
    ensures ParseSlugs(acc, State(SpelledSlugs(items, [NL] + rest), errs)) == Parsed(acc + Literals(items), State([NL] + rest, errs))
    decreases |items|
  {
    hide ParseSlugs, ExpectIdentOrString, SkipComma, Advance;
    if items == [] {
      hide IsNewlineOrEnd;
      LineEnds(rest, errs);
      assert acc + Literals(items) == acc;
      SlugGoesOn(acc, State([NL] + rest, errs));
    } else {
      var more := SpelledSlugs(items[1..], [NL] + rest);
      var t, tail := items[0].0, (if items[0].1 then [COMMA_TOKEN] else []) + more;
      SlugGoesOn(acc, State([t] + tail, errs));
      NameIsRead(t, tail, errs);
      Front(t, tail, errs);
      OptionalComma(items[0].1, more, errs);
      SlugsRead(items[1..], acc + [t.literal], rest, errs);
      assert acc + [t.literal] + Literals(items[1..]) == acc + Literals(items);
      hide Literals;
    }
  }

  lemma SlugGoesOn(acc: seq<string>, s: State)
    ensures IsNewlineOrEnd(s) ==> ParseSlugs(acc, s) == Parsed(acc, s)
    ensures IsNameToken(Current(s)) ==>
      ParseSlugs(acc, s) == ParseSlugs(acc + [ExpectIdentOrString(s).val], SkipComma(ExpectIdentOrString(s).next))
  {}

  /** SKILLS may be quoted, and separated by spaces. */
  lemma SkillsRead(k: Token, items: seq<(Token, bool)>, rest: seq<Token>, errs: seq<ParseError>)
    requires k.typ == KW_SKILLS && forall i :: 0 <= i < |items| ==> IsNameToken(items[i].0)
    ensures TryDeclaration(State([k] + SpelledSlugs(items, [NL] + rest), errs)) ==
      Some(Parsed(SkillsDecl(Literals(items)), State(rest, errs)))
  {
    Front(k, SpelledSlugs(items, [NL] + rest), errs);
    Dispatches(State([k] + SpelledSlugs(items, [NL] + rest), errs));
    SlugsRead(items, [], rest, errs);
    assert [] + Literals(items) == Literals(items);
    LineEnds(rest, errs);
    hide TryDeclaration, ParseSlugs, ExpectNewline, Literals, SpelledSlugs;
  }

  lemma {:induction false} OptionsRead(items: seq<(Token, bool)>, acc: seq<string>, rest: seq<Token>, errs: seq<ParseError>)
    requires forall i :: 0 <= i < |items| ==> items[i].0.typ == STRING
    ensures ParseOptions(acc, State(SpelledSlugs(items, [CLOSE] + rest), errs)) ==
      Parsed(acc + Literals(items), State([CLOSE] + rest, errs))
    decreases |items|
  {
    hide ParseOptions, SpelledSlugs, Literals;
    NoItems(rest);
    if items == [] {
      Front(CLOSE, rest, errs);
      assert acc + [] == acc;
      OptionGoesOn(acc, State([CLOSE] + rest, errs));
    } else {
      OptionReads(items, acc, [CLOSE] + rest, errs);
      OptionsRead(items[1..], acc + [items[0].0.literal], rest, errs);
      MoreItems(items, acc);
    }
  }

  lemma NoItems(rest: seq<Token>)
    ensures Literals([]) == [] && SpelledSlugs([], [CLOSE] + rest) == [CLOSE] + rest && SpelledSlugs([], [NL] + rest) == [NL] + rest
  {}

  lemma MoreItems(items: seq<(Token, bool)>, acc: seq<string>)
    requires items != []
    ensures acc + [items[0].0.literal] + Literals(items[1..]) == acc + Literals(items)
  {}

  lemma OptionReads(items: seq<(Token, bool)>, acc: seq<string>, close: seq<Token>, errs: seq<ParseError>)
    requires items != [] && items[0].0.typ == STRING && close != [] && close[0].typ != COMMA
    requires forall i :: 0 <= i < |items| ==> items[i].0.typ == STRING
    ensures ParseOptions(acc, State(SpelledSlugs(items, close), errs)) ==
      ParseOptions(acc + [items[0].0.literal], State(SpelledSlugs(items[1..], close), errs))
  {
    hide ParseOptions, SkipComma, Advance;
    var more := SpelledSlugs(items[1..], close);
    var t, tail := items[0].0, (if items[0].1 then [COMMA_TOKEN] else []) + more;
    assert SpelledSlugs(items, close) == [t] + tail;
    OptionGoesOn(acc, State([t] + tail, errs));
    Front(t, tail, errs);
    OptionalComma(items[0].1, more, errs);
  }

  lemma OptionGoesOn(acc: seq<string>, s: State)
    ensures Kind(s) == RPAREN ==> ParseOptions(acc, s) == Parsed(acc, s)
    ensures Kind(s) == STRING ==> ParseOptions(acc, s) == ParseOptions(acc + [Current(s).literal], SkipComma(Advance(s)))
  {}

  /** The options of a SELECT may be separated by spaces. */
  lemma SelectReads(k: Token, items: seq<(Token, bool)>, rest: seq<Token>, errs: seq<ParseError>)
    requires k.typ == KW_SELECT && forall i :: 0 <= i < |items| ==> items[i].0.typ == STRING
    ensures ParseConfigType(State([k] + ([OPEN] + SpelledSlugs(items, [CLOSE] + rest)), errs)) ==
      Parsed((Select, Literals(items)), State(rest, errs))
  {
    hide ParseOptions, Literals, SpelledSlugs, Advance;
    Front(k, [OPEN] + SpelledSlugs(items, [CLOSE] + rest), errs);
    Front(OPEN, SpelledSlugs(items, [CLOSE] + rest), errs);
    OptionsRead(items, [], rest, errs);
    assert [] + Literals(items) == Literals(items);
    Front(CLOSE, rest, errs);
  }

  /** A mount with its mode written out, and one without a mode. */
  lemma MountReads(slug: Token, mode: Token, rest: seq<Token>, errs: seq<ParseError>)
    requires IsNameToken(mode) && mode.literal in {"ro", "rw"}
    ensures ParseMountMode(State([Token(LBRACKET, "[")] + ([mode] + ([Token(RBRACKET, "]")] + rest)), errs)) ==
      Parsed(mode.literal, State(rest, errs))
    ensures (rest != [] ==> rest[0].typ != LBRACKET) ==> ParseMountMode(State(rest, errs)) == Parsed("ro", State(rest, errs))
  {
    Front(Token(LBRACKET, "["), [mode] + ([Token(RBRACKET, "]")] + rest), errs);
    NameIsRead(mode, [Token(RBRACKET, "]")] + rest, errs);
    Front(Token(RBRACKET, "]"), rest, errs);
    hide ExpectIdentOrString;
  }

  // ---------------------------------------------------------------- numbers, scripts and capabilities

  /** The timeout of a SETUP may be written out, and its script left out. */
  lemma TimeoutReads(timeout: Token, n: Token, rest: seq<Token>, errs: seq<ParseError>)
    requires timeout == Token(IDENT, "timeout") && n.typ == NUMBER && IntOf(n.literal).Some?
    ensures ParseSetupTimeout(State([timeout] + ([Token(ASSIGN, "=")] + ([n] + rest)), errs)) ==
      Parsed(IntOf(n.literal).value, State(rest, errs))
    ensures rest != [] && rest[0] != timeout ==> ParseSetupTimeout(State(rest, errs)) == Parsed(300, State(rest, errs))
  {
    Front(timeout, [Token(ASSIGN, "=")] + ([n] + rest), errs);
    Front(Token(ASSIGN, "="), [n] + rest, errs);
    Front(n, rest, errs);
    hide IntOf;
  }

  lemma SetupWithoutScript(k: Token, rest: seq<Token>, errs: seq<ParseError>)
    requires k.typ == KW_SETUP && (rest != [] ==> rest[0].typ !in {NEWLINE, COMMENT})
    ensures TryDeclaration(State([k] + ([NL] + rest), errs)) == Some(Parsed(SetupDecl("", 300), State(rest, errs)))
  {
    Front(k, [NL] + rest, errs);
    Front(NL, rest, errs);
    Dispatches(State([k] + ([NL] + rest), errs));
    assert SkipNewlines(State(rest, errs)) == State(rest, errs);
    hide TryDeclaration;
  }

  /** A capability of one word, whatever the case of its axis. */
  lemma CapabilityReads(k: Token, axis: Token, value: Token, rest: seq<Token>, errs: seq<ParseError>)
    requires k.typ == KW_CAPABILITY && axis.typ == IDENT && value.typ in {IDENT, STRING, TRUE, FALSE, KW_NONE}
    requires ValidCapability(ToLower(axis.literal), value.literal)
    ensures TryDeclaration(State([k] + ([axis] + ([value] + ([NL] + rest))), errs)) ==
      Some(Parsed(CapabilityDecl(ToLower(axis.literal), value.literal), State(rest, errs)))
  {
    Front(k, [axis] + ([value] + ([NL] + rest)), errs);
    Front(axis, [value] + ([NL] + rest), errs);
    Dispatches(State([k] + ([axis] + ([value] + ([NL] + rest))), errs));
    OnePiece(value, rest, errs);
    LineEnds(rest, errs);
    hide TryDeclaration, ParsePieces, ValidCapability, ToLower, ExpectNewline;
  }

  lemma OnePiece(value: Token, rest: seq<Token>, errs: seq<ParseError>)
    requires value.typ in {IDENT, STRING, TRUE, FALSE, KW_NONE}
    ensures ParsePieces([], State([value] + ([NL] + rest), errs)) == Parsed([value.literal], State([NL] + rest, errs))
  {
    Front(value, [NL] + rest, errs);
    LineEnds(rest, errs);
    assert [] + [value.literal] == [value.literal];
    assert ParsePieces([value.literal], State([NL] + rest, errs)) == Parsed([value.literal], State([NL] + rest, errs));
  }

  /** The values of every axis but control. */
  lemma AxesExactly(axis: string, value: string)
    ensures axis in AXES && value in AXES[axis] <==> (axis, value) in {
      ("resume", "none"), ("resume", "cli"), ("resume", "acp"), ("permission", "none"), ("permission", "acp"),
      ("permission", "notification"), ("usage", "none"), ("usage", "exit"), ("usage", "live"), ("interrupt", "true"),
      ("interrupt", "false"), ("streaming", "true"), ("streaming", "false"), ("subagents", "true"), ("subagents", "false"),
      ("model_family", "claude"), ("model_family", "gpt"), ("model_family", "gemini"), ("model_family", "multi")}
  {}

  // ---------------------------------------------------------------- what begins nothing

  /** The tokens that begin a statement. */
  lemma StatementsExactly(s: State)
    ensures TryStatement(s).Some? <==>
      Kind(s) in {KW_ARG, KW_FILE, KW_MKDIR, KW_IF, KW_FOR} || (Kind(s) == IDENT && PeekIs(s, ASSIGN))
  {
    hide ParseArgStmt, ParseFileStmt, ParseMkdirStmt, ParseIfStmt, ParseForStmt, ParseAssignStmt;
  }

  /** A token that begins neither a declaration nor a statement is reported, at the top and in a block. */
  lemma JunkIsReported(p: Program, ss: seq<Stmt>, s: State)
    requires Kind(s) !in {NEWLINE, COMMENT, EOF}
    ensures TryDeclaration(s).None? && TryStatement(s).None? ==> |ParseItems(p, s).next.errors| > |s.errors|
    ensures TryStatement(s).None? && Kind(s) != RBRACE ==> |ParseStatements(ss, s).next.errors| > |s.errors|
  {
    ItemsGoOn(p, s);
    if Kind(s) != RBRACE { StatementsGoOn(ss, s); }
    hide TryDeclaration, TryStatement, ParseItems, ParseStatements;
  }
}
