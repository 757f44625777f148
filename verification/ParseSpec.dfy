/** What the AgentFile parser computes, as functions on the tokens that are still unread. */
module ParseSpec {
  import opened Text
  import opened Tokens
  import opened Ast
  import LexSpec

  // ---------------------------------------------------------------- the parser's state

  datatype Complaint =
    | Wanted(typ: TokenType) | WantedIdentifier | WantedName | WantedString | WantedNumber | BadInteger
    | WantedLiteral | UnexpectedInExpression | UnexpectedInBlock | UnexpectedAtTop | WantedConfigType
    | WantedEnvForm | WantedOnOff | BadMountMode | BadRemoveTarget | BadMode | BadPosition
    | UnexpectedInCapability | BadCapability

  datatype ParseError = ParseError(complaint: Complaint, at: Token)

  /** The unread tokens and the errors reported so far. */
  datatype State = State(rest: seq<Token>, errors: seq<ParseError>)

  datatype Parsed<+T> = Parsed(val: T, next: State)

  const END := Token(EOF, "")

  function Current(s: State): Token { if s.rest == [] then END else s.rest[0] }

  function Kind(s: State): TokenType { Current(s).typ }

  predicate AtEnd(s: State) { s.rest == [] || s.rest[0].typ == EOF }

  function Advance(s: State): (r: State)
    ensures s.rest != [] ==> |r.rest| < |s.rest|
    ensures r.errors == s.errors
  {
    if s.rest == [] then s else s.(rest := s.rest[1..])
  }

  predicate PeekIs(s: State, t: TokenType) { |s.rest| > 1 && s.rest[1].typ == t }

  function Report(s: State, c: Complaint): State { s.(errors := s.errors + [ParseError(c, Current(s))]) }

  /** Reading never gives tokens back and never withdraws an error. */
  ghost predicate Moves(s: State, r: State) { |r.rest| <= |s.rest| && |s.errors| <= |r.errors| }

  /** Reading that takes at least one token, unless none is left. */
  ghost predicate Consumes(s: State, r: State) { Moves(s, r) && (s.rest != [] ==> |r.rest| < |s.rest|) }

  // ---------------------------------------------------------------- tokens

  function Expect(s: State, t: TokenType): (r: State)
    ensures Moves(s, r)
  {
    if Kind(s) != t then Report(s, Wanted(t)) else Advance(s)
  }

  function ExpectIdent(s: State): (r: Parsed<string>)
    ensures Consumes(s, r.next)
  {
    if Kind(s) == IDENT then Parsed(Current(s).literal, Advance(s))
    else Parsed("", Advance(Report(s, WantedIdentifier)))
  }

  function ExpectIdentOrString(s: State): (r: Parsed<string>)
    ensures Consumes(s, r.next)
  {
    if Kind(s) == IDENT || Kind(s) == STRING then Parsed(Current(s).literal, Advance(s))
    else Parsed("", Advance(Report(s, WantedName)))
  }

  function ExpectString(s: State): (r: Parsed<string>)
    ensures Consumes(s, r.next)
  {
    if Kind(s) == STRING then Parsed(Current(s).literal, Advance(s))
    else Parsed("", Advance(Report(s, WantedString)))
  }

  predicate LooksOctal(lit: string) { |lit| > 1 && lit[0] == '0' && lit[1] != '.' }

  /** Octal first for a literal with a leading zero, then decimal. */
  function IntOf(lit: string): Option<int> {
    if LooksOctal(lit) && ParseInt(lit, 8).Some? then ParseInt(lit, 8) else ParseInt(lit, 10)
  }

  function ExpectInt(s: State): (r: Parsed<int>)
    ensures Consumes(s, r.next)
  {
    if Kind(s) != NUMBER then Parsed(0, Advance(Report(s, WantedNumber)))
    else if IntOf(Current(s).literal).Some? then Parsed(IntOf(Current(s).literal).value, Advance(s))
    else Parsed(0, Advance(Report(s, BadInteger)))
  }

  /** The exact integers of a float64; any other literal is kept as it stands. */
  const MAX_EXACT: nat := 0x20_0000_0000_0000

  function FloatOf(lit: string): Value {
    if lit != "" && IsNumeral(lit, 10) && NumeralValue(lit, 10) <= MAX_EXACT then IntValue(NumeralValue(lit, 10))
    else FloatValue(lit)
  }

  function ParseLiteralValue(s: State): (r: Parsed<Value>)
    ensures Consumes(s, r.next)
  {
    match Kind(s)
    case STRING => Parsed(StrValue(Current(s).literal), Advance(s))
    case NUMBER => Parsed(FloatOf(Current(s).literal), Advance(s))
    case TRUE => Parsed(BoolValue(true), Advance(s))
    case FALSE => Parsed(BoolValue(false), Advance(s))
    case _ => Parsed(NoValue, Advance(Report(s, WantedLiteral)))
  }

  predicate IsNewlineOrEnd(s: State) { AtEnd(s) || Kind(s) == NEWLINE || Kind(s) == COMMENT }

  function SkipComments(s: State): (r: State)
    ensures Moves(s, r) && r.errors == s.errors
    decreases |s.rest|
  {
    if !AtEnd(s) && Kind(s) == COMMENT then SkipComments(Advance(s)) else s
  }

  function ExpectNewline(s: State): (r: State)
    ensures Moves(s, r) && r.errors == s.errors
  {
    var t := SkipComments(s);
    if Kind(t) == NEWLINE then Advance(t) else t
  }

  function SkipNewlines(s: State): (r: State)
    ensures Moves(s, r) && r.errors == s.errors
    decreases |s.rest|
  {
    if Kind(s) == NEWLINE || Kind(s) == COMMENT then SkipNewlines(Advance(s)) else s
  }

  function SkipComma(s: State): (r: State)
    ensures Moves(s, r) && r.errors == s.errors
  {
    if Kind(s) == COMMA then Advance(s) else s
  }

  // ---------------------------------------------------------------- expressions

  /** Binding strength: or, and, equality, addition, unary, primary. */
  const UNARY := 4
  const PRIMARY := 5

  function LevelOf(op: BinOp): nat {
    match op
    case Or => 0
    case And => 1
    case Eq => 2
    case Neq => 2
    case Plus => 3
  }

  function OperatorOf(t: Token): Option<BinOp> {
    match t.typ
    case KW_OR => Some(Or)
    case KW_AND => Some(And)
    case EQ => Some(Eq)
    case NEQ => Some(Neq)
    case PLUS => Some(Plus)
    case _ => None
  }

  predicate OperatorAt(s: State, k: nat) {
    OperatorOf(Current(s)).Some? && LevelOf(OperatorOf(Current(s)).value) == k
  }

  /** One rule for the five precedence levels: operands one level up, folded to the left. */
  function ParseLevel(k: nat, s: State): (r: Parsed<Expr>)
    requires k <= PRIMARY
    ensures Consumes(s, r.next)
    decreases |s.rest|, 10 - k
  {
    if k == PRIMARY then ParsePrimary(s)
    else if k == UNARY then
      if Kind(s) == KW_NOT then
        var r := ParseLevel(UNARY, Advance(s));
        Parsed(Not(r.val), r.next)
      else ParseLevel(PRIMARY, s)
    else
      var r := ParseLevel(k + 1, s);
      Fold(k, r.val, r.next)
  }

  function Fold(k: nat, left: Expr, s: State): (r: Parsed<Expr>)
    requires k < UNARY
    ensures Moves(s, r.next)
    decreases |s.rest|, 0
  {
    if OperatorAt(s, k) then
      var r := ParseLevel(k + 1, Advance(s));
      Fold(k, Binary(left, OperatorOf(Current(s)).value, r.val), r.next)
    else Parsed(left, s)
  }

  function ParseExpr(s: State): (r: Parsed<Expr>)
    ensures Consumes(s, r.next)
    decreases |s.rest|, 11
  {
    ParseLevel(0, s)
  }

  function ParsePrimary(s: State): (r: Parsed<Expr>)
    ensures Consumes(s, r.next)
    decreases |s.rest|, 1
  {
    var lit := Current(s).literal;
    match Kind(s)
    case STRING => Parsed(StringLit(lit), Advance(s))
    case NUMBER => Parsed(NumberLit(lit), Advance(s))
    case TRUE => Parsed(BoolLit(true), Advance(s))
    case FALSE => Parsed(BoolLit(false), Advance(s))
    case HEREDOC_START =>
      var t := Advance(s);
      if Kind(t) == HEREDOC_BODY then Parsed(Heredoc(Current(t).literal), Advance(t)) else Parsed(Heredoc(""), t)
    case LBRACE =>
      var r := ParseFields([], SkipNewlines(Advance(s)));
      Parsed(ObjectLit(r.val), Expect(r.next, RBRACE))
    case LBRACKET =>
      var r := ParseElements([], SkipNewlines(Advance(s)));
      Parsed(ListLit(r.val), Expect(r.next, RBRACKET))
    case LPAREN =>
      var r := ParseExpr(Advance(s));
      Parsed(r.val, Expect(r.next, RPAREN))
    case IDENT =>
      var t := Advance(s);
      if Kind(t) == LPAREN then
        var r := ParseArgs([], Advance(t));
        Parsed(Call(lit, r.val), Expect(r.next, RPAREN))
      else ParseDots(Ident(lit), t)
    case _ => Parsed(StringLit(""), Advance(Report(s, UnexpectedInExpression)))
  }

  function ParseDots(left: Expr, s: State): (r: Parsed<Expr>)
    ensures Moves(s, r.next)
    decreases |s.rest|, 0
  {
    if Kind(s) == DOT then
      var r := ExpectIdent(Advance(s));
      ParseDots(Dot(left, r.val), r.next)
    else Parsed(left, s)
  }

  function ParseArgs(args: seq<Expr>, s: State): (r: Parsed<seq<Expr>>)
    ensures Moves(s, r.next)
    decreases |s.rest|, 12
  {
    if Kind(s) == RPAREN || AtEnd(s) then Parsed(args, s)
    else
      var r := ParseExpr(s);
      ParseArgs(args + [r.val], SkipComma(r.next))
  }

  function ParseField(s: State): (r: Parsed<Field>)
    ensures Consumes(s, r.next)
    decreases |s.rest|, 12
  {
    var key := ExpectIdentOrString(s);
    var r := ParseExpr(Expect(key.next, COLON));
    Parsed(Field(key.val, r.val), r.next)
  }

  function ParseFields(fields: seq<Field>, s: State): (r: Parsed<seq<Field>>)
    ensures Moves(s, r.next)
    decreases |s.rest|, 13
  {
    if Kind(s) == RBRACE || AtEnd(s) then Parsed(fields, s)
    else
      var t := SkipNewlines(s);
      if Kind(t) == RBRACE then Parsed(fields, t)
      else
        var r := ParseField(t);
        ParseFields(fields + [r.val], SkipNewlines(SkipComma(r.next)))
  }

  function ParseElements(elements: seq<Expr>, s: State): (r: Parsed<seq<Expr>>)
    ensures Moves(s, r.next)
    decreases |s.rest|, 13
  {
    if Kind(s) == RBRACKET || AtEnd(s) then Parsed(elements, s)
    else
      var t := SkipNewlines(s);
      if Kind(t) == RBRACKET then Parsed(elements, t)
      else
        var r := ParseExpr(t);
        ParseElements(elements + [r.val], SkipNewlines(SkipComma(r.next)))
  }

  // ---------------------------------------------------------------- statements

  function ParseGuard(s: State): (r: Parsed<Option<Expr>>)
    ensures Moves(s, r.next)
  {
    if Kind(s) == KW_WHEN then
      var r := ParseExpr(Advance(s));
      Parsed(Some(r.val), r.next)
    else Parsed(None, s)
  }

  function ParseArgList(args: seq<Expr>, s: State): (r: Parsed<seq<Expr>>)
    ensures Moves(s, r.next)
    decreases |s.rest|
  {
    if IsNewlineOrEnd(s) || Kind(s) == KW_WHEN then Parsed(args, s)
    else
      var r := ParseExpr(s);
      ParseArgList(args + [r.val], r.next)
  }

  function ParseArgStmt(s: State): (r: Parsed<Stmt>)
    ensures Consumes(s, r.next)
  {
    var args := ParseArgList([], Advance(s));
    var guard := ParseGuard(args.next);
    Parsed(ArgStmt(args.val, guard.val), ExpectNewline(guard.next))
  }

  function ParseFileStmt(s: State): (r: Parsed<Stmt>)
    ensures Consumes(s, r.next)
  {
    var path := ParseExpr(Advance(s));
    var content := ParseExpr(path.next);
    var mode := if Kind(content.next) == NUMBER then ExpectInt(content.next) else Parsed(0, content.next);
    var guard := ParseGuard(mode.next);
    Parsed(FileStmt(path.val, content.val, mode.val, guard.val), ExpectNewline(guard.next))
  }

  function ParseMkdirStmt(s: State): (r: Parsed<Stmt>)
    ensures Consumes(s, r.next)
  {
    var path := ParseExpr(Advance(s));
    Parsed(MkdirStmt(path.val), ExpectNewline(path.next))
  }

  function ParseAssignStmt(s: State): (r: Parsed<Stmt>)
    ensures Consumes(s, r.next)
  {
    var value := ParseExpr(Advance(Advance(s)));
    Parsed(AssignStmt(Current(s).literal, value.val), ExpectNewline(value.next))
  }

  function ParseIfStmt(s: State): (r: Parsed<Stmt>)
    requires s.rest != []
    ensures Consumes(s, r.next)
    decreases |s.rest|, 0
  {
    var condition := ParseExpr(Advance(s));
    var body := ParseBlock(condition.next);
    var t := SkipNewlines(body.next);
    var otherwise := if Kind(t) == KW_ELSE then ParseBlock(Advance(t)) else Parsed([], t);
    Parsed(IfStmt(condition.val, body.val, otherwise.val), otherwise.next)
  }

  function ParseForStmt(s: State): (r: Parsed<Stmt>)
    requires s.rest != []
    ensures Consumes(s, r.next)
    decreases |s.rest|, 0
  {
    var key := ExpectIdent(Advance(s));
    var val := if Kind(key.next) == COMMA then ExpectIdent(Advance(key.next)) else Parsed("", key.next);
    var iter := ParseExpr(Expect(val.next, KW_IN));
    var body := ParseBlock(iter.next);
    Parsed(ForStmt(key.val, val.val, iter.val, body.val), body.next)
  }

  function TryStatement(s: State): (r: Option<Parsed<Stmt>>)
    ensures r.Some? ==> s.rest != [] && Consumes(s, r.value.next)
    decreases |s.rest|, 1
  {
    match Kind(s)
    case KW_ARG => Some(ParseArgStmt(s))
    case KW_FILE => Some(ParseFileStmt(s))
    case KW_MKDIR => Some(ParseMkdirStmt(s))
    case KW_IF => Some(ParseIfStmt(s))
    case KW_FOR => Some(ParseForStmt(s))
    case IDENT => if PeekIs(s, ASSIGN) then Some(ParseAssignStmt(s)) else None
    case _ => None
  }

  function ParseBlock(s: State): (r: Parsed<seq<Stmt>>)
    ensures Moves(s, r.next)
    decreases |s.rest|, 3
  {
    var r := ParseStatements([], SkipNewlines(Expect(SkipNewlines(s), LBRACE)));
    Parsed(r.val, Expect(r.next, RBRACE))
  }

  function ParseStatements(stmts: seq<Stmt>, s: State): (r: Parsed<seq<Stmt>>)
    ensures Moves(s, r.next)
    decreases |s.rest|, 2
  {
    if Kind(s) == RBRACE || AtEnd(s) then Parsed(stmts, s)
    else
      var t := SkipNewlines(s);
      if Kind(t) == RBRACE then Parsed(stmts, t)
      else
        var r := TryStatement(t);
        if r.Some? then ParseStatements(stmts + [r.value.val], r.value.next)
        else ParseStatements(stmts, Advance(Report(t, UnexpectedInBlock)))
  }

  // ---------------------------------------------------------------- declarations

  function ParseNamed(s: State): (r: Parsed<string>)
    ensures Consumes(s, r.next)
  {
    var name := ExpectIdentOrString(Advance(s));
    Parsed(name.val, ExpectNewline(name.next))
  }

  function ParseOptions(options: seq<string>, s: State): (r: Parsed<seq<string>>)
    ensures Moves(s, r.next)
    decreases |s.rest|
  {
    if Kind(s) == RPAREN || AtEnd(s) then Parsed(options, s)
    else
      var r := ExpectString(s);
      ParseOptions(options + [r.val], SkipComma(r.next))
  }

  function ParseSelectOptions(s: State): (r: Parsed<seq<string>>)
    ensures Moves(s, r.next)
  {
    var r := ParseOptions([], Expect(s, LPAREN));
    Parsed(r.val, Expect(r.next, RPAREN))
  }

  function ParseConfigType(s: State): (r: Parsed<(ConfigType, seq<string>)>)
    ensures Moves(s, r.next)
  {
    match Kind(s)
    case KW_BOOL => Parsed((Boolean, []), Advance(s))
    case KW_STRING => Parsed((Str, []), Advance(s))
    case KW_NUMBER => Parsed((ConfigType.Number, []), Advance(s))
    case KW_SECRET => Parsed((Secret, []), Advance(s))
    case KW_SELECT =>
      var options := ParseSelectOptions(Advance(s));
      Parsed((Select, options.val), options.next)
    case ASSIGN => Parsed((Untyped, []), s)
    case _ => Parsed((Untyped, []), Report(s, WantedConfigType))
  }

  function ParseConfigDecl(s: State): (r: Parsed<Decl>)
    ensures Consumes(s, r.next)
  {
    var name := ExpectIdent(Advance(s));
    var typ := ParseConfigType(name.next);
    var default := if Kind(typ.next) == ASSIGN then ParseLiteralValue(Advance(typ.next)) else Parsed(NoValue, typ.next);
    Parsed(ConfigDecl(name.val, typ.val.0, typ.val.1, default.val), ExpectNewline(default.next))
  }

  function SkipOptional(s: State): (r: Parsed<bool>)
    ensures Moves(s, r.next)
  {
    if Kind(s) == KW_OPTIONAL then Parsed(true, Advance(s)) else Parsed(false, s)
  }

  /** A lone string is stored as the value, anything else as an expression. */
  function ParseEnvValue(name: string, s: State): (r: Parsed<Decl>)
    ensures Consumes(s, r.next)
  {
    var e := ParseExpr(s);
    var guard := ParseGuard(e.next);
    if e.val.StringLit? && Kind(e.next) != KW_WHEN then
      Parsed(EnvDecl(name, Fixed, e.val.str, None, guard.val, false), guard.next)
    else Parsed(EnvDecl(name, Fixed, "", Some(e.val), guard.val, false), guard.next)
  }

  function ParseEnvDecl(s: State): (r: Parsed<Decl>)
    ensures Consumes(s, r.next)
  {
    var name := ExpectIdent(Advance(s));
    var t := name.next;
    var r :=
      match Kind(t) {
        case KW_SECRET =>
          var optional := SkipOptional(Advance(t));
          Parsed(EnvDecl(name.val, SecretSource, "", None, None, optional.val), optional.next)
        case KW_TEXT =>
          var optional := SkipOptional(Advance(t));
          Parsed(EnvDecl(name.val, TextSource, "", None, None, optional.val), optional.next)
        case ASSIGN => ParseEnvValue(name.val, Advance(t))
        case _ => Parsed(EnvDecl(name.val, Fixed, "", None, None, false), Report(t, WantedEnvForm))
      };
    Parsed(r.val, ExpectNewline(r.next))
  }

  function ParseExprLine(s: State): (r: Parsed<Expr>)
    ensures Consumes(s, r.next)
  {
    var e := ParseExpr(Advance(s));
    Parsed(e.val, ExpectNewline(e.next))
  }

  function ParseMcpDecl(s: State): (r: Parsed<Decl>)
    ensures Consumes(s, r.next)
  {
    var t := Advance(s);
    var enabled := Kind(t) != KW_OFF;
    var u := if Kind(t) == KW_ON || Kind(t) == KW_OFF then Advance(t) else Report(t, WantedOnOff);
    var format :=
      if enabled && Current(u) == Token(IDENT, "FORMAT") then ExpectIdentOrString(Advance(u)) else Parsed("", u);
    Parsed(McpDecl(enabled, format.val), ExpectNewline(format.next))
  }

  function ParseSlugs(slugs: seq<string>, s: State): (r: Parsed<seq<string>>)
    ensures Moves(s, r.next)
    decreases |s.rest|
  {
    if IsNewlineOrEnd(s) then Parsed(slugs, s)
    else
      var r := ExpectIdentOrString(s);
      ParseSlugs(slugs + [r.val], SkipComma(r.next))
  }

  function ParseMountMode(s: State): (r: Parsed<string>)
    ensures Moves(s, r.next)
  {
    if Kind(s) == LBRACKET then
      var mode := ExpectIdentOrString(Advance(s));
      var t := if mode.val != "ro" && mode.val != "rw" then Report(mode.next, BadMountMode) else mode.next;
      Parsed(mode.val, Expect(t, RBRACKET))
    else Parsed("ro", s)
  }

  function ParseMounts(mounts: seq<Mount>, s: State): (r: Parsed<seq<Mount>>)
    ensures Moves(s, r.next)
    decreases |s.rest|
  {
    if IsNewlineOrEnd(s) then Parsed(mounts, s)
    else
      var slug := ExpectIdentOrString(s);
      var mode := ParseMountMode(slug.next);
      ParseMounts(mounts + [Mount(slug.val, mode.val)], SkipComma(mode.next))
  }

  function ParseSetupTimeout(s: State): (r: Parsed<int>)
    ensures Moves(s, r.next)
  {
    if Current(s) == Token(IDENT, "timeout") then ExpectInt(Expect(Advance(s), ASSIGN)) else Parsed(300, s)
  }

  function ParseSetupDecl(s: State): (r: Parsed<Decl>)
    ensures Consumes(s, r.next)
  {
    var timeout := ParseSetupTimeout(Advance(s));
    var t := timeout.next;
    var script :=
      if Kind(t) == HEREDOC_START then
        if Kind(Advance(t)) == HEREDOC_BODY then Parsed(Current(Advance(t)).literal, Advance(Advance(t)))
        else Parsed("", Advance(t))
      else Parsed("", t);
    Parsed(SetupDecl(script.val, timeout.val), SkipNewlines(script.next))
  }

  function TargetOf(t: TokenType): RemoveTarget {
    match t
    case KW_ENV => RemoveEnv
    case KW_SKILLS => RemoveSkills
    case KW_CONFIG => RemoveConfig
    case KW_ARG => RemoveArg
    case KW_FILE => RemoveFile
    case _ => NoTarget
  }

  function ParseRemoveDecl(s: State): (r: Parsed<Decl>)
    ensures Consumes(s, r.next)
  {
    var t := Advance(s);
    if TargetOf(Kind(t)) == NoTarget then Parsed(RemoveDecl(NoTarget, ""), Advance(Report(t, BadRemoveTarget)))
    else
      var name := ExpectIdentOrString(Advance(t));
      Parsed(RemoveDecl(TargetOf(Kind(t)), name.val), ExpectNewline(name.next))
  }

  function ParseStrings(strings: seq<string>, s: State): (r: Parsed<seq<string>>)
    ensures Moves(s, r.next)
    decreases |s.rest|
  {
    if Kind(s) == STRING then ParseStrings(strings + [Current(s).literal], Advance(s)) else Parsed(strings, s)
  }

  function ParseModeDecl(s: State): (r: Parsed<Decl>)
    ensures Consumes(s, r.next)
  {
    var mode := ExpectIdentOrString(Advance(s));
    var t := if mode.val != "pty" && mode.val != "acp" then Report(mode.next, BadMode) else mode.next;
    if Kind(t) == STRING then
      var args := ParseStrings([], t);
      Parsed(ModeArgsDecl(mode.val, args.val), ExpectNewline(args.next))
    else Parsed(ModeDecl(mode.val), ExpectNewline(t))
  }

  function ParsePromptDecl(s: State): (r: Parsed<Decl>)
    ensures Consumes(s, r.next)
  {
    var content := ExpectString(Advance(s));
    Parsed(PromptDecl(content.val), ExpectNewline(content.next))
  }

  predicate IsPosition(t: Token) {
    t.typ == KW_PREPEND || t.typ == KW_APPEND || t.typ == KW_NONE || t == Token(IDENT, "after_first")
  }

  function ParsePositionDecl(s: State): (r: Parsed<Decl>)
    ensures Consumes(s, r.next)
  {
    var t := Advance(s);
    var u := if IsPosition(Current(t)) then t else Report(t, BadPosition);
    Parsed(PromptPositionDecl(Current(t).literal), ExpectNewline(Advance(u)))
  }

  // ---------------------------------------------------------------- capabilities

  function LowerChar(c: char): char { if 'A' <= c <= 'Z' then (c as int + 32) as char else c }

  function ToLower(s: string): string { if s == "" then "" else [LowerChar(s[0])] + ToLower(s[1..]) }

  const AXES: map<string, set<string>> := map[
    "resume" := {"none", "cli", "acp"},
    "permission" := {"none", "acp", "notification"},
    "usage" := {"none", "exit", "live"},
    "interrupt" := {"true", "false"},
    "streaming" := {"true", "false"},
    "subagents" := {"true", "false"},
    "model_family" := {"claude", "gpt", "gemini", "multi"}
  ]

  predicate IsControlChar(c: char) { 'a' <= c <= 'z' || IsDigit(c) || c == '_' }

  /** A comma-separated list of snake-case words, each read up to the next comma. */
  predicate IsControlList(word: string, s: string)
    decreases |s|
  {
    if s == "" then IsControlWord(word)
    else if s[0] == ',' then IsControlWord(word) && IsControlList("", s[1..])
    else IsControlList(word + [s[0]], s[1..])
  }

  predicate IsControlWord(word: string) {
    var w := TrimSpace(word);
    w != "" && forall i :: 0 <= i < |w| ==> IsControlChar(w[i])
  }

  predicate ValidCapability(axis: string, value: string) {
    var a, v := ToLower(TrimSpace(axis)), TrimSpace(value);
    && a != "" && v != ""
    && if a == "control" then IsControlList("", v) else a in AXES && ToLower(v) in AXES[a]
  }

  predicate IsCapabilityPiece(t: TokenType) {
    t == IDENT || t == STRING || t == TRUE || t == FALSE || t == KW_NONE
  }

  function ParsePieces(pieces: seq<string>, s: State): (r: Parsed<seq<string>>)
    ensures Moves(s, r.next)
    decreases |s.rest|
  {
    if IsNewlineOrEnd(s) then Parsed(pieces, s)
    else if IsCapabilityPiece(Kind(s)) then ParsePieces(pieces + [Current(s).literal], Advance(s))
    else if Kind(s) == COMMA then ParsePieces(pieces + [","], Advance(s))
    else ParsePieces(pieces, Advance(Report(s, UnexpectedInCapability)))
  }

  function ParseCapabilityDecl(s: State): (r: Parsed<Decl>)
    ensures Consumes(s, r.next)
  {
    var name := ExpectIdent(Advance(s));
    var axis := ToLower(name.val);
    var pieces := ParsePieces([], name.next);
    var value := Join(pieces.val, if axis == "control" then "" else " ");
    var t := if ValidCapability(axis, value) then pieces.next else Report(pieces.next, BadCapability);
    Parsed(CapabilityDecl(axis, value), ExpectNewline(t))
  }

  // ---------------------------------------------------------------- programs

  function Wrap<T, U>(r: Parsed<T>, f: T -> U): (q: Parsed<U>)
    ensures q.next == r.next
  {
    Parsed(f(r.val), r.next)
  }

  function TryDeclaration(s: State): (r: Option<Parsed<Decl>>)
    ensures r.Some? ==> s.rest != [] && Consumes(s, r.value.next)
  {
    match Kind(s)
    case KW_AGENT => Some(Wrap(ParseNamed(s), n => AgentDecl(n)))
    case KW_EXECUTABLE => Some(Wrap(ParseNamed(s), n => ExecutableDecl(n)))
    case KW_CONFIG => Some(ParseConfigDecl(s))
    case KW_ENV => Some(ParseEnvDecl(s))
    case KW_REPO => Some(Wrap(ParseExprLine(s), e => RepoDecl(e)))
    case KW_BRANCH => Some(Wrap(ParseExprLine(s), e => BranchDecl(e)))
    case KW_GIT_CREDENTIAL => Some(Wrap(ParseNamed(s), n => GitCredentialDecl(n)))
    case KW_MCP => Some(ParseMcpDecl(s))
    case KW_SKILLS =>
      var r := ParseSlugs([], Advance(s));
      Some(Parsed(SkillsDecl(r.val), ExpectNewline(r.next)))
    case KW_SETUP => Some(ParseSetupDecl(s))
    case KW_REMOVE => Some(ParseRemoveDecl(s))
    case KW_MODE => Some(ParseModeDecl(s))
    case KW_USE_ENV_BUNDLE => Some(Wrap(ParseNamed(s), n => UseEnvBundleDecl(n)))
    case KW_USE_CONFIG_BUNDLE => Some(Wrap(ParseNamed(s), n => UseConfigBundleDecl(n)))
    case KW_PROMPT => Some(ParsePromptDecl(s))
    case KW_PROMPT_POSITION => Some(ParsePositionDecl(s))
    case KW_CAPABILITY => Some(ParseCapabilityDecl(s))
    case KW_KNOWLEDGE =>
      var r := ParseMounts([], Advance(s));
      Some(Parsed(KnowledgeDecl(r.val), ExpectNewline(r.next)))
    case _ => None
  }

  function ParseItems(p: Program, s: State): (r: Parsed<Program>)
    ensures Moves(s, r.next)
    decreases |s.rest|
  {
    var t := SkipNewlines(s);
    if AtEnd(s) || AtEnd(t) then Parsed(p, t)
    else
      var d := TryDeclaration(t);
      if d.Some? then ParseItems(p.(declarations := p.declarations + [d.value.val]), d.value.next)
      else
        var st := TryStatement(t);
        if st.Some? then ParseItems(p.(statements := p.statements + [st.value.val]), st.value.next)
        else ParseItems(p, Advance(Report(t, UnexpectedAtTop)))
  }

  function ParseTokens(tokens: seq<Token>): Parsed<Program> {
    ParseItems(Program([], []), State(tokens, []))
  }

  /** The program and the errors that `Parse` returns for a source text. */
  function Parse(input: string): (Program, seq<ParseError>) {
    var r := ParseTokens(LexSpec.Lex(input));
    (r.val, r.next.errors)
  }
}
