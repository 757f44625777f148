/** The tokens that the printed form of each part of a syntax tree stands for. */
module PrintTokens {
  import opened Text
  import opened Tokens
  import opened Ast
  import opened PrintSpec

  const NL := Token(NEWLINE, "\n")
  const COMMA_TOKEN := Token(COMMA, ",")

  function IdentToken(n: string): Token { Token(IDENT, n) }

  function StringToken(s: string): Token { Token(STRING, s) }

  function OpToken(op: BinOp): Token {
    match op
    case Or => Token(KW_OR, "or")
    case And => Token(KW_AND, "and")
    case Eq => Token(EQ, "==")
    case Neq => Token(NEQ, "!=")
    case Plus => Token(PLUS, "+")
  }

  function BoolToken(b: bool): Token { if b then Token(TRUE, "true") else Token(FALSE, "false") }

  function HeredocTokens(content: string): seq<Token> {
    [Token(HEREDOC_START, ChooseMarker(content)), Token(HEREDOC_BODY, content)]
  }

  function ExprTokens(e: Expr): (ts: seq<Token>)
    ensures ts != []
    decreases e, 1
  {
    match e
    case StringLit(s) => [StringToken(s)]
    case NumberLit(n) => [Token(NUMBER, n)]
    case BoolLit(b) => [BoolToken(b)]
    case Ident(n) => [IdentToken(n)]
    case Dot(l, f) => ExprTokens(l) + [Token(DOT, "."), IdentToken(f)]
    case Binary(l, op, r) => ExprTokens(l) + [OpToken(op)] + ExprTokens(r)
    case Not(x) => [Token(KW_NOT, "not")] + ExprTokens(x)
    case Call(f, args) => [IdentToken(f), Token(LPAREN, "(")] + ListTokens(args) + [Token(RPAREN, ")")]
    case ObjectLit(fields) => [Token(LBRACE, "{")] + FieldTokens(fields) + [Token(RBRACE, "}")]
    case Heredoc(content) => HeredocTokens(content)
    case ListLit(elements) => [Token(LBRACKET, "[")] + ListTokens(elements) + [Token(RBRACKET, "]")]
  }

  function ListTokens(es: seq<Expr>): seq<Token>
    decreases es, 0
  {
    if es == [] then []
    else if |es| == 1 then ExprTokens(es[0])
    else ExprTokens(es[0]) + [COMMA_TOKEN] + ListTokens(es[1..])
  }

  function FieldTokens(fs: seq<Field>): seq<Token>
    decreases fs, 0
  {
    if fs == [] then []
    else
      var first := [IdentToken(fs[0].key), Token(COLON, ":")] + ExprTokens(fs[0].value);
      if |fs| == 1 then first else first + [COMMA_TOKEN] + FieldTokens(fs[1..])
  }

  // ---------------------------------------------------------------- lines

  /** The lexer swallows the newline after a closing marker, so such a line has no NEWLINE token. */
  predicate EndsInHeredoc(e: Expr) {
    match e
    case Heredoc(_) => true
    case Binary(_, _, r) => EndsInHeredoc(r)
    case Not(x) => EndsInHeredoc(x)
    case _ => false
  }

  function LineEnd(e: Expr): seq<Token> { if EndsInHeredoc(e) then [] else [NL] }

  function GuardTokens(guard: Option<Expr>): seq<Token> {
    if guard.Some? then [Token(KW_WHEN, "when")] + ExprTokens(guard.value) else []
  }

  function SpacedTokens(es: seq<Expr>): seq<Token> {
    if es == [] then [] else ExprTokens(es[0]) + SpacedTokens(es[1..])
  }

  function ModeTokens(mode: int): seq<Token> {
    if mode > 0 then [Token(NUMBER, "0" + Numeral(mode, 8))] else []
  }

  /** A statement with the newline that ends its line. */
  function StmtTokens(s: Stmt): (ts: seq<Token>)
    ensures ts != []
    decreases s, 1
  {
    match s
    case ArgStmt(args, guard) =>
      [Token(KW_ARG, "arg")] + SpacedTokens(args) + GuardTokens(guard) +
      (if guard.Some? then LineEnd(guard.value) else [NL])
    case FileStmt(path, content, mode, guard) =>
      [Token(KW_FILE, "file")] + ExprTokens(path) + ExprTokens(content) + ModeTokens(mode) + GuardTokens(guard) +
      (if guard.Some? then LineEnd(guard.value) else if mode > 0 then [NL] else LineEnd(content))
    case MkdirStmt(path) => [Token(KW_MKDIR, "mkdir")] + ExprTokens(path) + LineEnd(path)
    case AssignStmt(name, value) =>
      [IdentToken(name), Token(ASSIGN, "=")] + ExprTokens(value) + LineEnd(value)
    case IfStmt(condition, body, otherwise) =>
      [Token(KW_IF, "if")] + ExprTokens(condition) + BlockTokens(body) +
      (if otherwise == [] then [] else [Token(KW_ELSE, "else")] + BlockTokens(otherwise)) + [NL]
    case ForStmt(key, val, iter, body) =>
      [Token(KW_FOR, "for"), IdentToken(key)] + (if val == "" then [] else [COMMA_TOKEN, IdentToken(val)]) +
      [Token(KW_IN, "in")] + ExprTokens(iter) + BlockTokens(body) + [NL]
  }

  function BlockTokens(ss: seq<Stmt>): seq<Token>
    decreases ss, 1
  {
    [Token(LBRACE, "{"), NL] + LinesTokens(ss) + [Token(RBRACE, "}")]
  }

  function LinesTokens(ss: seq<Stmt>): seq<Token>
    decreases ss, 0
  {
    if ss == [] then [] else StmtTokens(ss[0]) + LinesTokens(ss[1..])
  }

  // ---------------------------------------------------------------- declarations

  /** The single token that `QuoteIfNeeded` prints. */
  function NameToken(s: string): Token { if IsBare(s) then IdentToken(s) else StringToken(s) }

  function TypeToken(t: ConfigType): Token
    requires t != Untyped
  {
    match t
    case Boolean => Token(KW_BOOL, "BOOL")
    case Str => Token(KW_STRING, "STRING")
    case Number => Token(KW_NUMBER, "NUMBER")
    case Secret => Token(KW_SECRET, "SECRET")
    case Select => Token(KW_SELECT, "SELECT")
  }

  function ValueToken(v: Value): Token
    requires v != NoValue
  {
    match v
    case StrValue(s) => StringToken(s)
    case BoolValue(b) => BoolToken(b)
    case IntValue(n) => Token(NUMBER, DecimalText(n))
    case FloatValue(lit) => Token(NUMBER, lit)
  }

  function StringTokens(ss: seq<string>): seq<Token> {
    if ss == [] then [] else [StringToken(ss[0])] + StringTokens(ss[1..])
  }

  function QuotedTokens(ss: seq<string>): seq<Token> {
    if ss == [] then []
    else if |ss| == 1 then [StringToken(ss[0])]
    else [StringToken(ss[0]), COMMA_TOKEN] + QuotedTokens(ss[1..])
  }

  function SlugTokens(ss: seq<string>): seq<Token> {
    if ss == [] then []
    else if |ss| == 1 then [IdentToken(ss[0])]
    else [IdentToken(ss[0]), COMMA_TOKEN] + SlugTokens(ss[1..])
  }

  function MountTokens(m: Mount): seq<Token> {
    [IdentToken(m.slug)] +
    if m.mode == "rw" then [Token(LBRACKET, "["), IdentToken("rw"), Token(RBRACKET, "]")] else []
  }

  function MountListTokens(ms: seq<Mount>): seq<Token> {
    if ms == [] then []
    else if |ms| == 1 then MountTokens(ms[0])
    else MountTokens(ms[0]) + [COMMA_TOKEN] + MountListTokens(ms[1..])
  }

  function TargetToken(t: RemoveTarget): Token {
    match t
    case NoTarget => Token(ILLEGAL, "")
    case RemoveEnv => Token(KW_ENV, "ENV")
    case RemoveSkills => Token(KW_SKILLS, "SKILLS")
    case RemoveConfig => Token(KW_CONFIG, "CONFIG")
    case RemoveArg => Token(KW_ARG, "arg")
    case RemoveFile => Token(KW_FILE, "file")
  }

  function PositionToken(position: string): Token { Token(LookupIdent(position), position) }

  /** The pieces a CAPABILITY value lexes into: a control list is split at its commas. */
  function CapabilityTokens(axis: string, value: string): seq<Token> {
    if axis == "control" then ControlTokens(value) else [Token(LookupIdent(value), value)]
  }

  function WordEnd(s: string): (n: nat)
    ensures n <= |s|
  {
    if s == "" || s[0] == ',' then 0 else 1 + WordEnd(s[1..])
  }

  function ControlTokens(s: string): seq<Token>
    decreases |s|
  {
    var n := WordEnd(s);
    var word := Token(LookupIdent(s[..n]), s[..n]);
    if n == |s| then [word] else [word, COMMA_TOKEN] + ControlTokens(s[n + 1..])
  }

  function DeclTokens(d: Decl): seq<Token> {
    match d
    case AgentDecl(command) => [Token(KW_AGENT, "AGENT"), NameToken(command), NL]
    case ExecutableDecl(name) => [Token(KW_EXECUTABLE, "EXECUTABLE"), NameToken(name), NL]
    case ConfigDecl(name, typ, options, default) =>
      [Token(KW_CONFIG, "CONFIG"), IdentToken(name)] +
      (if typ == Untyped then [] else [TypeToken(typ)]) +
      (if typ == Select && options != []
       then [Token(LPAREN, "(")] + QuotedTokens(options) + [Token(RPAREN, ")")] else []) +
      (if default == NoValue then [] else [Token(ASSIGN, "="), ValueToken(default)]) + [NL]
    case EnvDecl(name, source, value, valueExpr, guard, optional) =>
      [Token(KW_ENV, "ENV"), IdentToken(name)] +
      if source != Fixed then
        [if source == SecretSource then Token(KW_SECRET, "SECRET") else Token(KW_TEXT, "TEXT")] +
        (if optional then [Token(KW_OPTIONAL, "OPTIONAL")] else []) + [NL]
      else if valueExpr.Some? then
        [Token(ASSIGN, "=")] + ExprTokens(valueExpr.value) + GuardTokens(guard) +
        (if guard.Some? then LineEnd(guard.value) else LineEnd(valueExpr.value))
      else [Token(ASSIGN, "="), StringToken(value), NL]
    case RepoDecl(repo) => [Token(KW_REPO, "REPO")] + ExprTokens(repo) + LineEnd(repo)
    case BranchDecl(branch) => [Token(KW_BRANCH, "BRANCH")] + ExprTokens(branch) + LineEnd(branch)
    case GitCredentialDecl(credential) => [Token(KW_GIT_CREDENTIAL, "GIT_CREDENTIAL"), IdentToken(credential), NL]
    case McpDecl(enabled, format) =>
      [Token(KW_MCP, "MCP"), if enabled then Token(KW_ON, "ON") else Token(KW_OFF, "OFF")] +
      (if enabled && format != "" then [IdentToken("FORMAT"), IdentToken(format)] else []) + [NL]
    case SkillsDecl(slugs) => [Token(KW_SKILLS, "SKILLS")] + SlugTokens(slugs) + [NL]
    case SetupDecl(script, timeout) =>
      [Token(KW_SETUP, "SETUP")] +
      (if timeout == 300 then []
       else [IdentToken("timeout"), Token(ASSIGN, "="), Token(NUMBER, DecimalText(timeout))]) +
      HeredocTokens(script)
    case RemoveDecl(target, name) => [Token(KW_REMOVE, "REMOVE"), TargetToken(target), StringToken(name), NL]
    case ModeDecl(mode) => [Token(KW_MODE, "MODE"), IdentToken(mode), NL]
    case ModeArgsDecl(mode, args) => [Token(KW_MODE, "MODE"), IdentToken(mode)] + StringTokens(args) + [NL]
    case UseEnvBundleDecl(name) => [Token(KW_USE_ENV_BUNDLE, "USE_ENV_BUNDLE"), NameToken(name), NL]
    case UseConfigBundleDecl(name) => [Token(KW_USE_CONFIG_BUNDLE, "USE_CONFIG_BUNDLE"), NameToken(name), NL]
    case PromptDecl(prompt) => [Token(KW_PROMPT, "PROMPT"), StringToken(prompt), NL]
    case PromptPositionDecl(position) => [Token(KW_PROMPT_POSITION, "PROMPT_POSITION"), PositionToken(position), NL]
    case CapabilityDecl(axis, capability) =>
      [Token(KW_CAPABILITY, "CAPABILITY"), IdentToken(axis)] + CapabilityTokens(axis, capability) + [NL]
    case KnowledgeDecl(mounts) => [Token(KW_KNOWLEDGE, "KNOWLEDGE")] + MountListTokens(mounts) + [NL]
  }
}
