/** The text the AgentFile serializer produces for each part of a syntax tree. */
module PrintSpec {
  import opened Text
  import opened Ast

  // ---------------------------------------------------------------- strings and names

  function EscapeChar(c: char): string {
    match c
    case '"' => "\\\""
    case '\\' => "\\\\"
    case '\n' => "\\n"
    case '\t' => "\\t"
    case _ => [c]
  }

  function Escape(s: string): string {
    if s == "" then "" else EscapeChar(s[0]) + Escape(s[1..])
  }

  function QuoteString(s: string): string { "\"" + Escape(s) + "\"" }

  predicate IsIdentChar(c: char) {
    'a' <= c <= 'z' || 'A' <= c <= 'Z' || '0' <= c <= '9' || c == '_'
  }

  predicate IsBare(s: string) { s != "" && forall i :: 0 <= i < |s| ==> IsIdentChar(s[i]) }

  function QuoteIfNeeded(s: string): string { if IsBare(s) then s else QuoteString(s) }

  /** The characters outside ASCII that `unicode.IsPrint` accepts. Left open. */
  const NON_ASCII_PRINTABLE: set<char>

  predicate IsPrint(c: char) {
    ' ' <= c <= '~' || (c as int > 0x7F && c in NON_ASCII_PRINTABLE)
  }

  function Hex(n: nat, width: nat): (s: string)
    ensures |s| == width
  {
    if width == 0 then "" else Hex(n / 16, width - 1) + [HexDigit(n % 16)]
  }

  function HexDigit(d: nat): char
    requires d < 16
  {
    if d < 10 then Digit(d) else (d - 10 + 'a' as int) as char
  }

  /** The escapes of Go's `%q` verb. */
  function GoQuoteChar(c: char): string {
    if c == '"' then "\\\""
    else if c == '\\' then "\\\\"
    else if IsPrint(c) then [c]
    else if c == '\U{07}' then "\\a"
    else if c == '\U{08}' then "\\b"
    else if c == '\U{0C}' then "\\f"
    else if c == '\n' then "\\n"
    else if c == '\r' then "\\r"
    else if c == '\t' then "\\t"
    else if c == '\U{0B}' then "\\v"
    else if c < ' ' || c == '\U{7F}' then "\\x" + Hex(c as int, 2)
    else if c as int < 0x10000 then "\\u" + Hex(c as int, 4)
    else "\\U" + Hex(c as int, 8)
  }

  function GoEscape(s: string): string {
    if s == "" then "" else GoQuoteChar(s[0]) + GoEscape(s[1..])
  }

  function GoQuote(s: string): string { "\"" + GoEscape(s) + "\"" }

  // ---------------------------------------------------------------- heredoc markers

  const CANDIDATES := ["EOF", "HEREDOC", "END", "SCRIPT", "DOC"]

  predicate IsMarker(m: string) {
    m != "" && forall i :: 0 <= i < |m| ==> 'A' <= m[i] <= 'Z' || IsDigit(m[i])
  }

  function NumberedMarker(i: nat): (m: string)
    ensures IsMarker(m)
  {
    "EOF" + Numeral(i, 10)
  }

  /** A text of n characters cannot contain a marker that ends in the number ten to the n. */
  lemma NumberedMarkersRunOut(content: string)
    ensures !Contains(content, NumberedMarker(Pow10(|content|)))
  {
    if Contains(content, NumberedMarker(Pow10(|content|))) {
      ContainsFits(content, NumberedMarker(Pow10(|content|)));
      NumeralOfPow10IsLong(|content|);
    }
  }

  function FirstNumberedMarker(content: string, i: nat): (m: string)
    requires i <= Pow10(|content|)
    ensures IsMarker(m) && !Contains(content, m)
    decreases Pow10(|content|) - i
  {
    NumberedMarkersRunOut(content);
    if !Contains(content, NumberedMarker(i)) then NumberedMarker(i) else FirstNumberedMarker(content, i + 1)
  }

  function FirstAbsent(content: string, candidates: seq<string>): (m: string)
    requires forall i :: 0 <= i < |candidates| ==> IsMarker(candidates[i])
    ensures IsMarker(m) && !Contains(content, m)
  {
    if candidates == [] then FirstNumberedMarker(content, 0)
    else if !Contains(content, candidates[0]) then candidates[0]
    else FirstAbsent(content, candidates[1..])
  }

  /** The marker of a heredoc: whatever the content, one that does not occur in it. */
  function ChooseMarker(content: string): (m: string)
    ensures IsMarker(m) && !Contains(content, m)
  {
    FirstAbsent(content, CANDIDATES)
  }

  /** The candidates are tried in order, and numbers only when every one of them occurs in the content. */
  lemma MarkerIsFirst(content: string, i: nat)
    requires i < |CANDIDATES| && !Contains(content, CANDIDATES[i]) && forall j :: 0 <= j < i ==> Contains(content, CANDIDATES[j])
    ensures ChooseMarker(content) == ["EOF", "HEREDOC", "END", "SCRIPT", "DOC"][i]
  {
    FirstIs(content, CANDIDATES, i);
    hide FirstAbsent;
  }

  lemma {:induction false} FirstIs(content: string, candidates: seq<string>, i: nat)
    requires i < |candidates| && !Contains(content, candidates[i]) && forall j :: 0 <= j < i ==> Contains(content, candidates[j])
    requires forall j :: 0 <= j < |candidates| ==> IsMarker(candidates[j])
    ensures FirstAbsent(content, candidates) == candidates[i]
  {
    hide Contains, IsMarker;
    if i > 0 { FirstIs(content, candidates[1..], i - 1); }
  }

  function HeredocText(content: string): string {
    "<<" + ChooseMarker(content) + "\n" + content + "\n" + ChooseMarker(content)
  }

  // ---------------------------------------------------------------- expressions

  function OpText(op: BinOp): string {
    match op
    case Or => "or"
    case And => "and"
    case Eq => "=="
    case Neq => "!="
    case Plus => "+"
  }

  function ExprText(e: Expr): string
    decreases e, 1
  {
    match e
    case StringLit(s) => QuoteString(s)
    case NumberLit(n) => n
    case BoolLit(b) => if b then "true" else "false"
    case Ident(n) => n
    case Dot(l, f) => ExprText(l) + "." + f
    case Binary(l, op, r) => ExprText(l) + " " + OpText(op) + " " + ExprText(r)
    case Not(x) => "not " + ExprText(x)
    case Call(f, args) => f + "(" + ListText(args) + ")"
    case ObjectLit(fields) => if fields == [] then "{}" else "{ " + FieldsText(fields) + " }"
    case Heredoc(content) => HeredocText(content)
    case ListLit(elements) => "[" + ListText(elements) + "]"
  }

  function ListText(es: seq<Expr>): string
    decreases es, 0
  {
    if es == [] then ""
    else if |es| == 1 then ExprText(es[0])
    else ExprText(es[0]) + ", " + ListText(es[1..])
  }

  function FieldsText(fs: seq<Field>): string
    decreases fs, 0
  {
    if fs == [] then ""
    else
      var first := fs[0].key + ": " + ExprText(fs[0].value);
      if |fs| == 1 then first else first + ", " + FieldsText(fs[1..])
  }

  // ---------------------------------------------------------------- statements

  function Tabs(n: nat): string { if n == 0 then "" else "\t" + Tabs(n - 1) }

  /** A level of indentation is one tab. */
  lemma {:induction false} TabsExactly(n: nat)
    ensures |Tabs(n)| == n && forall c | c in Tabs(n) :: c == '\t'
  {
    if n > 0 { TabsExactly(n - 1); }
  }

  function WhenText(guard: Option<Expr>): string {
    if guard.Some? then " when " + ExprText(guard.value) else ""
  }

  function SpacedText(es: seq<Expr>): string {
    if es == [] then "" else " " + ExprText(es[0]) + SpacedText(es[1..])
  }

  /** Octal, the way `%o` prints a Go int. */
  function ModeText(mode: int): string {
    if mode == 0 then "" else if mode > 0 then " 0" + Numeral(mode, 8) else " 0-" + Numeral(-mode, 8)
  }

  function StmtText(s: Stmt, indent: nat): string
    decreases s, 2
  {
    Tabs(indent) + LineText(s, indent)
  }

  function LineText(s: Stmt, indent: nat): string
    decreases s, 1
  {
    match s
    case ArgStmt(args, guard) => "arg" + SpacedText(args) + WhenText(guard)
    case FileStmt(path, content, mode, guard) =>
      "file " + ExprText(path) + " " + ExprText(content) + ModeText(mode) + WhenText(guard)
    case MkdirStmt(path) => "mkdir " + ExprText(path)
    case AssignStmt(name, value) => name + " = " + ExprText(value)
    case IfStmt(condition, body, otherwise) =>
      "if " + ExprText(condition) + BlockText(body, indent) +
      (if otherwise == [] then "" else " else" + BlockText(otherwise, indent))
    case ForStmt(key, val, iter, body) =>
      "for " + key + (if val == "" then "" else ", " + val) + " in " + ExprText(iter) +
      BlockText(body, indent)
  }

  function BlockText(ss: seq<Stmt>, indent: nat): string
    decreases ss, 1
  {
    " {\n" + LinesText(ss, indent + 1) + Tabs(indent) + "}"
  }

  function LinesText(ss: seq<Stmt>, indent: nat): string
    decreases ss, 0
  {
    if ss == [] then "" else StmtText(ss[0], indent) + "\n" + LinesText(ss[1..], indent)
  }

  // ---------------------------------------------------------------- declarations

  function TypeText(t: ConfigType): string {
    match t
    case Untyped => ""
    case Boolean => "BOOL"
    case Str => "STRING"
    case Number => "NUMBER"
    case Secret => "SECRET"
    case Select => "SELECT"
  }

  function DecimalText(n: int): string { if n < 0 then "-" + Numeral(-n, 10) else Numeral(n, 10) }

  function ValueText(v: Value): string {
    match v
    case NoValue => ""
    case StrValue(s) => QuoteString(s)
    case BoolValue(b) => if b then "true" else "false"
    case IntValue(n) => DecimalText(n)
    case FloatValue(lit) => lit
  }

  function QuotedList(ss: seq<string>): string {
    if ss == [] then "" else if |ss| == 1 then QuoteString(ss[0]) else QuoteString(ss[0]) + ", " + QuotedList(ss[1..])
  }

  function SlugList(ss: seq<string>): string {
    if ss == [] then "" else if |ss| == 1 then ss[0] else ss[0] + ", " + SlugList(ss[1..])
  }

  function QuotedArgs(ss: seq<string>): string {
    if ss == [] then "" else " " + QuoteString(ss[0]) + QuotedArgs(ss[1..])
  }

  function MountText(m: Mount): string { m.slug + (if m.mode == "rw" then " [rw]" else "") }

  function MountList(ms: seq<Mount>): string {
    if ms == [] then "" else if |ms| == 1 then MountText(ms[0]) else MountText(ms[0]) + ", " + MountList(ms[1..])
  }

  function TargetText(t: RemoveTarget): string {
    match t
    case NoTarget => ""
    case RemoveEnv => "ENV"
    case RemoveSkills => "SKILLS"
    case RemoveConfig => "CONFIG"
    case RemoveArg => "arg"
    case RemoveFile => "file"
  }

  function ConfigText(name: string, typ: ConfigType, options: seq<string>, default: Value): string {
    "CONFIG " + name +
    (if typ == Untyped then "" else " " + TypeText(typ)) +
    (if typ == Select && options != [] then "(" + QuotedList(options) + ")" else "") +
    (if default == NoValue then "" else " = " + ValueText(default))
  }

  function EnvText(name: string, source: EnvSource, value: string, valueExpr: Option<Expr>,
                   guard: Option<Expr>, optional: bool): string
  {
    "ENV " + name +
    if source != Fixed then
      (if source == SecretSource then " SECRET" else " TEXT") + (if optional then " OPTIONAL" else "")
    else if valueExpr.Some? then " = " + ExprText(valueExpr.value) + WhenText(guard)
    else " = " + QuoteString(value)
  }

  function DeclText(d: Decl): string {
    match d
    case AgentDecl(command) => "AGENT " + QuoteIfNeeded(command)
    case ExecutableDecl(name) => "EXECUTABLE " + QuoteIfNeeded(name)
    case ConfigDecl(name, typ, options, default) => ConfigText(name, typ, options, default)
    case EnvDecl(name, source, value, valueExpr, guard, optional) =>
      EnvText(name, source, value, valueExpr, guard, optional)
    case RepoDecl(repo) => "REPO " + ExprText(repo)
    case BranchDecl(branch) => "BRANCH " + ExprText(branch)
    case GitCredentialDecl(credential) => "GIT_CREDENTIAL " + credential
    case McpDecl(enabled, format) =>
      if enabled then "MCP ON" + (if format == "" then "" else " FORMAT " + format) else "MCP OFF"
    case SkillsDecl(slugs) => "SKILLS " + SlugList(slugs)
    case SetupDecl(script, timeout) =>
      "SETUP" + (if timeout == 300 then "" else " timeout=" + DecimalText(timeout)) + " " + HeredocText(script)
    case RemoveDecl(target, name) => "REMOVE " + TargetText(target) + " " + QuoteString(name)
    case ModeDecl(mode) => "MODE " + mode
    case ModeArgsDecl(mode, args) => "MODE " + mode + QuotedArgs(args)
    case UseEnvBundleDecl(name) => "USE_ENV_BUNDLE " + QuoteIfNeeded(name)
    case UseConfigBundleDecl(name) => "USE_CONFIG_BUNDLE " + QuoteIfNeeded(name)
    case PromptDecl(prompt) => "PROMPT " + GoQuote(prompt)
    case PromptPositionDecl(position) => "PROMPT_POSITION " + position
    case CapabilityDecl(axis, capability) => "CAPABILITY " + axis + " " + capability
    case KnowledgeDecl(mounts) => "KNOWLEDGE " + MountList(mounts)
  }

  function DeclLines(ds: seq<Decl>): string {
    if ds == [] then "" else DeclText(ds[0]) + "\n" + DeclLines(ds[1..])
  }

  /** Every declaration, then every statement, each ended by a newline. */
  function ProgramText(p: Program): string {
    DeclLines(p.declarations) + LinesText(p.statements, 0)
  }
}
