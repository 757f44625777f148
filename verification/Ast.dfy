/** The AgentFile syntax tree, without source positions. */
module Ast {
  import opened Text

  datatype BinOp = Or | And | Eq | Neq | Plus

  datatype Expr =
    | StringLit(str: string)
    | NumberLit(num: string)
    | BoolLit(b: bool)
    | Ident(name: string)
    | Dot(left: Expr, field: string)
    | Binary(lhs: Expr, op: BinOp, rhs: Expr)
    | Not(operand: Expr)
    | Call(func: string, args: seq<Expr>)
    | ObjectLit(fields: seq<Field>)
    | Heredoc(content: string)
    | ListLit(elements: seq<Expr>)

  datatype Field = Field(key: string, value: Expr)

  datatype Stmt =
    | ArgStmt(args: seq<Expr>, guard: Option<Expr>)
    | FileStmt(path: Expr, content: Expr, mode: int, guard: Option<Expr>)
    | MkdirStmt(path: Expr)
    | AssignStmt(name: string, value: Expr)
    | IfStmt(condition: Expr, body: seq<Stmt>, otherwise: seq<Stmt>)
    | ForStmt(key: string, val: string, iter: Expr, body: seq<Stmt>)

  datatype ConfigType = Untyped | Boolean | Str | Number | Secret | Select

  /** A CONFIG default. A NUMBER that is not a plain integer is kept as its literal. */
  datatype Value = NoValue | StrValue(s: string) | BoolValue(v: bool) | IntValue(n: int) | FloatValue(lit: string)

  datatype EnvSource = Fixed | SecretSource | TextSource

  datatype RemoveTarget = NoTarget | RemoveEnv | RemoveSkills | RemoveConfig | RemoveArg | RemoveFile

  datatype Mount = Mount(slug: string, mode: string)

  datatype Decl =
    | AgentDecl(command: string)
    | ExecutableDecl(name: string)
    | ConfigDecl(name: string, typ: ConfigType, options: seq<string>, default: Value)
    | EnvDecl(name: string, source: EnvSource, value: string, valueExpr: Option<Expr>, guard: Option<Expr>, optional: bool)
    | RepoDecl(repo: Expr)
    | BranchDecl(branch: Expr)
    | GitCredentialDecl(credential: string)
    | McpDecl(enabled: bool, format: string)
    | SkillsDecl(slugs: seq<string>)
    | SetupDecl(script: string, timeout: int)
    | RemoveDecl(target: RemoveTarget, name: string)
    | ModeDecl(mode: string)
    | ModeArgsDecl(mode: string, args: seq<string>)
    | UseEnvBundleDecl(name: string)
    | UseConfigBundleDecl(name: string)
    | PromptDecl(prompt: string)
    | PromptPositionDecl(position: string)
    | CapabilityDecl(axis: string, capability: string)
    | KnowledgeDecl(mounts: seq<Mount>)

  datatype Program = Program(declarations: seq<Decl>, statements: seq<Stmt>)
}
