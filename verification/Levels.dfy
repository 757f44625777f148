/** The shape of the trees that print without parentheses and parse back. */
module Levels {
  import opened Text
  import opened Ast
  import opened ParseSpec

  function Level(e: Expr): nat {
    match e
    case Binary(_, op, _) => LevelOf(op)
    case Not(_) => UNARY
    case _ => PRIMARY
  }

  /** Operands bind tighter than their operator, to the left alike; dots follow names only. */
  predicate Respects(e: Expr) {
    match e
    case Dot(l, _) => (l.Ident? || l.Dot?) && Respects(l)
    case Binary(l, op, r) => Level(l) >= LevelOf(op) && Level(r) > LevelOf(op) && Respects(l) && Respects(r)
    case Not(x) => Level(x) >= UNARY && Respects(x)
    case Call(_, args) => forall a | a in args :: Respects(a)
    case ObjectLit(fields) => forall f | f in fields :: Respects(f.value)
    case ListLit(elements) => forall a | a in elements :: Respects(a)
    case _ => true
  }

  predicate GuardRespects(guard: Option<Expr>) { guard.Some? ==> Respects(guard.value) }

  predicate StmtRespects(s: Stmt) {
    match s
    case ArgStmt(args, guard) => (forall a | a in args :: Respects(a)) && GuardRespects(guard)
    case FileStmt(path, content, _, guard) => Respects(path) && Respects(content) && GuardRespects(guard)
    case MkdirStmt(path) => Respects(path)
    case AssignStmt(_, value) => Respects(value)
    case IfStmt(condition, body, otherwise) =>
      && Respects(condition)
      && (forall t | t in body :: StmtRespects(t))
      && (forall t | t in otherwise :: StmtRespects(t))
    case ForStmt(_, _, iter, body) => Respects(iter) && forall t | t in body :: StmtRespects(t)
  }

  predicate DeclRespects(d: Decl) {
    match d
    case EnvDecl(_, _, _, valueExpr, guard, _) => GuardRespects(valueExpr) && GuardRespects(guard)
    case RepoDecl(repo) => Respects(repo)
    case BranchDecl(branch) => Respects(branch)
    case _ => true
  }

  predicate ProgramRespects(p: Program) {
    (forall d | d in p.declarations :: DeclRespects(d)) && (forall s | s in p.statements :: StmtRespects(s))
  }
}
