/** Normal-form closure for declarations and whole programs, and what follows from it for the round trip. */
module CloseDecls {
  import opened Text
  import opened Tokens
  import opened Ast
  import opened PrintTokens
  import opened ParseSpec
  import opened LexWords
  import opened LexPrinted
  import opened LexLines
  import opened LexDecls
  import opened Levels
  import opened Closure
  import opened CloseStmts

  /**
   * What the text of a parsed declaration can still lose: a quoted name that is printed bare but is no
   * name, a SELECT without options, a fractional default, and text that `%q` escapes.
   */
  predicate Restorable(d: Decl) {
    match d
    case AgentDecl(command) => PrintableName(command)
    case ExecutableDecl(name) => PrintableName(name)
    case UseEnvBundleDecl(name) => PrintableName(name)
    case UseConfigBundleDecl(name) => PrintableName(name)
    case ConfigDecl(_, typ, options, default) => (typ == Select ==> options != []) && !default.FloatValue?
    case GitCredentialDecl(credential) => IsName(credential)
    case McpDecl(_, format) => format == "" || IsName(format)
    case SkillsDecl(slugs) => forall x | x in slugs :: IsName(x)
    case KnowledgeDecl(mounts) => forall m | m in mounts :: IsName(m.slug)
    case PromptDecl(prompt) => PrintableText(prompt)
    case CapabilityDecl(axis, capability) => PrintableCapability(axis, capability)
    case _ => true
  }

  ghost predicate DeclGood(plain: bool, d: Decl) {
    DeclRespects(d) && (plain && Restorable(d) ==> PrintableDecl(d))
  }

  ghost predicate DeclsGood(plain: bool, ds: seq<Decl>) { forall d | d in ds :: DeclGood(plain, d) }

  ghost predicate DeclCloses(plain: bool, r: Parsed<Decl>) { DeclGood(plain, r.val) && Clean(plain, r.next) }

  // ---------------------------------------------------------------- single names

  lemma NameClean(plain: bool, s: State)
    requires Clean(plain, s) && Quiet(s, ExpectIdentOrString(s).next)
    ensures Clean(plain, ExpectIdentOrString(s).next)
  {
    CleanAdvance(plain, s);
    hide Clean;
  }

  lemma NamedClean(plain: bool, s: State)
    requires Clean(plain, s) && Kind(s) != KW_SETUP && Quiet(s, ParseNamed(s).next)
    ensures Clean(plain, ParseNamed(s).next)
  {
    hide Clean, ExpectNewline, ExpectIdentOrString;
    CleanAdvance(plain, s);
    NameClean(plain, Advance(s));
    ExpectNewlineClean(plain, ExpectIdentOrString(Advance(s)).next);
  }

  lemma ExprLineCloses(plain: bool, s: State)
    requires Clean(plain, s) && (Kind(s) == KW_REPO || Kind(s) == KW_BRANCH) && Quiet(s, ParseExprLine(s).next)
    ensures var r := ParseExprLine(s);
      Clean(plain, r.next) && DeclGood(plain, RepoDecl(r.val)) && DeclGood(plain, BranchDecl(r.val))
  {
    hide Clean, ExpectNewline, ParseExpr, Respects, Printable;
    CleanAdvance(plain, s);
    ExprCloses(plain, Advance(s));
    GoodAtEnd(plain, ParseExpr(Advance(s)).val);
    ExpectNewlineClean(plain, ParseExpr(Advance(s)).next);
  }

  // ---------------------------------------------------------------- CONFIG and ENV

  lemma StringClean(plain: bool, s: State)
    requires Clean(plain, s) && Quiet(s, ExpectString(s).next)
    ensures Clean(plain, ExpectString(s).next) && Kind(ExpectString(s).next) != LPAREN
  {
    CleanAdvance(plain, s);
    hide Clean;
  }

  lemma {:induction false} OptionsClean(plain: bool, options: seq<string>, s: State)
    requires Clean(plain, s) && Quiet(s, ParseOptions(options, s).next)
    ensures Clean(plain, ParseOptions(options, s).next)
    decreases |s.rest|
  {
    hide Clean, ExpectString;
    if Kind(s) != RPAREN && !AtEnd(s) {
      var r := ExpectString(s);
      StringClean(plain, s);
      CommaFits(plain, r.next);
      OptionsClean(plain, options + [r.val], SkipComma(r.next));
    }
  }

  lemma ConfigTypeCases(s: State)
    ensures Kind(s) == KW_SELECT ==>
      var r := ParseSelectOptions(Advance(s)); ParseConfigType(s) == Parsed((Select, r.val), r.next)
    ensures Kind(s) != KW_SELECT && ParseConfigType(s).next.errors == s.errors ==>
      var r := ParseConfigType(s);
      r.val.0 != Select && r.val.1 == [] && (r.val.0 == Untyped ==> r.next == s && Kind(s) == ASSIGN) &&
      (r.val.0 != Untyped ==> r.next == Advance(s))
    ensures Kind(s) in {IDENT, KW_SETUP} ==> |ParseConfigType(s).next.errors| > |s.errors|
    ensures Kind(s) != KW_SELECT && |ParseConfigType(s).next.errors| == |s.errors| ==> ParseConfigType(s).next.errors == s.errors
  {
    hide ParseSelectOptions;
  }

  lemma ConfigTypeClean(plain: bool, s: State)
    requires Clean(plain, s) && Quiet(s, ParseConfigType(s).next)
    ensures var r := ParseConfigType(s);
      && Clean(plain, r.next)
      && (r.val.0 != Select ==> r.val.1 == [])
      && (r.val.0 == Untyped ==> Kind(r.next) == ASSIGN)
  {
    hide Clean, ParseSelectOptions, IsName, IsNumberText, ParseConfigType;
    CleanAdvance(plain, s);
    ConfigTypeCases(s);
    if Kind(s) == KW_SELECT { SelectOptionsClean(plain, Advance(s)); }
  }

  lemma SelectOptionsClean(plain: bool, t: State)
    requires Clean(plain, t) && Quiet(t, ParseSelectOptions(t).next)
    ensures Clean(plain, ParseSelectOptions(t).next)
  {
    hide Clean, ParseOptions, Expect;
    ExpectFits(plain, t, LPAREN);
    OptionsClean(plain, [], Expect(t, LPAREN));
    ExpectFits(plain, ParseOptions([], Expect(t, LPAREN)).next, RPAREN);
  }

  lemma LiteralValueClean(plain: bool, s: State)
    requires Clean(plain, s) && Quiet(s, ParseLiteralValue(s).next)
    ensures var r := ParseLiteralValue(s);
      Clean(plain, r.next) && r.val != NoValue && (r.val.IntValue? ==> 0 <= r.val.n <= MAX_EXACT)
  {
    CleanAdvance(plain, s);
    hide Clean, IsNumberText, IsName;
  }

  lemma ConfigCloses(plain: bool, s: State)
    requires Clean(plain, s) && Kind(s) == KW_CONFIG && Quiet(s, ParseConfigDecl(s).next)
    ensures DeclCloses(plain, ParseConfigDecl(s))
  {
    hide Clean, ExpectIdent, ParseConfigType, ParseLiteralValue, ExpectNewline, IsName;
    CleanAdvance(plain, s);
    var name := ExpectIdent(Advance(s));
    IdentClean(plain, Advance(s));
    var typ := ParseConfigType(name.next);
    ConfigTypeClean(plain, name.next);
    CleanAdvance(plain, typ.next);
    var default := if Kind(typ.next) == ASSIGN then ParseLiteralValue(Advance(typ.next)) else Parsed(NoValue, typ.next);
    if Kind(typ.next) == ASSIGN { LiteralValueClean(plain, Advance(typ.next)); }
    ExpectNewlineClean(plain, default.next);
  }

  lemma OptionalClean(plain: bool, s: State)
    requires Clean(plain, s)
    ensures Clean(plain, SkipOptional(s).next)
  {
    CleanAdvance(plain, s);
    hide Clean;
  }

  lemma EnvExprGood(plain: bool, name: string, e: Expr, guard: Option<Expr>)
    requires Good(plain, e) && GuardGood(plain, guard) && (plain ==> IsName(name)) && !(e.StringLit? && guard.None?)
    ensures DeclGood(plain, EnvDecl(name, Fixed, "", Some(e), guard, false))
  {
    hide Respects, Printable, IsName;
    GoodAtEnd(plain, e);
    GuardGoodAtEnd(plain, guard);
  }

  lemma EnvValueCloses(plain: bool, name: string, s: State)
    requires Fits(plain, s) && Quiet(s, ParseEnvValue(name, s).next) && (plain ==> IsName(name))
    ensures DeclCloses(plain, ParseEnvValue(name, s))
  {
    hide Clean, ParseExpr, Good, GuardGood, IsName, DeclGood;
    var e := ParseExpr(s);
    ExprCloses(plain, s);
    GuardCloses(plain, e.next);
    var guard := ParseGuard(e.next);
    if e.val.StringLit? && Kind(e.next) != KW_WHEN {
      EnvTextGood(plain, name, e.val.str);
    } else {
      EnvExprGood(plain, name, e.val, guard.val);
    }
  }

  lemma EnvTextGood(plain: bool, name: string, value: string)
    requires plain ==> IsName(name)
    ensures DeclGood(plain, EnvDecl(name, Fixed, value, None, None, false))
  {
    hide IsName;
  }

  lemma EnvSourceGood(plain: bool, name: string, source: EnvSource, optional: bool)
    requires (plain ==> IsName(name)) && source != Fixed
    ensures DeclGood(plain, EnvDecl(name, source, "", None, None, optional))
  {
    hide IsName;
  }

  lemma EnvCloses(plain: bool, s: State)
    requires Clean(plain, s) && Kind(s) == KW_ENV && Quiet(s, ParseEnvDecl(s).next)
    ensures DeclCloses(plain, ParseEnvDecl(s))
  {
    hide Clean, ExpectIdent, SkipOptional, ParseEnvValue, ExpectNewline, IsName, DeclGood;
    CleanAdvance(plain, s);
    var name := ExpectIdent(Advance(s));
    var t := name.next;
    IdentClean(plain, Advance(s));
    CleanAdvance(plain, t);
    match Kind(t)
    case KW_SECRET =>
      OptionalClean(plain, Advance(t));
      EnvSourceGood(plain, name.val, SecretSource, SkipOptional(Advance(t)).val);
      ExpectNewlineClean(plain, SkipOptional(Advance(t)).next);
    case KW_TEXT =>
      OptionalClean(plain, Advance(t));
      EnvSourceGood(plain, name.val, TextSource, SkipOptional(Advance(t)).val);
      ExpectNewlineClean(plain, SkipOptional(Advance(t)).next);
    case ASSIGN =>
      EnvValueCloses(plain, name.val, Advance(t));
      ExpectNewlineClean(plain, ParseEnvValue(name.val, Advance(t)).next);
    case _ =>
  }

  // ---------------------------------------------------------------- lists

  lemma SkipCommaClean(plain: bool, s: State)
    requires Clean(plain, s)
    ensures Clean(plain, SkipComma(s))
  {
    CleanAdvance(plain, s);
    hide Clean;
  }

  lemma {:induction false} SlugsClean(plain: bool, slugs: seq<string>, s: State)
    requires Clean(plain, s) && Quiet(s, ParseSlugs(slugs, s).next)
    ensures Clean(plain, ParseSlugs(slugs, s).next)
    decreases |s.rest|
  {
    hide Clean, ExpectIdentOrString;
    if !IsNewlineOrEnd(s) {
      var r := ExpectIdentOrString(s);
      NameClean(plain, s);
      SkipCommaClean(plain, r.next);
      SlugsClean(plain, slugs + [r.val], SkipComma(r.next));
    }
  }

  lemma MountModeClean(plain: bool, s: State)
    requires Clean(plain, s) && Quiet(s, ParseMountMode(s).next)
    ensures var r := ParseMountMode(s); Clean(plain, r.next) && (r.val == "ro" || r.val == "rw")
  {
    hide Clean, ExpectIdentOrString, Expect;
    CleanAdvance(plain, s);
    if Kind(s) == LBRACKET {
      var mode := ExpectIdentOrString(Advance(s));
      NameClean(plain, Advance(s));
      ExpectFits(plain, mode.next, RBRACKET);
    }
  }

  ghost predicate ModesOk(mounts: seq<Mount>) { forall m | m in mounts :: m.mode == "ro" || m.mode == "rw" }

  lemma {:induction false} MountsClean(plain: bool, mounts: seq<Mount>, s: State)
    requires Clean(plain, s) && Quiet(s, ParseMounts(mounts, s).next) && ModesOk(mounts)
    ensures Clean(plain, ParseMounts(mounts, s).next) && ModesOk(ParseMounts(mounts, s).val)
    decreases |s.rest|
  {
    hide Clean, ExpectIdentOrString, ParseMountMode;
    if !IsNewlineOrEnd(s) {
      var slug := ExpectIdentOrString(s);
      NameClean(plain, s);
      var mode := ParseMountMode(slug.next);
      MountModeClean(plain, slug.next);
      SkipCommaClean(plain, mode.next);
      MountsClean(plain, mounts + [Mount(slug.val, mode.val)], SkipComma(mode.next));
    }
  }

  lemma SkillsCloses(plain: bool, s: State)
    requires Clean(plain, s) && Kind(s) == KW_SKILLS && Quiet(s, TryDeclaration(s).value.next)
    ensures DeclCloses(plain, TryDeclaration(s).value)
  {
    hide Clean, ParseSlugs, ExpectNewline, IsName;
    CleanAdvance(plain, s);
    SlugsClean(plain, [], Advance(s));
    ExpectNewlineClean(plain, ParseSlugs([], Advance(s)).next);
  }

  lemma KnowledgeCloses(plain: bool, s: State)
    requires Clean(plain, s) && Kind(s) == KW_KNOWLEDGE && Quiet(s, TryDeclaration(s).value.next)
    ensures DeclCloses(plain, TryDeclaration(s).value)
  {
    hide Clean, ParseMounts, ExpectNewline, IsName;
    CleanAdvance(plain, s);
    MountsClean(plain, [], Advance(s));
    ExpectNewlineClean(plain, ParseMounts([], Advance(s)).next);
  }

  lemma {:induction false} StringsClean(plain: bool, strings: seq<string>, s: State)
    requires Clean(plain, s)
    ensures Clean(plain, ParseStrings(strings, s).next) && |ParseStrings(strings, s).val| >= |strings|
    decreases |s.rest|
  {
    hide Clean;
    CleanAdvance(plain, s);
    if Kind(s) == STRING { StringsClean(plain, strings + [Current(s).literal], Advance(s)); }
  }

  lemma {:induction false} PiecesClean(plain: bool, pieces: seq<string>, s: State)
    requires Clean(plain, s) && Quiet(s, ParsePieces(pieces, s).next)
    ensures Clean(plain, ParsePieces(pieces, s).next)
    decreases |s.rest|
  {
    hide Clean;
    CleanAdvance(plain, s);
    if !IsNewlineOrEnd(s) {
      if IsCapabilityPiece(Kind(s)) {
        PiecesClean(plain, pieces + [Current(s).literal], Advance(s));
      } else if Kind(s) == COMMA {
        PiecesClean(plain, pieces + [","], Advance(s));
      }
    }
  }

  // ---------------------------------------------------------------- MCP, SETUP, REMOVE, MODE, PROMPT, CAPABILITY

  lemma McpGood(plain: bool, enabled: bool, format: string)
    requires format == "" || enabled
    ensures DeclGood(plain, McpDecl(enabled, format))
  {
    hide IsName;
  }

  lemma McpCloses(plain: bool, s: State)
    requires Clean(plain, s) && Kind(s) == KW_MCP && Quiet(s, ParseMcpDecl(s).next)
    ensures DeclCloses(plain, ParseMcpDecl(s))
  {
    hide Clean, ExpectIdentOrString, ExpectNewline, IsName, IsNumberText, DeclGood;
    var t := Advance(s);
    CleanAdvance(plain, s);
    CleanAdvance(plain, t);
    var u := if Kind(t) == KW_ON || Kind(t) == KW_OFF then Advance(t) else Report(t, WantedOnOff);
    var format := if Kind(t) != KW_OFF && Current(u) == Token(IDENT, "FORMAT")
      then ExpectIdentOrString(Advance(u)) else Parsed("", u);
    if Kind(t) != KW_OFF && Current(u) == Token(IDENT, "FORMAT") {
      CleanAdvance(plain, u);
      NameClean(plain, Advance(u));
    }
    McpGood(plain, Kind(t) != KW_OFF, format.val);
    ExpectNewlineClean(plain, format.next);
  }

  lemma RemoveGood(plain: bool, target: RemoveTarget, name: string)
    requires target != NoTarget
    ensures DeclGood(plain, RemoveDecl(target, name))
  {}

  lemma RemoveCloses(plain: bool, s: State)
    requires Clean(plain, s) && Kind(s) == KW_REMOVE && Quiet(s, ParseRemoveDecl(s).next)
    ensures DeclCloses(plain, ParseRemoveDecl(s))
  {
    hide Clean, ExpectIdentOrString, ExpectNewline, IsName, IsNumberText, DeclGood;
    var t := Advance(s);
    CleanAdvance(plain, s);
    CleanAdvance(plain, t);
    assert TargetOf(Kind(t)) != NoTarget && Kind(t) != KW_SETUP;
    hide TargetOf;
    NameClean(plain, Advance(t));
    RemoveGood(plain, TargetOf(Kind(t)), ExpectIdentOrString(Advance(t)).val);
    ExpectNewlineClean(plain, ExpectIdentOrString(Advance(t)).next);
  }

  lemma ModeGood(plain: bool, mode: string, args: seq<string>)
    requires mode == "pty" || mode == "acp"
    ensures DeclGood(plain, ModeDecl(mode)) && (args != [] ==> DeclGood(plain, ModeArgsDecl(mode, args)))
  {}

  lemma ModeCloses(plain: bool, s: State)
    requires Clean(plain, s) && Kind(s) == KW_MODE && Quiet(s, ParseModeDecl(s).next)
    ensures DeclCloses(plain, ParseModeDecl(s))
  {
    hide Clean, ExpectIdentOrString, ExpectNewline, ParseStrings, IsName, IsNumberText, DeclGood;
    CleanAdvance(plain, s);
    var mode, t := ExpectIdentOrString(Advance(s)).val, ExpectIdentOrString(Advance(s)).next;
    NameClean(plain, Advance(s));
    ExpectNewlineClean(plain, t);
    CleanAdvance(plain, t);
    ModeGood(plain, mode, ParseStrings([], t).val);
    if Kind(t) == STRING {
      StringsStart(t);
      StringsClean(plain, [Current(t).literal], Advance(t));
      ExpectNewlineClean(plain, ParseStrings([], t).next);
    }
  }

  lemma StringsStart(t: State)
    requires Kind(t) == STRING
    ensures ParseStrings([], t) == ParseStrings([Current(t).literal], Advance(t))
  {
    assert [] + [Current(t).literal] == [Current(t).literal];
  }

  lemma PromptCloses(plain: bool, s: State)
    requires Clean(plain, s) && Kind(s) == KW_PROMPT && Quiet(s, ParsePromptDecl(s).next)
    ensures DeclCloses(plain, ParsePromptDecl(s))
  {
    hide Clean, ExpectString, ExpectNewline, PrintableText;
    CleanAdvance(plain, s);
    StringClean(plain, Advance(s));
    ExpectNewlineClean(plain, ExpectString(Advance(s)).next);
  }

  /** Each position is a word of its own token kind. */
  lemma PositionIsWord(plain: bool, s: State)
    requires Clean(plain, s) && plain && IsPosition(Current(s))
    ensures IsWord(Current(s).literal) && PositionToken(Current(s).literal) == Current(s)
  {
    LexedTail(s.rest);
    hide IsWord, LookupIdent, Plain, Ungrouped;
  }

  lemma PositionCloses(plain: bool, s: State)
    requires Clean(plain, s) && Kind(s) == KW_PROMPT_POSITION && Quiet(s, ParsePositionDecl(s).next)
    ensures DeclCloses(plain, ParsePositionDecl(s))
  {
    hide Clean, ExpectNewline, IsWord, PositionToken;
    var t := Advance(s);
    CleanAdvance(plain, s);
    CleanAdvance(plain, t);
    if plain { PositionIsWord(plain, t); }
    ExpectNewlineClean(plain, Advance(t));
  }

  lemma CapabilityCloses(plain: bool, s: State)
    requires Clean(plain, s) && Kind(s) == KW_CAPABILITY && Quiet(s, ParseCapabilityDecl(s).next)
    ensures DeclCloses(plain, ParseCapabilityDecl(s))
  {
    hide Clean, ExpectIdent, ParsePieces, ExpectNewline, PrintableCapability, ValidCapability, ToLower, Join, IsName;
    CleanAdvance(plain, s);
    var name := ExpectIdent(Advance(s));
    IdentClean(plain, Advance(s));
    PiecesClean(plain, [], name.next);
    ExpectNewlineClean(plain, ParsePieces([], name.next).next);
  }

  // ---------------------------------------------------------------- SETUP

  function Script(s: State): Parsed<string> {
    if Kind(s) == HEREDOC_START then
      if Kind(Advance(s)) == HEREDOC_BODY then Parsed(Current(Advance(s)).literal, Advance(Advance(s)))
      else Parsed("", Advance(s))
    else Parsed("", s)
  }

  lemma {:induction false} UngroupedSuffix(ts: seq<Token>, n: nat)
    requires Ungrouped(ts) && n <= |ts|
    ensures Ungrouped(ts[n..])
  {
    hide Ungrouped;
    if n == 0 {
      assert ts[0..] == ts;
    } else {
      UngroupedTail(ts);
      UngroupedSuffix(ts[1..], n - 1);
      assert ts[1..][n - 1..] == ts[n..];
    }
  }

  lemma LexedSuffix(ts: seq<Token>, n: nat)
    requires Lexed(ts) && n <= |ts|
    ensures Lexed(ts[n..]) && (n < |ts| ==> LexedToken(ts[n]))
  {
    hide LexedToken;
  }

  /** How many tokens the timeout takes, with the keyword, and how many the script. */
  function TimeoutLen(s: State): nat { if Current(Advance(s)) == Token(IDENT, "timeout") then 4 else 1 }

  function ScriptLen(u: State): nat {
    if Kind(u) != HEREDOC_START then 0 else if Kind(Advance(u)) == HEREDOC_BODY then 2 else 1
  }

  lemma ScriptReads(u: State)
    ensures ScriptLen(u) <= |u.rest| && Script(u).next == State(u.rest[ScriptLen(u)..], u.errors)
    ensures ScriptLen(u) == 2 ==> u.rest[1].typ == HEREDOC_BODY && Script(u).val == u.rest[1].literal
    ensures ScriptLen(u) != 2 ==> Script(u).val == ""
  {
    if ScriptLen(u) == 2 {
      assert u.rest[1..][1..] == u.rest[2..];
    }
  }

  lemma ScriptIsPlain(s: State, u: State)
    requires Clean(true, s) && Kind(s) == KW_SETUP
    requires TimeoutLen(s) <= |s.rest| && u.rest == s.rest[TimeoutLen(s)..]
    ensures Plain(Script(u).next.rest) && !EndsInNewline(Script(u).val)
  {
    ScriptReads(u);
    PlainSetup(s);
    AfterScriptIs(s.rest, TimeoutLen(s));
    ScriptEnds(s, TimeoutLen(s));
    hide Clean, Plain, AfterScript, Script;
    if ScriptLen(u) > 0 {
      assert u.rest[0] == s.rest[TimeoutLen(s)];
    }
    if ScriptLen(u) == 2 {
      assert u.rest[1] == s.rest[TimeoutLen(s) + 1];
    }
  }

  lemma AfterScriptIs(ts: seq<Token>, m: nat)
    requires ts != [] && m == TimeoutLen(State(ts, [])) && m <= |ts|
    ensures var u := ts[m..];
      AfterScript(ts[1..]) == if |u| > 1 && u[0].typ == HEREDOC_START && u[1].typ == HEREDOC_BODY then u[2..] else u
  {
    if m == 4 {
      assert ts[1..][3..] == ts[4..];
    }
  }

  /** The timeout and the script that are read are the ones `AfterScript` steps over. */
  lemma SetupReads(plain: bool, s: State)
    requires Clean(plain, s) && Kind(s) == KW_SETUP
    requires var timeout := ParseSetupTimeout(Advance(s)); Quiet(s, timeout.next)
    ensures var script := Script(ParseSetupTimeout(Advance(s)).next);
      Clean(plain, script.next) && Quiet(s, script.next) && (plain ==> !EndsInNewline(script.val))
    ensures 0 <= ParseSetupTimeout(Advance(s)).val <= MAX_INT64
  {
    hide Clean, ParseSetupTimeout, EndsInNewline, Plain, Script;
    var u := ParseSetupTimeout(Advance(s)).next;
    var m, k := TimeoutLen(s), ScriptLen(u);
    SetupTimeoutReads(Advance(s));
    assert u.rest == s.rest[m..];
    ScriptReads(u);
    assert u.rest[k..] == s.rest[m + k..];
    if plain { ScriptIsPlain(s, u); }
    SuffixClean(plain, s, m + k, Script(u).next);
  }

  lemma SuffixClean(plain: bool, s: State, n: nat, r: State)
    requires Clean(plain, s) && n <= |s.rest| && r.rest == s.rest[n..] && (plain ==> Plain(r.rest))
    ensures Clean(plain, r)
  {
    UngroupedSuffix(s.rest, n);
    if plain { LexedSuffix(s.rest, n); }
    hide LexedToken, Lexed, Ungrouped, Plain;
  }

  lemma SetupTimeoutReads(t: State)
    requires Quiet(t, ParseSetupTimeout(t).next)
    ensures 0 <= ParseSetupTimeout(t).val <= MAX_INT64
    ensures if Current(t) == Token(IDENT, "timeout")
      then |t.rest| > 2 && ParseSetupTimeout(t).next.rest == t.rest[3..] else ParseSetupTimeout(t).next == t
  {
    if Current(t) == Token(IDENT, "timeout") {
      IntIsMode(Expect(Advance(t), ASSIGN));
      hide ExpectInt;
      assert t.rest[1..][1..] == t.rest[2..] && (|t.rest| > 2 ==> t.rest[2..][1..] == t.rest[3..]);
    }
  }

  lemma PlainSetup(s: State)
    requires Clean(true, s) && Kind(s) == KW_SETUP
    ensures var more := AfterScript(s.rest[1..]); Plain(more) && (more != [] ==> more[0].typ != HEREDOC_START)
  {
    hide AfterScript, Ungrouped, Lexed;
  }

  lemma ScriptEnds(s: State, m: nat)
    requires Clean(true, s)
    ensures m + 1 < |s.rest| && s.rest[m + 1].typ == HEREDOC_BODY ==> !EndsInNewline(s.rest[m + 1].literal)
  {
    if m + 1 < |s.rest| { LexedSuffix(s.rest, m + 1); }
    hide Lexed, IsWord, LookupIdent, Plain, Ungrouped, IsNumberText;
  }

  lemma SetupCloses(plain: bool, s: State)
    requires Clean(plain, s) && Kind(s) == KW_SETUP && Quiet(s, ParseSetupDecl(s).next)
    ensures DeclCloses(plain, ParseSetupDecl(s))
  {
    hide Clean, ParseSetupTimeout, SkipNewlines, EndsInNewline;
    SetupReads(plain, s);
    SkipsClean(plain, Script(ParseSetupTimeout(Advance(s)).next).next);
  }

  // ---------------------------------------------------------------- all declarations

  lemma NamedCloses(plain: bool, s: State)
    requires Kind(s) in {KW_AGENT, KW_EXECUTABLE, KW_GIT_CREDENTIAL, KW_USE_ENV_BUNDLE, KW_USE_CONFIG_BUNDLE}
    requires Clean(plain, s) && Quiet(s, TryDeclaration(s).value.next)
    ensures DeclCloses(plain, TryDeclaration(s).value)
  {
    hide Clean, ParseNamed, PrintableName, IsName;
    NamedClean(plain, s);
  }

  lemma ExprDeclCloses(plain: bool, s: State)
    requires Kind(s) == KW_REPO || Kind(s) == KW_BRANCH
    requires Clean(plain, s) && Quiet(s, TryDeclaration(s).value.next)
    ensures DeclCloses(plain, TryDeclaration(s).value)
  {
    hide Clean, ParseExprLine, DeclGood;
    ExprLineCloses(plain, s);
  }

  lemma LongCloses(plain: bool, s: State)
    requires Kind(s) in {KW_CONFIG, KW_ENV, KW_MCP, KW_SETUP, KW_REMOVE, KW_MODE}
    requires Clean(plain, s) && Quiet(s, TryDeclaration(s).value.next)
    ensures DeclCloses(plain, TryDeclaration(s).value)
  {
    hide Clean, DeclGood, ParseConfigDecl, ParseEnvDecl, ParseMcpDecl, ParseSetupDecl, ParseRemoveDecl, ParseModeDecl;
    match Kind(s)
    case KW_CONFIG => ConfigCloses(plain, s);
    case KW_ENV => EnvCloses(plain, s);
    case KW_MCP => McpCloses(plain, s);
    case KW_SETUP => SetupCloses(plain, s);
    case KW_REMOVE => RemoveCloses(plain, s);
    case KW_MODE => ModeCloses(plain, s);
  }

  lemma OtherCloses(plain: bool, s: State)
    requires Kind(s) in {KW_PROMPT, KW_PROMPT_POSITION, KW_CAPABILITY}
    requires Clean(plain, s) && Quiet(s, TryDeclaration(s).value.next)
    ensures DeclCloses(plain, TryDeclaration(s).value)
  {
    hide Clean, DeclGood, ParsePromptDecl, ParsePositionDecl, ParseCapabilityDecl;
    match Kind(s)
    case KW_PROMPT => PromptCloses(plain, s);
    case KW_PROMPT_POSITION => PositionCloses(plain, s);
    case KW_CAPABILITY => CapabilityCloses(plain, s);
  }

  lemma DeclarationKinds(s: State)
    requires TryDeclaration(s).Some?
    ensures Kind(s) in {KW_AGENT, KW_EXECUTABLE, KW_GIT_CREDENTIAL, KW_USE_ENV_BUNDLE, KW_USE_CONFIG_BUNDLE,
      KW_REPO, KW_BRANCH, KW_CONFIG, KW_ENV, KW_MCP, KW_SETUP, KW_REMOVE, KW_MODE,
      KW_PROMPT, KW_PROMPT_POSITION, KW_CAPABILITY, KW_SKILLS, KW_KNOWLEDGE}
  {}

  lemma TryDeclarationCloses(plain: bool, s: State)
    requires Clean(plain, s) && TryDeclaration(s).Some? && Quiet(s, TryDeclaration(s).value.next)
    ensures DeclCloses(plain, TryDeclaration(s).value)
  {
    DeclarationKinds(s);
    hide Clean, DeclCloses, TryDeclaration;
    if Kind(s) == KW_SKILLS {
      SkillsCloses(plain, s);
    } else if Kind(s) == KW_KNOWLEDGE {
      KnowledgeCloses(plain, s);
    } else if Kind(s) == KW_REPO || Kind(s) == KW_BRANCH {
      ExprDeclCloses(plain, s);
    } else if Kind(s) in {KW_CONFIG, KW_ENV, KW_MCP, KW_SETUP, KW_REMOVE, KW_MODE} {
      LongCloses(plain, s);
    } else if Kind(s) in {KW_PROMPT, KW_PROMPT_POSITION, KW_CAPABILITY} {
      OtherCloses(plain, s);
    } else {
      NamedCloses(plain, s);
    }
  }

  ghost predicate ProgramGood(plain: bool, p: Program) {
    DeclsGood(plain, p.declarations) && StmtsGood(plain, p.statements)
  }

  lemma {:induction false} ItemsClose(plain: bool, p: Program, s: State)
    requires Clean(plain, s) && Quiet(s, ParseItems(p, s).next) && ProgramGood(plain, p)
    ensures ProgramGood(plain, ParseItems(p, s).val)
    decreases |s.rest|
  {
    hide TryDeclaration, TryStatement, SkipNewlines, Clean, StmtGood, DeclGood;
    var t := SkipNewlines(s);
    SkipsClean(plain, s);
    if !AtEnd(s) && !AtEnd(t) {
      var d, st := TryDeclaration(t), TryStatement(t);
      if d.Some? {
        TryDeclarationCloses(plain, t);
        ItemsClose(plain, p.(declarations := p.declarations + [d.value.val]), d.value.next);
      } else if st.Some? {
        TryStatementCloses(plain, t);
        ItemsClose(plain, p.(statements := p.statements + [st.value.val]), st.value.next);
      }
    }
  }

  /** Closure: tokens without grouping parentheses that parse without error make a tree that respects the levels. */
  lemma ParseRespects(tokens: seq<Token>)
    requires Ungrouped(tokens) && ParseTokens(tokens).next.errors == []
    ensures ProgramRespects(ParseTokens(tokens).val)
  {
    hide ParseItems, PrintableStmt, PrintableDecl, Restorable, DeclRespects, StmtRespects, Ungrouped;
    ItemsClose(false, Program([], []), State(tokens, []));
  }

  /** If moreover the tokens are plain, the tree is printable as far as its declarations are restorable. */
  lemma ParsePrintable(tokens: seq<Token>)
    requires Ungrouped(tokens) && Lexed(tokens) && Plain(tokens) && ParseTokens(tokens).next.errors == []
    requires forall d | d in ParseTokens(tokens).val.declarations :: Restorable(d)
    ensures PrintableProgram(ParseTokens(tokens).val)
  {
    hide ParseItems, PrintableStmt, PrintableDecl, Restorable, DeclRespects, StmtRespects, Ungrouped, Lexed, Plain;
    ItemsClose(true, Program([], []), State(tokens, []));
  }
}
