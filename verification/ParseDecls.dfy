/** Parsing the tokens of printed declarations gives the declarations back. */
module ParseDecls {
  import opened Text
  import opened Tokens
  import opened Ast
  import opened PrintSpec
  import opened PrintTokens
  import opened LexWords
  import opened LexPrinted
  import opened LexLines
  import opened LexDecls
  import opened ParseSpec
  import opened Levels
  import opened ParsePrinted
  import opened ParseStmts

  ghost predicate DeclReads(d: Decl, s: State, rest: seq<Token>) {
    TryDeclaration(s) == Some(Parsed(d, State(rest, s.errors)))
  }

  lemma OneToken(a: Token, tail: seq<Token>)
    ensures ([a] + tail)[0] == a && ([a] + tail)[1..] == tail
  {}

  // ---------------------------------------------------------------- dispatch

  lemma DispatchPrompt(s: State)
    ensures Kind(s) == KW_PROMPT ==> TryDeclaration(s) == Some(ParsePromptDecl(s))
    ensures Kind(s) == KW_PROMPT_POSITION ==> TryDeclaration(s) == Some(ParsePositionDecl(s))
    ensures Kind(s) == KW_REMOVE ==> TryDeclaration(s) == Some(ParseRemoveDecl(s))
  {
    hide ParsePromptDecl, ParsePositionDecl, ParseRemoveDecl;
  }

  lemma DispatchLong(s: State)
    ensures Kind(s) == KW_ENV ==> TryDeclaration(s) == Some(ParseEnvDecl(s))
    ensures Kind(s) == KW_MCP ==> TryDeclaration(s) == Some(ParseMcpDecl(s))
    ensures Kind(s) == KW_SETUP ==> TryDeclaration(s) == Some(ParseSetupDecl(s))
    ensures Kind(s) == KW_MODE ==> TryDeclaration(s) == Some(ParseModeDecl(s))
    ensures Kind(s) == KW_CAPABILITY ==> TryDeclaration(s) == Some(ParseCapabilityDecl(s))
  {
    hide ParseEnvDecl, ParseMcpDecl, ParseSetupDecl, ParseModeDecl, ParseCapabilityDecl;
  }

  lemma DispatchLists(s: State)
    ensures Kind(s) == KW_SKILLS ==>
      var r := ParseSlugs([], Advance(s)); TryDeclaration(s) == Some(Parsed(SkillsDecl(r.val), ExpectNewline(r.next)))
    ensures Kind(s) == KW_KNOWLEDGE ==>
      var r := ParseMounts([], Advance(s)); TryDeclaration(s) == Some(Parsed(KnowledgeDecl(r.val), ExpectNewline(r.next)))
  {
    hide ParseSlugs, ParseMounts, ExpectNewline;
  }

  // ---------------------------------------------------------------- single names

  lemma LineTail(a: Token, b: Token, rest: seq<Token>)
    ensures [a, b, NL] + rest == [a] + ([b] + ([NL] + rest))
    ensures ([a, b, NL] + rest)[1..] == [b] + ([NL] + rest)
    ensures ([b] + ([NL] + rest))[1..] == [NL] + rest
  {}

  lemma NamedInverts(a: Token, name: Token, rest: seq<Token>, errs: seq<ParseError>)
    requires (name.typ == IDENT || name.typ == STRING) && LineStart(rest)
    ensures ParseNamed(State([a, name, NL] + rest, errs)) == Parsed(name.literal, State(rest, errs))
  {
    LineTail(a, name, rest);
    NewlineAt(rest, errs);
    hide ExpectNewline;
  }

  function NamedDecl(t: TokenType, name: string): Decl
    requires t in {KW_AGENT, KW_EXECUTABLE, KW_GIT_CREDENTIAL, KW_USE_ENV_BUNDLE, KW_USE_CONFIG_BUNDLE}
  {
    match t
    case KW_AGENT => AgentDecl(name)
    case KW_EXECUTABLE => ExecutableDecl(name)
    case KW_GIT_CREDENTIAL => GitCredentialDecl(name)
    case KW_USE_ENV_BUNDLE => UseEnvBundleDecl(name)
    case _ => UseConfigBundleDecl(name)
  }

  lemma DispatchNamed(s: State, a: Token, rest: seq<Token>)
    requires Kind(s) in {KW_AGENT, KW_EXECUTABLE, KW_GIT_CREDENTIAL, KW_USE_ENV_BUNDLE, KW_USE_CONFIG_BUNDLE}
    requires ParseNamed(s) == Parsed(a.literal, State(rest, s.errors))
    ensures DeclReads(NamedDecl(Kind(s), a.literal), s, rest)
  {
    hide ParseNamed;
  }

  lemma NameTokenFacts(s: string)
    ensures NameToken(s).literal == s && (NameToken(s).typ == IDENT || NameToken(s).typ == STRING)
  {
    hide IsBare;
  }

  lemma NamedParts(keyword: Token, n: string) returns (a: Token, name: Token)
    ensures a == keyword && name == NameToken(n) && name.literal == n && (name.typ == IDENT || name.typ == STRING)
  {
    NameTokenFacts(n);
    a, name := keyword, NameToken(n);
  }

  lemma NamedDeclTokens(d: Decl) returns (a: Token, name: Token)
    requires d.AgentDecl? || d.ExecutableDecl? || d.UseEnvBundleDecl? || d.UseConfigBundleDecl? || d.GitCredentialDecl?
    ensures DeclTokens(d) == [a, name, NL] && (name.typ == IDENT || name.typ == STRING)
    ensures a.typ in {KW_AGENT, KW_EXECUTABLE, KW_GIT_CREDENTIAL, KW_USE_ENV_BUNDLE, KW_USE_CONFIG_BUNDLE}
    ensures d == NamedDecl(a.typ, name.literal)
  {
    hide DeclTokens, DeclText, NameToken, QuoteIfNeeded, GoQuote, PositionToken;
    match d
    case AgentDecl(command) => NamedDeclParts(d); a, name := NamedParts(Token(KW_AGENT, "AGENT"), command);
    case ExecutableDecl(n) => NamedDeclParts(d); a, name := NamedParts(Token(KW_EXECUTABLE, "EXECUTABLE"), n);
    case UseEnvBundleDecl(n) => NamedDeclParts(d); a, name := NamedParts(Token(KW_USE_ENV_BUNDLE, "USE_ENV_BUNDLE"), n);
    case UseConfigBundleDecl(n) => NamedDeclParts(d); a, name := NamedParts(Token(KW_USE_CONFIG_BUNDLE, "USE_CONFIG_BUNDLE"), n);
    case GitCredentialDecl(c) => OtherDeclParts(d); a, name := Token(KW_GIT_CREDENTIAL, "GIT_CREDENTIAL"), IdentToken(c);
  }

  lemma NamedDeclInverts(d: Decl, rest: seq<Token>, errs: seq<ParseError>)
    requires d.AgentDecl? || d.ExecutableDecl? || d.UseEnvBundleDecl? || d.UseConfigBundleDecl? || d.GitCredentialDecl?
    requires LineStart(rest)
    ensures DeclReads(d, State(DeclTokens(d) + rest, errs), rest)
  {
    hide ParseNamed, TryDeclaration, DeclTokens, NamedDecl, DeclReads, LineStart;
    var a, name := NamedDeclTokens(d);
    NamedInverts(a, name, rest, errs);
    LineTail(a, name, rest);
    DispatchNamed(State(DeclTokens(d) + rest, errs), name, rest);
  }

  lemma PromptInverts(d: Decl, rest: seq<Token>, errs: seq<ParseError>)
    requires d.PromptDecl? && LineStart(rest)
    ensures DeclReads(d, State(DeclTokens(d) + rest, errs), rest)
  {
    hide TryDeclaration;
    LineTail(Token(KW_PROMPT, "PROMPT"), StringToken(d.prompt), rest);
    var tokens := DeclTokens(d);
    assert tokens == [Token(KW_PROMPT, "PROMPT"), StringToken(d.prompt), NL];
    hide DeclTokens;
    NewlineAt(rest, errs);
    hide ExpectNewline;
    DispatchPrompt(State(tokens + rest, errs));
  }

  lemma PositionInverts(d: Decl, rest: seq<Token>, errs: seq<ParseError>)
    requires d.PromptPositionDecl? && PrintableDecl(d) && LineStart(rest)
    ensures DeclReads(d, State(DeclTokens(d) + rest, errs), rest)
  {
    hide LookupIdent, IsWord, TryDeclaration;
    NewlineAt(rest, errs);
    hide ExpectNewline;
    LineTail(Token(KW_PROMPT_POSITION, "PROMPT_POSITION"), PositionToken(d.position), rest);
    DispatchPrompt(State(DeclTokens(d) + rest, errs));
  }

  lemma RemoveTail(d: Decl, rest: seq<Token>)
    requires d.RemoveDecl?
    ensures DeclTokens(d) + rest == [Token(KW_REMOVE, "REMOVE"), TargetToken(d.target)] + ([StringToken(d.name)] + ([NL] + rest))
  {
    hide DeclTokens, TargetToken, SlugTokens, MountListTokens, StringTokens, CapabilityTokens;
    ListDeclTokens(d);
  }

  lemma TargetReads(target: RemoveTarget)
    requires target != NoTarget
    ensures TargetOf(TargetToken(target).typ) == target
  {}

  lemma RemoveInverts(d: Decl, rest: seq<Token>, errs: seq<ParseError>)
    requires d.RemoveDecl? && PrintableDecl(d) && LineStart(rest)
    ensures DeclReads(d, State(DeclTokens(d) + rest, errs), rest)
  {
    assert d.target != NoTarget;
    hide TryDeclaration, DeclTokens, PrintableDecl;
    NewlineAt(rest, errs);
    TargetReads(d.target);
    hide ExpectNewline, SkipNewlines, Stops, LineStart, TargetToken, TargetOf;
    RemoveTail(d, rest);
    var more := [StringToken(d.name)] + ([NL] + rest);
    TwoTokens(Token(KW_REMOVE, "REMOVE"), TargetToken(d.target), more);
    OneToken(StringToken(d.name), [NL] + rest);
    DispatchPrompt(State(DeclTokens(d) + rest, errs));
  }

  lemma ExprDeclTail(d: Decl, e: Expr, rest: seq<Token>)
    requires (d.RepoDecl? && d.repo == e) || (d.BranchDecl? && d.branch == e)
    ensures var tokens, keyword := DeclTokens(d) + rest, if d.RepoDecl? then Token(KW_REPO, "REPO") else Token(KW_BRANCH, "BRANCH");
      tokens != [] && tokens[0] == keyword && tokens[1..] == ExprTokens(e) + LineEnd(e) + rest
  {
    hide ExprTokens, LineEnd;
    var keyword := if d.RepoDecl? then Token(KW_REPO, "REPO") else Token(KW_BRANCH, "BRANCH");
    assert DeclTokens(d) == [keyword] + ExprTokens(e) + LineEnd(e);
    hide DeclTokens;
    ConcatAssociates([keyword], ExprTokens(e), LineEnd(e));
    OneItem(keyword, ExprTokens(e) + LineEnd(e), rest);
    OneToken(keyword, ExprTokens(e) + LineEnd(e) + rest);
  }

  lemma DispatchExpr(s: State)
    ensures Kind(s) == KW_REPO ==>
      var r := ParseExprLine(s); TryDeclaration(s) == Some(Parsed(RepoDecl(r.val), r.next))
    ensures Kind(s) == KW_BRANCH ==>
      var r := ParseExprLine(s); TryDeclaration(s) == Some(Parsed(BranchDecl(r.val), r.next))
  {
    hide ParseExprLine;
  }

  lemma ExprDeclInverts(d: Decl, e: Expr, rest: seq<Token>, errs: seq<ParseError>)
    requires (d.RepoDecl? && d.repo == e) || (d.BranchDecl? && d.branch == e)
    requires Respects(e) && LineStart(rest)
    ensures DeclReads(d, State(DeclTokens(d) + rest, errs), rest)
  {
    hide ParseExpr, ExprTokens, LineEnd, ExpectNewline, Respects, DeclTokens, TryDeclaration, LineStart;
    var s := State(DeclTokens(d) + rest, errs);
    ExprDeclTail(d, e, rest);
    LastExprAt(e, rest, errs);
    assert ParseExprLine(s) == Parsed(e, State(rest, errs));
    hide ParseExprLine;
    DispatchExpr(s);
  }

  // ---------------------------------------------------------------- lists

  /** What follows the first item of a comma-separated list of tokens. */
  function ItemTail(last: bool, more: seq<Token>, close: seq<Token>): seq<Token> {
    if last then close else [COMMA_TOKEN] + (more + close)
  }

  lemma ItemTailSkips(last: bool, more: seq<Token>, close: seq<Token>, errs: seq<ParseError>)
    requires (last ==> more == []) && close != [] && close[0].typ != COMMA
    ensures SkipComma(State(ItemTail(last, more, close), errs)) == State(more + close, errs)
  {
    if last {
      assert [] + close == close;
    } else {
      OneToken(COMMA_TOKEN, more + close);
    }
  }

  lemma OptionStep(acc: seq<string>, option: string, tail: seq<Token>, errs: seq<ParseError>)
    ensures ParseOptions(acc, State([StringToken(option)] + tail, errs)) ==
      ParseOptions(acc + [option], SkipComma(State(tail, errs)))
  {
    OneToken(StringToken(option), tail);
  }

  lemma OptionsDone(acc: seq<string>, rest: seq<Token>, errs: seq<ParseError>)
    ensures var s := State([Token(RPAREN, ")")] + rest, errs); ParseOptions(acc, s) == Parsed(acc, s)
  {}

  lemma OptionsSplit(options: seq<string>, close: seq<Token>)
    requires options != []
    ensures QuotedTokens(options) + close ==
      [StringToken(options[0])] + ItemTail(|options| == 1, QuotedTokens(options[1..]), close)
    ensures |options| == 1 ==> QuotedTokens(options[1..]) == []
  {
    var more := QuotedTokens(options[1..]);
    if |options| > 1 {
      assert QuotedTokens(options) == [StringToken(options[0]), COMMA_TOKEN] + more;
      hide QuotedTokens;
      TwoItems(StringToken(options[0]), COMMA_TOKEN, more, close);
    }
  }

  lemma {:induction false} OptionsInvert(options: seq<string>, acc: seq<string>, rest: seq<Token>, errs: seq<ParseError>)
    ensures var close := [Token(RPAREN, ")")] + rest;
      ParseOptions(acc, State(QuotedTokens(options) + close, errs)) == Parsed(acc + options, State(close, errs))
  {
    hide ParseOptions, SkipComma, ItemTail;
    var close := [Token(RPAREN, ")")] + rest;
    if options == [] {
      assert [] + close == close && acc + [] == acc;
      OptionsDone(acc, rest, errs);
    } else {
      OptionsSplit(options, close);
      hide QuotedTokens;
      OptionStep(acc, options[0], ItemTail(|options| == 1, QuotedTokens(options[1..]), close), errs);
      ItemTailSkips(|options| == 1, QuotedTokens(options[1..]), close, errs);
      OptionsInvert(options[1..], acc + [options[0]], rest, errs);
      assert acc + [options[0]] + options[1..] == acc + options;
    }
  }

  lemma SlugStep(acc: seq<string>, slug: string, tail: seq<Token>, errs: seq<ParseError>)
    ensures ParseSlugs(acc, State([IdentToken(slug)] + tail, errs)) == ParseSlugs(acc + [slug], SkipComma(State(tail, errs)))
  {
    OneToken(IdentToken(slug), tail);
  }

  lemma SlugsDone(acc: seq<string>, rest: seq<Token>, errs: seq<ParseError>)
    ensures ParseSlugs(acc, State([NL] + rest, errs)) == Parsed(acc, State([NL] + rest, errs))
  {}

  lemma SlugsSplit(slugs: seq<string>, close: seq<Token>)
    requires slugs != []
    ensures SlugTokens(slugs) + close == [IdentToken(slugs[0])] + ItemTail(|slugs| == 1, SlugTokens(slugs[1..]), close)
    ensures |slugs| == 1 ==> SlugTokens(slugs[1..]) == []
  {
    var more := SlugTokens(slugs[1..]);
    if |slugs| > 1 {
      assert SlugTokens(slugs) == [IdentToken(slugs[0]), COMMA_TOKEN] + more;
      hide SlugTokens;
      TwoItems(IdentToken(slugs[0]), COMMA_TOKEN, more, close);
    }
  }

  lemma {:induction false} SlugsInvert(slugs: seq<string>, acc: seq<string>, rest: seq<Token>, errs: seq<ParseError>)
    ensures var end := [NL] + rest;
      ParseSlugs(acc, State(SlugTokens(slugs) + end, errs)) == Parsed(acc + slugs, State(end, errs))
  {
    hide ParseSlugs, SkipComma, ItemTail;
    var end := [NL] + rest;
    if slugs == [] {
      assert [] + end == end && acc + [] == acc;
      SlugsDone(acc, rest, errs);
    } else {
      SlugsSplit(slugs, end);
      hide SlugTokens;
      SlugStep(acc, slugs[0], ItemTail(|slugs| == 1, SlugTokens(slugs[1..]), end), errs);
      ItemTailSkips(|slugs| == 1, SlugTokens(slugs[1..]), end, errs);
      SlugsInvert(slugs[1..], acc + [slugs[0]], rest, errs);
      assert acc + [slugs[0]] + slugs[1..] == acc + slugs;
    }
  }

  function MountMode(m: Mount, tail: seq<Token>): seq<Token> {
    if m.mode == "rw" then [Token(LBRACKET, "["), IdentToken("rw"), Token(RBRACKET, "]")] + tail else tail
  }

  lemma MountModeAt(m: Mount, tail: seq<Token>, errs: seq<ParseError>)
    requires (m.mode == "ro" || m.mode == "rw") && (tail != [] ==> tail[0].typ != LBRACKET)
    ensures ParseMountMode(State(MountMode(m, tail), errs)) == Parsed(m.mode, State(tail, errs))
  {
    if m.mode == "rw" {
      var all := MountMode(m, tail);
      assert all[1..][1..][1..] == tail && all[1..][0] == IdentToken("rw") && all[1..][1..][0] == Token(RBRACKET, "]");
    }
  }

  lemma MountSplits(m: Mount, tail: seq<Token>)
    ensures MountTokens(m) + tail == [IdentToken(m.slug)] + MountMode(m, tail)
    ensures (MountTokens(m) + tail)[1..] == MountMode(m, tail)
  {
    if m.mode != "rw" {
      assert [] + tail == tail;
    }
  }

  lemma MountStep(acc: seq<Mount>, m: Mount, tail: seq<Token>, errs: seq<ParseError>)
    requires (m.mode == "ro" || m.mode == "rw") && (tail != [] ==> tail[0].typ != LBRACKET)
    ensures ParseMounts(acc, State(MountTokens(m) + tail, errs)) ==
      ParseMounts(acc + [m], SkipComma(State(tail, errs)))
  {
    hide MountTokens, MountMode, ParseMountMode;
    MountSplits(m, tail);
    MountModeAt(m, tail, errs);
  }

  lemma MountsDone(acc: seq<Mount>, rest: seq<Token>, errs: seq<ParseError>)
    ensures ParseMounts(acc, State([NL] + rest, errs)) == Parsed(acc, State([NL] + rest, errs))
  {}

  lemma MountsSplit(mounts: seq<Mount>, close: seq<Token>)
    requires mounts != []
    ensures MountListTokens(mounts) + close == MountTokens(mounts[0]) + ItemTail(|mounts| == 1, MountListTokens(mounts[1..]), close)
    ensures |mounts| == 1 ==> MountListTokens(mounts[1..]) == []
  {
    hide MountTokens;
    var first, more := MountTokens(mounts[0]), MountListTokens(mounts[1..]);
    if |mounts| > 1 {
      assert MountListTokens(mounts) == first + [COMMA_TOKEN] + more;
      hide MountListTokens;
      ConcatAssociates(first + [COMMA_TOKEN], more, close);
      ConcatAssociates(first, [COMMA_TOKEN], more + close);
    }
  }

  lemma ItemTailStart(last: bool, more: seq<Token>, close: seq<Token>)
    requires close != []
    ensures var tail := ItemTail(last, more, close); tail != [] && (tail[0] == close[0] || tail[0] == COMMA_TOKEN)
  {}

  lemma {:induction false} MountsInvert(mounts: seq<Mount>, acc: seq<Mount>, rest: seq<Token>, errs: seq<ParseError>)
    requires forall m | m in mounts :: m.mode == "ro" || m.mode == "rw"
    ensures var end := [NL] + rest;
      ParseMounts(acc, State(MountListTokens(mounts) + end, errs)) == Parsed(acc + mounts, State(end, errs))
  {
    hide MountTokens, ParseMounts, SkipComma, ItemTail;
    var end := [NL] + rest;
    if mounts == [] {
      assert [] + end == end && acc + [] == acc;
      MountsDone(acc, rest, errs);
    } else {
      MountsSplit(mounts, end);
      hide MountListTokens;
      var more := MountListTokens(mounts[1..]);
      ItemTailStart(|mounts| == 1, more, end);
      MountStep(acc, mounts[0], ItemTail(|mounts| == 1, more, end), errs);
      ItemTailSkips(|mounts| == 1, more, end, errs);
      MountsInvert(mounts[1..], acc + [mounts[0]], rest, errs);
      assert acc + [mounts[0]] + mounts[1..] == acc + mounts;
    }
  }

  lemma StringStep(acc: seq<string>, arg: string, tail: seq<Token>, errs: seq<ParseError>)
    ensures ParseStrings(acc, State([StringToken(arg)] + tail, errs)) == ParseStrings(acc + [arg], State(tail, errs))
  {
    OneToken(StringToken(arg), tail);
  }

  lemma StringsDone(acc: seq<string>, rest: seq<Token>, errs: seq<ParseError>)
    ensures ParseStrings(acc, State([NL] + rest, errs)) == Parsed(acc, State([NL] + rest, errs))
  {}

  lemma {:induction false} StringsInvert(args: seq<string>, acc: seq<string>, rest: seq<Token>, errs: seq<ParseError>)
    ensures var end := [NL] + rest;
      ParseStrings(acc, State(StringTokens(args) + end, errs)) == Parsed(acc + args, State(end, errs))
  {
    hide ParseStrings;
    var end := [NL] + rest;
    if args == [] {
      assert [] + end == end && acc + [] == acc;
      StringsDone(acc, rest, errs);
    } else {
      var tail := StringTokens(args[1..]) + end;
      ConcatAssociates([StringToken(args[0])], StringTokens(args[1..]), end);
      StringStep(acc, args[0], tail, errs);
      StringsInvert(args[1..], acc + [args[0]], rest, errs);
      assert acc + [args[0]] + args[1..] == acc + args;
    }
  }

  lemma ListDeclTokens(d: Decl)
    ensures d.SkillsDecl? ==> DeclTokens(d) == [Token(KW_SKILLS, "SKILLS")] + SlugTokens(d.slugs) + [NL]
    ensures d.KnowledgeDecl? ==> DeclTokens(d) == [Token(KW_KNOWLEDGE, "KNOWLEDGE")] + MountListTokens(d.mounts) + [NL]
    ensures d.ModeArgsDecl? ==>
      DeclTokens(d) == [Token(KW_MODE, "MODE"), IdentToken(d.mode)] + StringTokens(d.args) + [NL]
    ensures d.CapabilityDecl? ==>
      DeclTokens(d) == [Token(KW_CAPABILITY, "CAPABILITY"), IdentToken(d.axis)] + CapabilityTokens(d.axis, d.capability) + [NL]
    ensures d.RemoveDecl? ==>
      DeclTokens(d) == [Token(KW_REMOVE, "REMOVE"), TargetToken(d.target), StringToken(d.name), NL]
  {
    hide SlugTokens, MountListTokens, StringTokens, TargetToken, CapabilityTokens;
  }

  /** A keyword, a list and the end of the line. */
  lemma ListLine(keyword: Token, list: seq<Token>, rest: seq<Token>)
    ensures var line := [keyword] + list + [NL] + rest; line[0] == keyword && line[1..] == list + ([NL] + rest)
  {
    ConcatAssociates([keyword] + list, [NL], rest);
    ConcatAssociates([keyword], list, [NL] + rest);
    OneToken(keyword, list + ([NL] + rest));
  }

  lemma SkillsInverts(d: Decl, rest: seq<Token>, errs: seq<ParseError>)
    requires d.SkillsDecl? && LineStart(rest)
    ensures DeclReads(d, State(DeclTokens(d) + rest, errs), rest)
  {
    hide DeclTokens, SlugTokens, ParseSlugs, TryDeclaration, MountListTokens, StringTokens;
    NewlineAt(rest, errs);
    hide ExpectNewline, SkipNewlines, Stops, LineStart;
    ListDeclTokens(d);
    var s := State(DeclTokens(d) + rest, errs);
    ListLine(Token(KW_SKILLS, "SKILLS"), SlugTokens(d.slugs), rest);
    SlugsInvert(d.slugs, [], rest, errs);
    assert [] + d.slugs == d.slugs;
    DispatchLists(s);
  }

  lemma KnowledgeInverts(d: Decl, rest: seq<Token>, errs: seq<ParseError>)
    requires d.KnowledgeDecl? && LineStart(rest)
    requires forall m | m in d.mounts :: m.mode == "ro" || m.mode == "rw"
    ensures DeclReads(d, State(DeclTokens(d) + rest, errs), rest)
  {
    hide DeclTokens, SlugTokens, MountListTokens, ParseMounts, TryDeclaration, MountTokens, StringTokens;
    NewlineAt(rest, errs);
    hide ExpectNewline, SkipNewlines, Stops, LineStart;
    ListDeclTokens(d);
    var s := State(DeclTokens(d) + rest, errs);
    ListLine(Token(KW_KNOWLEDGE, "KNOWLEDGE"), MountListTokens(d.mounts), rest);
    MountsInvert(d.mounts, [], rest, errs);
    assert [] + d.mounts == d.mounts;
    DispatchLists(s);
  }

  // ---------------------------------------------------------------- CONFIG

  function OptionTail(typ: ConfigType, options: seq<string>, tail: seq<Token>): seq<Token> {
    if typ == Select && options != []
    then [Token(LPAREN, "(")] + (QuotedTokens(options) + ([Token(RPAREN, ")")] + tail)) else tail
  }

  function TypeTail(typ: ConfigType, tail: seq<Token>): seq<Token> {
    if typ == Untyped then tail else [TypeToken(typ)] + tail
  }

  function DefaultTail(default: Value, rest: seq<Token>): seq<Token> {
    if default == NoValue then [NL] + rest else [Token(ASSIGN, "="), ValueToken(default)] + ([NL] + rest)
  }

  lemma ConfigTokensSplit(d: Decl, rest: seq<Token>)
    requires d.ConfigDecl?
    ensures var ConfigDecl(name, typ, options, default) := d;
      DeclTokens(d) + rest == [Token(KW_CONFIG, "CONFIG"), IdentToken(name)] +
        TypeTail(typ, OptionTail(typ, options, DefaultTail(default, rest)))
  {
    hide QuotedTokens, TypeToken, ValueToken;
    var ConfigDecl(name, typ, options, default) := d;
    var head := [Token(KW_CONFIG, "CONFIG"), IdentToken(name)];
    var typed := if typ == Untyped then [] else [TypeToken(typ)];
    var listed := if typ == Select && options != []
      then [Token(LPAREN, "(")] + QuotedTokens(options) + [Token(RPAREN, ")")] else [];
    var value := if default == NoValue then [] else [Token(ASSIGN, "="), ValueToken(default)];
    assert DeclTokens(d) == head + typed + listed + value + [NL];
    hide DeclTokens;
    var tail := value + ([NL] + rest);
    FiveParts(head, typed, listed, value, [NL], rest);
    assert tail == DefaultTail(default, rest);
    assert listed + tail == OptionTail(typ, options, tail) by {
      ConcatAssociates([Token(LPAREN, "(")] + QuotedTokens(options), [Token(RPAREN, ")")], tail);
      ConcatAssociates([Token(LPAREN, "(")], QuotedTokens(options), [Token(RPAREN, ")")] + tail);
      assert [] + tail == tail;
    }
    assert typed + (listed + tail) == TypeTail(typ, listed + tail);
  }

  lemma OptionsAt(options: seq<string>, tail: seq<Token>, errs: seq<ParseError>)
    requires options != []
    ensures ParseSelectOptions(State(OptionTail(Select, options, tail), errs)) == Parsed(options, State(tail, errs))
  {
    hide QuotedTokens, ParseOptions;
    var close := [Token(RPAREN, ")")] + tail;
    OneToken(Token(LPAREN, "("), QuotedTokens(options) + close);
    OptionsInvert(options, [], tail, errs);
    assert [] + options == options;
    OneToken(Token(RPAREN, ")"), tail);
  }

  lemma SelectAt(options: seq<string>, tail: seq<Token>, errs: seq<ParseError>)
    requires options != []
    ensures ParseConfigType(State([TypeToken(Select)] + OptionTail(Select, options, tail), errs)) ==
      Parsed((Select, options), State(tail, errs))
  {
    hide ParseSelectOptions, OptionTail;
    OptionsAt(options, tail, errs);
    OneToken(TypeToken(Select), OptionTail(Select, options, tail));
  }

  lemma SimpleTypeAt(typ: ConfigType, tail: seq<Token>, errs: seq<ParseError>)
    requires typ != Select && (typ == Untyped ==> tail != [] && tail[0].typ == ASSIGN)
    ensures ParseConfigType(State(TypeTail(typ, tail), errs)) == Parsed((typ, []), State(tail, errs))
  {
    hide ParseSelectOptions;
    if typ != Untyped { OneToken(TypeToken(typ), tail); }
  }

  lemma TypeAt(typ: ConfigType, options: seq<string>, tail: seq<Token>, errs: seq<ParseError>)
    requires typ == Select <==> options != []
    requires typ == Untyped ==> tail != [] && tail[0].typ == ASSIGN
    ensures ParseConfigType(State(TypeTail(typ, OptionTail(typ, options, tail)), errs)) ==
      Parsed((typ, options), State(tail, errs))
  {
    hide ParseConfigType, TypeToken, QuotedTokens;
    if typ == Select { SelectAt(options, tail, errs); } else { SimpleTypeAt(typ, tail, errs); }
  }

  /** Integers that a float64 holds exactly read back from their decimal numerals. */
  lemma FloatReadsBack(n: nat)
    requires n <= MAX_EXACT
    ensures FloatOf(DecimalText(n)) == IntValue(n)
  {
    ValueOfNumeral(n, 10);
  }

  lemma ValueAt(default: Value, tail: seq<Token>, errs: seq<ParseError>)
    requires default != NoValue && !default.FloatValue? && (default.IntValue? ==> 0 <= default.n <= MAX_EXACT)
    ensures ParseLiteralValue(State([ValueToken(default)] + tail, errs)) == Parsed(default, State(tail, errs))
  {
    OneToken(ValueToken(default), tail);
    if default.IntValue? { FloatReadsBack(default.n); }
    hide FloatOf, DecimalText;
  }

  lemma DefaultAt(default: Value, rest: seq<Token>, errs: seq<ParseError>)
    requires !default.FloatValue? && (default.IntValue? ==> 0 <= default.n <= MAX_EXACT)
    ensures var s := State(DefaultTail(default, rest), errs);
      (if Kind(s) == ASSIGN then ParseLiteralValue(Advance(s)) else Parsed(NoValue, s)) ==
      Parsed(default, State([NL] + rest, errs))
  {
    hide ParseLiteralValue, ValueToken;
    if default != NoValue {
      ValueAt(default, [NL] + rest, errs);
      assert DefaultTail(default, rest)[1..] == [ValueToken(default)] + ([NL] + rest);
    }
  }

  lemma ConfigStep(s: State, name: Parsed<string>, typ: Parsed<(ConfigType, seq<string>)>, default: Parsed<Value>)
    requires Kind(s) == KW_CONFIG && ExpectIdent(Advance(s)) == name && ParseConfigType(name.next) == typ
    requires default ==
      if Kind(typ.next) == ASSIGN then ParseLiteralValue(Advance(typ.next)) else Parsed(NoValue, typ.next)
    ensures TryDeclaration(s) ==
      Some(Parsed(ConfigDecl(name.val, typ.val.0, typ.val.1, default.val), ExpectNewline(default.next)))
  {
    hide ExpectIdent, ParseConfigType, ParseLiteralValue, ExpectNewline;
  }

  lemma ConfigInverts(d: Decl, rest: seq<Token>, errs: seq<ParseError>)
    requires d.ConfigDecl? && PrintableDecl(d) && LineStart(rest)
    ensures DeclReads(d, State(DeclTokens(d) + rest, errs), rest)
  {
    var ConfigDecl(name, typ, options, default) := d;
    var tail := DefaultTail(default, rest);
    var inner := TypeTail(typ, OptionTail(typ, options, tail));
    var s := State(DeclTokens(d) + rest, errs);
    ConfigTokensSplit(d, rest);
    TwoTokens(Token(KW_CONFIG, "CONFIG"), IdentToken(name), inner);
    assert typ == Untyped ==> tail[0].typ == ASSIGN;
    hide DeclTokens, TypeTail, OptionTail, DefaultTail, TryDeclaration, ParseConfigType, ParseLiteralValue, IsName;
    TypeAt(typ, options, tail, errs);
    DefaultAt(default, rest, errs);
    NewlineAt(rest, errs);
    ConfigStep(s, Parsed(name, State(inner, errs)), Parsed((typ, options), State(tail, errs)),
               Parsed(default, State([NL] + rest, errs)));
  }

  // ---------------------------------------------------------------- ENV

  lemma EnvSourceSplit(d: Decl, keyword: Token, rest: seq<Token>)
    requires d.EnvDecl? && d.source != Fixed
    requires keyword == if d.source == SecretSource then Token(KW_SECRET, "SECRET") else Token(KW_TEXT, "TEXT")
    ensures DeclTokens(d) + rest == [Token(KW_ENV, "ENV"), IdentToken(d.name)] +
      ([keyword] + ((if d.optional then [Token(KW_OPTIONAL, "OPTIONAL")] else []) + ([NL] + rest)))
  {
    var head := [Token(KW_ENV, "ENV"), IdentToken(d.name)];
    var optional := if d.optional then [Token(KW_OPTIONAL, "OPTIONAL")] else [];
    assert DeclTokens(d) == head + ([keyword] + optional + [NL]) by { hide ExprTokens, GuardTokens, LineEnd; }
    hide DeclTokens;
    FourParts(head, [keyword], optional, [NL], rest);
  }

  lemma EnvExprSplit(d: Decl, rest: seq<Token>)
    requires d.EnvDecl? && d.source == Fixed && d.valueExpr.Some?
    ensures DeclTokens(d) + rest == [Token(KW_ENV, "ENV"), IdentToken(d.name)] +
      ([Token(ASSIGN, "=")] + (ExprTokens(d.valueExpr.value) +
        (GuardTokens(d.guard) + (GuardEnd(d.guard, LineEnd(d.valueExpr.value)) + rest))))
  {
    hide ExprTokens, GuardTokens, LineEnd;
    var head, equals := [Token(KW_ENV, "ENV"), IdentToken(d.name)], [Token(ASSIGN, "=")];
    var e, guard, end := ExprTokens(d.valueExpr.value), GuardTokens(d.guard), GuardEnd(d.guard, LineEnd(d.valueExpr.value));
    assert DeclTokens(d) == head + (equals + e + guard + end);
    hide DeclTokens, GuardEnd;
    InnerParts(head, equals, e, guard, end, rest);
  }

  lemma InnerParts(a: seq<Token>, b: seq<Token>, c: seq<Token>, d: seq<Token>, e: seq<Token>, rest: seq<Token>)
    ensures a + (b + c + d + e) + rest == a + (b + (c + (d + (e + rest))))
  {}

  lemma FourParts(a: seq<Token>, b: seq<Token>, c: seq<Token>, d: seq<Token>, rest: seq<Token>)
    ensures a + (b + c + d) + rest == a + (b + (c + (d + rest)))
  {}

  lemma OptionalAt(optional: bool, tail: seq<Token>, errs: seq<ParseError>)
    requires tail != [] && tail[0].typ != KW_OPTIONAL
    ensures SkipOptional(State((if optional then [Token(KW_OPTIONAL, "OPTIONAL")] else []) + tail, errs)) ==
      Parsed(optional, State(tail, errs))
  {
    if optional { OneToken(Token(KW_OPTIONAL, "OPTIONAL"), tail); } else { assert [] + tail == tail; }
  }

  lemma EnvSourceStep(s: State, d: Decl, more: seq<Token>, rest: seq<Token>)
    requires d.EnvDecl? && d == EnvDecl(d.name, d.source, "", None, None, d.optional) && d.source != Fixed
    requires Kind(s) == KW_ENV && ExpectIdent(Advance(s)).val == d.name
    requires var t := ExpectIdent(Advance(s)).next;
      Kind(t) == (if d.source == SecretSource then KW_SECRET else KW_TEXT) && Advance(t) == State(more, s.errors)
    requires SkipOptional(State(more, s.errors)) == Parsed(d.optional, State([NL] + rest, s.errors))
    requires ExpectNewline(State([NL] + rest, s.errors)) == State(rest, s.errors)
    ensures DeclReads(d, s, rest)
  {
    hide TryDeclaration, ExpectIdent, SkipOptional, ExpectNewline, ParseEnvValue;
    DispatchLong(s);
  }

  lemma EnvSourceInverts(d: Decl, rest: seq<Token>, errs: seq<ParseError>)
    requires d.EnvDecl? && d == EnvDecl(d.name, d.source, "", None, None, d.optional)
    requires d.source != Fixed && LineStart(rest)
    ensures DeclReads(d, State(DeclTokens(d) + rest, errs), rest)
  {
    hide TryDeclaration, DeclTokens, ParseExpr, ParseEnvValue;
    var tail := [NL] + rest;
    NewlineAt(rest, errs);
    hide ExpectNewline, SkipNewlines, Stops, DeclReads;
    var more := (if d.optional then [Token(KW_OPTIONAL, "OPTIONAL")] else []) + tail;
    OptionalAt(d.optional, tail, errs);
    hide SkipOptional, LineStart;
    var keyword := if d.source == SecretSource then Token(KW_SECRET, "SECRET") else Token(KW_TEXT, "TEXT");
    EnvSourceSplit(d, keyword, rest);
    TwoTokens(Token(KW_ENV, "ENV"), IdentToken(d.name), [keyword] + more);
    OneToken(keyword, more);
    EnvSourceStep(State(DeclTokens(d) + rest, errs), d, more, rest);
  }

  lemma EnvValueStep(s: State, name: string, e: Parsed<Expr>, guard: Parsed<Option<Expr>>)
    requires ParseExpr(s) == e && ParseGuard(e.next) == guard
    requires e.val.StringLit? ==> guard.val.Some? || Kind(e.next) != KW_WHEN
    ensures ParseEnvValue(name, s) == Parsed(
      if e.val.StringLit? && guard.val.None? then EnvDecl(name, Fixed, e.val.str, None, None, false)
      else EnvDecl(name, Fixed, "", Some(e.val), guard.val, false), guard.next)
  {
    hide ParseExpr;
  }

  lemma EnvStep(s: State, name: Parsed<string>, value: Parsed<Decl>)
    requires Kind(s) == KW_ENV && ExpectIdent(Advance(s)) == name && Kind(name.next) == ASSIGN
    requires ParseEnvValue(name.val, Advance(name.next)) == value
    ensures TryDeclaration(s) == Some(Parsed(value.val, ExpectNewline(value.next)))
  {
    hide ExpectIdent, ParseEnvValue, ExpectNewline;
  }

  lemma EnvTextSplit(d: Decl, rest: seq<Token>)
    requires d.EnvDecl? && d.source == Fixed && d.valueExpr.None?
    ensures DeclTokens(d) + rest == [Token(KW_ENV, "ENV"), IdentToken(d.name)] +
      ([Token(ASSIGN, "=")] + ([StringToken(d.value)] + ([NL] + rest)))
  {
    hide ExprTokens, GuardTokens, LineEnd;
    var head := [Token(KW_ENV, "ENV"), IdentToken(d.name)];
    assert DeclTokens(d) == head + [Token(ASSIGN, "="), StringToken(d.value), NL];
    hide DeclTokens;
    ConcatAssociates(head, [Token(ASSIGN, "="), StringToken(d.value), NL], rest);
    LineTail(Token(ASSIGN, "="), StringToken(d.value), rest);
  }

  lemma EnvTextInverts(d: Decl, rest: seq<Token>, errs: seq<ParseError>)
    requires d.EnvDecl? && d == EnvDecl(d.name, Fixed, d.value, None, None, false) && LineStart(rest)
    ensures DeclReads(d, State(DeclTokens(d) + rest, errs), rest)
  {
    var end := [NL] + rest;
    var e := StringLit(d.value);
    var value := [StringToken(d.value)] + end;
    assert ExprTokens(e) == [StringToken(d.value)];
    hide DeclTokens, ExprTokens;
    EnvTextSplit(d, rest);
    TwoTokens(Token(KW_ENV, "ENV"), IdentToken(d.name), [Token(ASSIGN, "=")] + value);
    OneToken(Token(ASSIGN, "="), value);
    NewlineAt(rest, errs);
    ExprAt(e, end, errs);
    hide ExpectNewline, ParseExpr, TryDeclaration, ParseEnvValue, SkipNewlines, Stops, LineStart;
    EnvValueStep(State(value, errs), d.name, Parsed(e, State(end, errs)), Parsed(None, State(end, errs)));
    EnvStep(State(DeclTokens(d) + rest, errs), Parsed(d.name, State([Token(ASSIGN, "=")] + value, errs)),
            Parsed(d, State(end, errs)));
  }

  lemma EnvExprInverts(d: Decl, e: Expr, rest: seq<Token>, errs: seq<ParseError>)
    requires d.EnvDecl? && d == EnvDecl(d.name, Fixed, "", Some(e), d.guard, false)
    requires !(e.StringLit? && d.guard.None?) && Respects(e) && GuardRespects(d.guard) && LineStart(rest)
    ensures DeclReads(d, State(DeclTokens(d) + rest, errs), rest)
  {
    hide ExprTokens, LineEnd, GuardTokens, GuardEnd, Respects, DeclTokens, LineStart,
         ExpectNewline, ParseExpr, TryDeclaration, ParseEnvValue, ParseGuard;
    var plain := LineEnd(e);
    var tail := GuardTokens(d.guard) + (GuardEnd(d.guard, plain) + rest);
    var value := ExprTokens(e) + tail;
    EnvExprSplit(d, rest);
    TwoTokens(Token(KW_ENV, "ENV"), IdentToken(d.name), [Token(ASSIGN, "=")] + value);
    OneToken(Token(ASSIGN, "="), value);
    PlainEnd(e, 0);
    TailStart(d.guard, plain, rest);
    ExprAt(e, tail, errs);
    GuardAt(d.guard, plain, rest, errs);
    NoGuardAhead(d.guard, plain, rest);
    hide Stops, GuardRespects;
    var guard := ParseGuard(State(tail, errs));
    EnvValueStep(State(value, errs), d.name, Parsed(e, State(tail, errs)), guard);
    EnvStep(State(DeclTokens(d) + rest, errs), Parsed(d.name, State([Token(ASSIGN, "=")] + value, errs)),
            Parsed(d, guard.next));
  }

  lemma NoGuardAhead(guard: Option<Expr>, plain: seq<Token>, rest: seq<Token>)
    requires LineStart(rest) && (plain == [] || plain == [NL])
    ensures var tail := GuardTokens(guard) + (GuardEnd(guard, plain) + rest);
      guard.None? && tail != [] ==> tail[0].typ != KW_WHEN
  {
    hide ExprTokens, LineEnd;
    if guard.None? {
      assert [] + (plain + rest) == plain + rest;
      if plain == [] {
        assert [] + rest == rest;
      }
    }
  }

  // ---------------------------------------------------------------- MCP, SETUP, MODE

  lemma McpTokens(d: Decl, switch: Token, rest: seq<Token>)
    requires d.McpDecl? && (d.format == "" || d.enabled)
    requires switch == if d.enabled then Token(KW_ON, "ON") else Token(KW_OFF, "OFF")
    ensures DeclTokens(d) + rest == [Token(KW_MCP, "MCP"), switch] +
      if d.format != "" then [IdentToken("FORMAT"), IdentToken(d.format)] + ([NL] + rest) else [NL] + rest
  {
    if d.format == "" {
      assert DeclTokens(d) == [Token(KW_MCP, "MCP"), switch, NL];
    }
  }

  lemma McpInverts(d: Decl, rest: seq<Token>, errs: seq<ParseError>)
    requires d.McpDecl? && (d.format == "" || d.enabled) && LineStart(rest)
    ensures DeclReads(d, State(DeclTokens(d) + rest, errs), rest)
  {
    hide TryDeclaration, DeclTokens, DeclReads;
    var end := [NL] + rest;
    var switch := if d.enabled then Token(KW_ON, "ON") else Token(KW_OFF, "OFF");
    NewlineAt(rest, errs);
    hide ExpectNewline, SkipNewlines, Stops, LineStart;
    McpTokens(d, switch, rest);
    var more := [IdentToken("FORMAT"), IdentToken(d.format)] + end;
    TwoTokens(Token(KW_MCP, "MCP"), switch, if d.format != "" then more else end);
    TwoTokens(IdentToken("FORMAT"), IdentToken(d.format), end);
    McpStep(State(DeclTokens(d) + rest, errs), d.enabled, d.format, if d.format != "" then more else end, rest);
  }

  lemma McpStep(s: State, enabled: bool, format: string, u: seq<Token>, rest: seq<Token>)
    requires Kind(s) == KW_MCP && Kind(Advance(s)) == (if enabled then KW_ON else KW_OFF)
    requires Advance(Advance(s)).rest == u && (format == "" || enabled)
    requires var end := [NL] + rest;
      && u != []
      && (if format != "" then u[0] == IdentToken("FORMAT") && u[1..] != [] && u[1..][0] == IdentToken(format) && u[1..][1..] == end
          else u == end)
      && ExpectNewline(State(end, s.errors)) == State(rest, s.errors)
    ensures DeclReads(McpDecl(enabled, format), s, rest)
  {
    hide TryDeclaration, ExpectNewline;
    DispatchLong(s);
  }

  function TimeoutTail(timeout: int, tail: seq<Token>): seq<Token> {
    if timeout == 300 then tail
    else [IdentToken("timeout"), Token(ASSIGN, "=")] + ([Token(NUMBER, DecimalText(timeout))] + tail)
  }

  lemma SetupTokensSplit(d: Decl, rest: seq<Token>)
    requires d.SetupDecl?
    ensures DeclTokens(d) + rest ==
      [Token(KW_SETUP, "SETUP")] + TimeoutTail(d.timeout, HeredocTokens(d.script) + rest)
  {
    hide HeredocTokens, DecimalText;
    var setup, script := [Token(KW_SETUP, "SETUP")], HeredocTokens(d.script);
    var number := Token(NUMBER, DecimalText(d.timeout));
    var timeout := [IdentToken("timeout"), Token(ASSIGN, "="), number];
    assert DeclTokens(d) == setup + (if d.timeout == 300 then [] else timeout) + script;
    hide DeclTokens;
    if d.timeout == 300 {
      ConcatAssociates(setup, script, rest);
      assert setup + [] + script == setup + script;
    } else {
      ConcatAssociates(setup + timeout, script, rest);
      ConcatAssociates(setup, timeout, script + rest);
      TwoItems(IdentToken("timeout"), Token(ASSIGN, "="), [number], script + rest);
      assert timeout == [IdentToken("timeout"), Token(ASSIGN, "=")] + [number];
    }
  }

  lemma TimeoutAt(timeout: int, tail: seq<Token>, errs: seq<ParseError>)
    requires 0 <= timeout <= MAX_INT64 && tail != [] && tail[0].typ == HEREDOC_START
    ensures ParseSetupTimeout(State(TimeoutTail(timeout, tail), errs)) == Parsed(timeout, State(tail, errs))
  {
    hide IntOf;
    if timeout != 300 {
      TimeoutReadsBack(timeout);
      var number := Token(NUMBER, DecimalText(timeout));
      TwoTokens(IdentToken("timeout"), Token(ASSIGN, "="), [number] + tail);
      OneToken(number, tail);
    }
    hide Numeral;
  }

  lemma SetupInverts(d: Decl, rest: seq<Token>, errs: seq<ParseError>)
    requires d.SetupDecl? && PrintableDecl(d) && LineStart(rest)
    ensures DeclReads(d, State(DeclTokens(d) + rest, errs), rest)
  {
    hide ChooseMarker, TryDeclaration;
    var tail := HeredocTokens(d.script) + rest;
    SetupTokensSplit(d, rest);
    OneToken(Token(KW_SETUP, "SETUP"), TimeoutTail(d.timeout, tail));
    TwoTokens(Token(HEREDOC_START, ChooseMarker(d.script)), Token(HEREDOC_BODY, d.script), rest);
    hide DeclTokens, TimeoutTail, ParseSetupTimeout, EndsInNewline, SkipNewlines;
    TimeoutAt(d.timeout, tail, errs);
    NewlineAt(rest, errs);
    DispatchLong(State(DeclTokens(d) + rest, errs));
  }

  lemma ModeLineTokens(d: Decl)
    requires d.ModeDecl?
    ensures DeclTokens(d) == [Token(KW_MODE, "MODE"), IdentToken(d.mode), NL]
  {}

  lemma ModeLineStep(s: State, mode: string, rest: seq<Token>)
    requires Kind(s) == KW_MODE && ExpectIdentOrString(Advance(s)) == Parsed(mode, State([NL] + rest, s.errors))
    requires (mode == "pty" || mode == "acp") && ExpectNewline(State([NL] + rest, s.errors)) == State(rest, s.errors)
    ensures DeclReads(ModeDecl(mode), s, rest)
  {
    hide TryDeclaration, ParseStrings, ExpectNewline, ExpectIdentOrString;
    DispatchLong(s);
  }

  lemma ModeLineInverts(d: Decl, rest: seq<Token>, errs: seq<ParseError>)
    requires d.ModeDecl? && (d.mode == "pty" || d.mode == "acp") && LineStart(rest)
    ensures DeclReads(d, State(DeclTokens(d) + rest, errs), rest)
  {
    hide TryDeclaration, DeclTokens, DeclReads;
    ModeLineTokens(d);
    NewlineAt(rest, errs);
    hide ExpectNewline, SkipNewlines, Stops, LineStart;
    LineTail(Token(KW_MODE, "MODE"), IdentToken(d.mode), rest);
    ModeLineStep(State(DeclTokens(d) + rest, errs), d.mode, rest);
  }

  lemma ModeArgsStep(s: State, mode: string, t: State, args: Parsed<seq<string>>, rest: seq<Token>)
    requires Kind(s) == KW_MODE && ExpectIdentOrString(Advance(s)) == Parsed(mode, t) && (mode == "pty" || mode == "acp")
    requires Kind(t) == STRING && ParseStrings([], t) == args && args.next.errors == s.errors
    requires ExpectNewline(args.next) == State(rest, s.errors)
    ensures DeclReads(ModeArgsDecl(mode, args.val), s, rest)
  {
    hide TryDeclaration, ParseStrings, ExpectNewline, ExpectIdentOrString;
    DispatchLong(s);
  }

  lemma ModeArgsTail(d: Decl, rest: seq<Token>)
    requires d.ModeArgsDecl? && d.args != []
    ensures var tail := StringTokens(d.args) + ([NL] + rest);
      && DeclTokens(d) + rest == [Token(KW_MODE, "MODE"), IdentToken(d.mode)] + tail
      && tail[0] == StringToken(d.args[0])
  {
    hide DeclTokens, SlugTokens, MountListTokens, CapabilityTokens, TargetToken;
    ListDeclTokens(d);
    var mode := Token(KW_MODE, "MODE");
    ConcatAssociates([mode, IdentToken(d.mode)] + StringTokens(d.args), [NL], rest);
    ConcatAssociates([mode, IdentToken(d.mode)], StringTokens(d.args), [NL] + rest);
  }

  lemma ModeArgsInverts(d: Decl, rest: seq<Token>, errs: seq<ParseError>)
    requires d.ModeArgsDecl? && (d.mode == "pty" || d.mode == "acp") && d.args != [] && LineStart(rest)
    ensures DeclReads(d, State(DeclTokens(d) + rest, errs), rest)
  {
    hide TryDeclaration, ParseStrings, DeclTokens, StringTokens, DeclReads;
    var mode := Token(KW_MODE, "MODE");
    var end := [NL] + rest;
    var tail := StringTokens(d.args) + end;
    ModeArgsTail(d, rest);
    TwoTokens(mode, IdentToken(d.mode), tail);
    NewlineAt(rest, errs);
    hide ExpectNewline, SkipNewlines, Stops, LineStart;
    StringsInvert(d.args, [], rest, errs);
    assert [] + d.args == d.args;
    ModeArgsStep(State(DeclTokens(d) + rest, errs), d.mode, State(tail, errs), Parsed(d.args, State(end, errs)), rest);
  }

  // ---------------------------------------------------------------- CAPABILITY

  function Pieces(axis: string, value: string): seq<string> {
    if axis == "control" then ControlPieces(value) else [value]
  }

  function ControlPieces(s: string): seq<string>
    decreases |s|
  {
    var n := WordEnd(s);
    if n == |s| then [s[..n]] else [s[..n], ","] + ControlPieces(s[n + 1..])
  }

  lemma {:induction false} WordEndAtComma(s: string)
    ensures WordEnd(s) < |s| ==> s[WordEnd(s)] == ','
  {
    if s != "" && s[0] != ',' { WordEndAtComma(s[1..]); }
  }

  lemma JoinTwo(a: string, b: string, more: seq<string>)
    requires more != []
    ensures Join([a, b] + more, "") == a + b + Join(more, "")
  {
    assert ([a, b] + more)[1..] == [b] + more && ([b] + more)[1..] == more;
  }

  lemma {:induction false} JoinPieces(s: string)
    ensures ControlPieces(s) != [] && Join(ControlPieces(s), "") == s
    decreases |s|
  {
    var n := WordEnd(s);
    WordEndAtComma(s);
    if n == |s| {
      assert s[..n] == s;
    } else {
      JoinPieces(s[n + 1..]);
      JoinTwo(s[..n], ",", ControlPieces(s[n + 1..]));
      assert s == s[..n] + "," + s[n + 1..];
    }
  }

  lemma PieceStep(acc: seq<string>, piece: string, tail: seq<Token>, errs: seq<ParseError>)
    requires IsCapabilityPiece(LookupIdent(piece))
    ensures ParsePieces(acc, State([Token(LookupIdent(piece), piece)] + tail, errs)) ==
      ParsePieces(acc + [piece], State(tail, errs))
  {
    hide LookupIdent;
    OneToken(Token(LookupIdent(piece), piece), tail);
  }

  lemma CommaStep(acc: seq<string>, tail: seq<Token>, errs: seq<ParseError>)
    ensures ParsePieces(acc, State([COMMA_TOKEN] + tail, errs)) == ParsePieces(acc + [","], State(tail, errs))
  {
    OneToken(COMMA_TOKEN, tail);
  }

  lemma PiecesDone(acc: seq<string>, rest: seq<Token>, errs: seq<ParseError>)
    ensures ParsePieces(acc, State([NL] + rest, errs)) == Parsed(acc, State([NL] + rest, errs))
  {}

  lemma {:induction false} ControlInverts(v: string, acc: seq<string>, rest: seq<Token>, errs: seq<ParseError>)
    requires PiecesOf(v)
    ensures ParsePieces(acc, State(ControlTokens(v) + ([NL] + rest), errs)) ==
      Parsed(acc + ControlPieces(v), State([NL] + rest, errs))
    decreases |v|
  {
    hide ParsePieces, LookupIdent, IsWord;
    var n, end := WordEnd(v), [NL] + rest;
    var word := v[..n];
    if n == |v| {
      PieceStep(acc, word, end, errs);
      PiecesDone(acc + [word], rest, errs);
    } else {
      var more := ControlTokens(v[n + 1..]) + end;
      assert ControlTokens(v) + end == [Token(LookupIdent(word), word)] + ([COMMA_TOKEN] + more);
      PieceStep(acc, word, [COMMA_TOKEN] + more, errs);
      CommaStep(acc + [word], more, errs);
      ControlInverts(v[n + 1..], acc + [word] + [","], rest, errs);
      assert acc + [word] + [","] + ControlPieces(v[n + 1..]) == acc + ControlPieces(v);
    }
  }

  lemma PiecesInvert(axis: string, value: string, rest: seq<Token>, errs: seq<ParseError>)
    requires PrintableCapability(axis, value)
    ensures var r := ParsePieces([], State(CapabilityTokens(axis, value) + ([NL] + rest), errs));
      r.next == State([NL] + rest, errs) && Join(r.val, if axis == "control" then "" else " ") == value
  {
    hide ParsePieces, LookupIdent, IsWord, ValidCapability, ToLower, IsName;
    if axis == "control" {
      ControlInverts(value, [], rest, errs);
      assert [] + ControlPieces(value) == ControlPieces(value);
      JoinPieces(value);
    } else {
      PieceStep([], value, [NL] + rest, errs);
      PiecesDone([] + [value], rest, errs);
    }
  }

  lemma CapabilityStep(s: State, name: string, pieces: Parsed<seq<string>>, rest: seq<Token>)
    requires Kind(s) == KW_CAPABILITY && ExpectIdent(Advance(s)).val == name && ToLower(name) == name
    requires ParsePieces([], ExpectIdent(Advance(s)).next) == pieces
    requires pieces.next == State([NL] + rest, s.errors) && ExpectNewline(pieces.next) == State(rest, s.errors)
    requires ValidCapability(name, Join(pieces.val, if name == "control" then "" else " "))
    ensures DeclReads(CapabilityDecl(name, Join(pieces.val, if name == "control" then "" else " ")), s, rest)
  {
    hide TryDeclaration, ExpectIdent, ParsePieces, ExpectNewline, ValidCapability, ToLower, Join;
    DispatchLong(s);
  }

  lemma CapabilitySplit(d: Decl, rest: seq<Token>)
    requires d.CapabilityDecl?
    ensures DeclTokens(d) + rest == [Token(KW_CAPABILITY, "CAPABILITY"), IdentToken(d.axis)] +
      (CapabilityTokens(d.axis, d.capability) + ([NL] + rest))
  {
    hide CapabilityTokens;
    var head, pieces := [Token(KW_CAPABILITY, "CAPABILITY"), IdentToken(d.axis)], CapabilityTokens(d.axis, d.capability);
    assert DeclTokens(d) == head + pieces + [NL];
    hide DeclTokens;
    assert head + pieces + [NL] + rest == head + (pieces + ([NL] + rest));
  }

  lemma CapabilityInverts(d: Decl, rest: seq<Token>, errs: seq<ParseError>)
    requires d.CapabilityDecl? && PrintableCapability(d.axis, d.capability) && LineStart(rest)
    ensures DeclReads(d, State(DeclTokens(d) + rest, errs), rest)
  {
    hide TryDeclaration, DeclTokens, CapabilityTokens, ValidCapability, ToLower, IsName, IsPiece, ParsePieces, PiecesOf,
         Join, DeclReads;
    var tail := CapabilityTokens(d.axis, d.capability) + ([NL] + rest);
    CapabilitySplit(d, rest);
    TwoTokens(Token(KW_CAPABILITY, "CAPABILITY"), IdentToken(d.axis), tail);
    PiecesInvert(d.axis, d.capability, rest, errs);
    NewlineAt(rest, errs);
    hide ExpectNewline, SkipNewlines, Stops, LineStart;
    CapabilityStep(State(DeclTokens(d) + rest, errs), d.axis, ParsePieces([], State(tail, errs)), rest);
  }

  // ---------------------------------------------------------------- all declarations

  /** What printing takes for granted, by kind of declaration. */
  lemma PrintableFacts(d: Decl)
    requires PrintableDecl(d)
    ensures d.EnvDecl? ==> PrintableEnv(d.source, d.value, d.valueExpr, d.guard, d.optional)
    ensures d.McpDecl? ==> d.format == "" || d.enabled
    ensures d.ModeDecl? ==> d.mode == "pty" || d.mode == "acp"
    ensures d.ModeArgsDecl? ==> (d.mode == "pty" || d.mode == "acp") && d.args != []
    ensures d.CapabilityDecl? ==> PrintableCapability(d.axis, d.capability)
    ensures d.KnowledgeDecl? ==> forall m | m in d.mounts :: m.mode == "ro" || m.mode == "rw"
  {
    hide PrintableEnv, PrintableCapability, IsName, IsWord, PrintableConfig, Printable, PrintableText, LookupIdent;
  }

  lemma EnvInverts(d: Decl, rest: seq<Token>, errs: seq<ParseError>)
    requires d.EnvDecl? && PrintableEnv(d.source, d.value, d.valueExpr, d.guard, d.optional)
    requires DeclRespects(d) && LineStart(rest)
    ensures DeclReads(d, State(DeclTokens(d) + rest, errs), rest)
  {
    hide DeclReads, LineStart, DeclTokens, Respects, Printable, PrintableGuard;
    if d.source != Fixed {
      EnvSourceInverts(d, rest, errs);
    } else if d.valueExpr.None? {
      EnvTextInverts(d, rest, errs);
    } else {
      EnvExprInverts(d, d.valueExpr.value, rest, errs);
    }
  }

  /** Whatever the declaration, its printed tokens are read back as it and nothing more is taken. */
  lemma DeclInverts(d: Decl, rest: seq<Token>, errs: seq<ParseError>)
    requires PrintableDecl(d) && DeclRespects(d) && LineStart(rest)
    ensures TryDeclaration(State(DeclTokens(d) + rest, errs)) == Some(Parsed(d, State(rest, errs)))
  {
    PrintableFacts(d);
    assert DeclReads(d, State(DeclTokens(d) + rest, errs), rest) by {
      hide DeclReads, LineStart, DeclTokens, PrintableDecl, PrintableEnv, PrintableCapability, Respects;
      match d
      case ConfigDecl(_, _, _, _) => ConfigInverts(d, rest, errs);
      case EnvDecl(_, _, _, _, _, _) => EnvInverts(d, rest, errs);
      case McpDecl(_, _) => McpInverts(d, rest, errs);
      case SetupDecl(_, _) => SetupInverts(d, rest, errs);
      case RemoveDecl(_, _) => RemoveInverts(d, rest, errs);
      case ModeDecl(_) => ModeLineInverts(d, rest, errs);
      case ModeArgsDecl(_, _) => ModeArgsInverts(d, rest, errs);
      case CapabilityDecl(_, _) => CapabilityInverts(d, rest, errs);
      case SkillsDecl(_) => SkillsInverts(d, rest, errs);
      case KnowledgeDecl(_) => KnowledgeInverts(d, rest, errs);
      case PromptDecl(_) => PromptInverts(d, rest, errs);
      case PromptPositionDecl(_) => PositionInverts(d, rest, errs);
      case RepoDecl(repo) => ExprDeclInverts(d, repo, rest, errs);
      case BranchDecl(branch) => ExprDeclInverts(d, branch, rest, errs);
      case _ => NamedDeclInverts(d, rest, errs);
    }
  }
}
