/** Printed statements, declarations and whole programs lex into exactly the tokens of their trees. */
module LexLines {
  import opened Text
  import opened Tokens
  import opened Ast
  import opened LexSpec
  import opened PrintSpec
  import opened PrintTokens
  import opened ParseSpec
  import opened LexWords
  import opened Keywords
  import opened LexPrinted

  // ---------------------------------------------------------------- statements that print as they stand

  predicate PrintableGuard(guard: Option<Expr>) { guard.Some? ==> Printable(guard.value, true) }

  predicate PrintableStmt(s: Stmt) {
    match s
    case ArgStmt(args, guard) => (forall a | a in args :: Printable(a, false)) && PrintableGuard(guard)
    case FileStmt(path, content, mode, guard) =>
      && Printable(path, false) && 0 <= mode <= MAX_INT64
      && Printable(content, mode == 0 && guard.None?) && PrintableGuard(guard)
    case MkdirStmt(path) => Printable(path, true)
    case AssignStmt(name, value) => IsName(name) && Printable(value, true)
    case IfStmt(condition, body, otherwise) =>
      && Printable(condition, false)
      && (forall t | t in body :: PrintableStmt(t))
      && (forall t | t in otherwise :: PrintableStmt(t))
    case ForStmt(key, val, iter, body) =>
      && IsName(key) && (val == "" || IsName(val)) && Printable(iter, false)
      && forall t | t in body :: PrintableStmt(t)
  }

  // ---------------------------------------------------------------- line ends

  lemma LexNewline(s: string)
    ensures Lexes("\n", [NL], s, s)
  {
    hide Lex;
    LexPunctuation('\n', s);
  }

  /** An expression at the end of a line takes the newline with it. */
  lemma LexLineEnd(e: Expr, s: string)
    requires Printable(e, true)
    ensures Lexes(ExprText(e), ExprTokens(e) + LineEnd(e), "\n" + s, s)
  {
    hide Lex, LookupIdent, ExprText, ExprTokens;
    LexExpr(e, true, "\n" + s);
    if EndsInHeredoc(e) {
      assert ("\n" + s)[1..] == s;
      assert ExprTokens(e) + [] == ExprTokens(e);
    } else {
      LexNewline(s);
      ConcatAssociates(ExprTokens(e), [NL], Lex(s));
    }
  }

  lemma LexEnd(text: string, tokens: seq<Token>, s: string)
    requires Lexes(text, tokens, "\n" + s, "\n" + s)
    ensures Lexes(text, tokens + [NL], "\n" + s, s)
  {
    hide Lex;
    LexNewline(s);
    ConcatAssociates(tokens, [NL], Lex(s));
  }

  /** An optional guard at the end of a line. */
  lemma LexGuardEnd(guard: Option<Expr>, s: string)
    requires PrintableGuard(guard)
    ensures Lexes(WhenText(guard), GuardTokens(guard) + (if guard.Some? then LineEnd(guard.value) else [NL]), "\n" + s, s)
  {
    hide Lex, ExprText, ExprTokens, LineEnd, Printable;
    if guard.Some? {
      var e := ExprText(guard.value);
      var rest := e + ("\n" + s);
      LexLineEnd(guard.value, s);
      LexSpacedKeyword("when", rest);
      assert " when " == " " + "when" + " ";
      Glue(" when ", [Token(KW_WHEN, "when")], e, ExprTokens(guard.value) + LineEnd(guard.value), "\n" + s, s);
      ConcatAssociates([Token(KW_WHEN, "when")], ExprTokens(guard.value), LineEnd(guard.value));
    } else {
      LexNewline(s);
      assert "" + ("\n" + s) == "\n" + s && [] + [NL] == [NL];
    }
  }

  lemma LexKeywordSpace(w: string, s: string)
    requires w in BUILD_KEYWORDS
    ensures Lexes(w + " ", [Token(BUILD_KEYWORDS[w], w)], s, s)
  {
    hide Lex, LookupIdent;
    LexBuildKeyword(w, " " + s);
    hide BUILD_KEYWORDS;
    GlueSpace(w, [Token(BUILD_KEYWORDS[w], w)], s);
  }

  lemma LexSpacedKeyword(w: string, s: string)
    requires w in BUILD_KEYWORDS
    ensures Lexes(" " + w + " ", [Token(BUILD_KEYWORDS[w], w)], s, s)
  {
    hide Lex, LookupIdent;
    LexKeywordSpace(w, s);
    LexSpace(w + " " + s);
    hide BUILD_KEYWORDS;
    assert " " + w + " " + s == " " + (w + " " + s);
  }

  lemma {:induction false} LexTabs(n: nat, s: string)
    ensures Lex(Tabs(n) + s) == Lex(s)
  {
    hide Scan;
    if n == 0 {
      assert Tabs(0) + s == s;
    } else {
      LexTabs(n - 1, s);
      assert (Tabs(n) + s)[1..] == Tabs(n - 1) + s;
    }
  }

  // ---------------------------------------------------------------- statements

  lemma {:induction false} LexSpaced(es: seq<Expr>, s: string)
    requires forall a | a in es :: Printable(a, false)
    requires s != "" && (s[0] == ' ' || s[0] == '\n')
    ensures Lexes(SpacedText(es), SpacedTokens(es), s, s)
  {
    hide Lex, LookupIdent, ExprText, ExprTokens;
    if es == [] {
      assert "" + s == s;
    } else {
      var more := SpacedText(es[1..]) + s;
      LexSpaced(es[1..], s);
      InnerHasNoHeredocEnd(es[0]);
      LexExpr(es[0], false, more);
      LexSpace(ExprText(es[0]) + more);
      assert " " + ExprText(es[0]) + more == " " + (ExprText(es[0]) + more);
      Glue(" " + ExprText(es[0]), ExprTokens(es[0]), SpacedText(es[1..]), SpacedTokens(es[1..]), s, s);
    }
  }

  lemma LexArg(st: Stmt, indent: nat, s: string)
    requires st.ArgStmt? && PrintableStmt(st)
    ensures Lexes(LineText(st, indent), StmtTokens(st), "\n" + s, s)
  {
    hide Lex, LookupIdent, ExprText, ExprTokens, SpacedText, SpacedTokens;
    var guard := WhenText(st.guard) + ("\n" + s);
    var end := if st.guard.Some? then LineEnd(st.guard.value) else [NL];
    LexGuardEnd(st.guard, s);
    assert guard[0] == '\n' || guard[0] == ' ';
    LexSpaced(st.args, guard);
    SpacedBreaks(st.args, guard);
    LexBuildKeyword("arg", SpacedText(st.args) + guard);
    hide WhenText, GuardTokens;
    Glue("arg", [Token(KW_ARG, "arg")], SpacedText(st.args), SpacedTokens(st.args), guard, guard);
    Glue("arg" + SpacedText(st.args), [Token(KW_ARG, "arg")] + SpacedTokens(st.args),
         WhenText(st.guard), GuardTokens(st.guard) + end, "\n" + s, s);
    ConcatAssociates([Token(KW_ARG, "arg")] + SpacedTokens(st.args), GuardTokens(st.guard), end);
  }

  lemma SpacedBreaks(es: seq<Expr>, s: string)
    requires s != "" && (s[0] == ' ' || s[0] == '\n')
    ensures Breaks(SpacedText(es) + s)
  {
    hide ExprText;
    if es == [] {
      assert "" + s == s;
    } else {
      assert (SpacedText(es) + s)[0] == ' ';
    }
  }

  lemma LexMode(mode: int, s: string)
    requires mode > 0 && s != "" && (s[0] == ' ' || s[0] == '\n')
    ensures Lexes(ModeText(mode), ModeTokens(mode), s, s)
  {
    hide Lex;
    var digits := "0" + Numeral(mode, 8);
    LexNumber(digits, s);
    LexSpace(digits + s);
    hide Numeral;
    assert " 0" + Numeral(mode, 8) == " " + digits;
    assert " " + digits + s == " " + (digits + s);
  }

  /** What follows the content of a file statement: its mode, its guard and the end of the line. */
  lemma LexFileTail(st: Stmt, s: string)
    requires st.FileStmt? && PrintableStmt(st)
    ensures Lexes(ExprText(st.content) + ModeText(st.mode) + WhenText(st.guard),
                  ExprTokens(st.content) + ModeTokens(st.mode) + GuardTokens(st.guard) +
                  (if st.guard.Some? then LineEnd(st.guard.value) else if st.mode > 0 then [NL] else LineEnd(st.content)),
                  "\n" + s, s)
  {
    hide Lex, LookupIdent, ExprText, ExprTokens, LineEnd;
    var FileStmt(_, content, mode, guard) := st;
    var text, tokens := ExprText(content), ExprTokens(content);
    if mode == 0 && guard.None? {
      LexLineEnd(content, s);
      assert text + "" + "" == text && tokens + [] + [] == tokens;
    } else {
      var end := if guard.Some? then LineEnd(guard.value) else [NL];
      var tail := WhenText(guard) + ("\n" + s);
      assert tail[0] == ' ' || tail[0] == '\n';
      LexGuardEnd(guard, s);
      InnerHasNoHeredocEnd(content);
      if mode > 0 {
        LexMode(mode, tail);
        assert (ModeText(mode) + tail)[0] == ' ';
        LexExpr(content, false, ModeText(mode) + tail);
        hide ModeText, ModeTokens;
        Glue(text, tokens, ModeText(mode), ModeTokens(mode), tail, tail);
      } else {
        LexExpr(content, false, tail);
        assert text + "" == text && tokens + [] == tokens;
      }
      hide WhenText, GuardTokens, ModeText, ModeTokens;
      Glue(text + ModeText(mode), tokens + ModeTokens(mode), WhenText(guard), GuardTokens(guard) + end, "\n" + s, s);
      ConcatAssociates(tokens + ModeTokens(mode), GuardTokens(guard), end);
    }
  }

  lemma FileParts(st: Stmt, indent: nat)
    requires st.FileStmt?
    ensures var FileStmt(path, content, mode, guard) := st;
      LineText(st, indent) == "file" + " " + (ExprText(path) + " " + (ExprText(content) + ModeText(mode) + WhenText(guard)))
    ensures var FileStmt(path, content, mode, guard) := st;
      var end := if guard.Some? then LineEnd(guard.value) else if mode > 0 then [NL] else LineEnd(content);
      StmtTokens(st) == [Token(KW_FILE, "file")] + (ExprTokens(path) + (ExprTokens(content) + ModeTokens(mode) + GuardTokens(guard) + end))
  {
    hide ExprText, ExprTokens, LineEnd, ModeText, ModeTokens, WhenText, GuardTokens;
    assert "file" + " " == "file ";
  }

  lemma LexFile(st: Stmt, indent: nat, s: string)
    requires st.FileStmt? && PrintableStmt(st)
    ensures Lexes(LineText(st, indent), StmtTokens(st), "\n" + s, s)
  {
    hide Lex, LookupIdent, ExprText, ExprTokens, LineEnd, ModeText, ModeTokens, WhenText, GuardTokens, LineText, StmtTokens;
    var FileStmt(path, content, mode, guard) := st;
    var c := ExprText(content) + ModeText(mode) + WhenText(guard);
    var end := if guard.Some? then LineEnd(guard.value) else if mode > 0 then [NL] else LineEnd(content);
    var tc := ExprTokens(content) + ModeTokens(mode) + GuardTokens(guard) + end;
    var tail := c + ("\n" + s);
    LexFileTail(st, s);
    InnerHasNoHeredocEnd(path);
    LexExpr(path, false, " " + tail);
    GlueSpace(ExprText(path), ExprTokens(path), tail);
    Glue(ExprText(path) + " ", ExprTokens(path), c, tc, "\n" + s, s);
    var all := ExprText(path) + " " + c;
    LexKeywordSpace("file", all + ("\n" + s));
    assert "file" + " " == "file ";
    Glue("file ", [Token(KW_FILE, "file")], all, ExprTokens(path) + tc, "\n" + s, s);
    FileParts(st, indent);
  }

  lemma LexMkdir(st: Stmt, indent: nat, s: string)
    requires st.MkdirStmt? && PrintableStmt(st)
    ensures Lexes(LineText(st, indent), StmtTokens(st), "\n" + s, s)
  {
    hide Lex, LookupIdent, ExprText, ExprTokens, LineEnd;
    LexLineEnd(st.path, s);
    LexKeywordSpace("mkdir", ExprText(st.path) + ("\n" + s));
    assert "mkdir" + " " == "mkdir ";
    Glue("mkdir ", [Token(KW_MKDIR, "mkdir")], ExprText(st.path), ExprTokens(st.path) + LineEnd(st.path), "\n" + s, s);
    ConcatAssociates([Token(KW_MKDIR, "mkdir")], ExprTokens(st.path), LineEnd(st.path));
  }

  lemma LexSpacedEquals(s: string)
    ensures Lexes(" = ", [Token(ASSIGN, "=")], s, s)
  {
    hide Lex;
    LexPunctuation('=', " " + s);
    LexSpace("=" + (" " + s));
    GlueSpace("=", [Token(ASSIGN, "=")], s);
    assert " = " + s == " " + ("=" + (" " + s)) && "=" + " " + s == "=" + (" " + s);
  }

  lemma LexAssign(st: Stmt, indent: nat, s: string)
    requires st.AssignStmt? && PrintableStmt(st)
    ensures Lexes(LineText(st, indent), StmtTokens(st), "\n" + s, s)
  {
    hide Lex, LookupIdent, ExprText, ExprTokens, LineEnd;
    var AssignStmt(name, value) := st;
    var v := ExprText(value) + ("\n" + s);
    LexLineEnd(value, s);
    LexSpacedEquals(v);
    assert (" = " + v)[0] == ' ';
    LexName(name, " = " + v);
    Glue(name, [IdentToken(name)], " = ", [Token(ASSIGN, "=")], v, v);
    assert [IdentToken(name)] + [Token(ASSIGN, "=")] == [IdentToken(name), Token(ASSIGN, "=")];
    Glue(name + " = ", [IdentToken(name), Token(ASSIGN, "=")], ExprText(value), ExprTokens(value) + LineEnd(value),
         "\n" + s, s);
    ConcatAssociates([IdentToken(name), Token(ASSIGN, "=")], ExprTokens(value), LineEnd(value));
  }

  // ---------------------------------------------------------------- blocks

  lemma {:induction false} LexStmt(st: Stmt, indent: nat, s: string)
    requires PrintableStmt(st)
    ensures Lexes(StmtText(st, indent), StmtTokens(st), "\n" + s, s)
    decreases st, 1
  {
    hide Lex, LookupIdent, LineText, StmtTokens, Tabs;
    match st {
      case ArgStmt(_, _) => LexArg(st, indent, s);
      case FileStmt(_, _, _, _) => LexFile(st, indent, s);
      case MkdirStmt(_) => LexMkdir(st, indent, s);
      case AssignStmt(_, _) => LexAssign(st, indent, s);
      case IfStmt(_, _, _) => LexIf(st, indent, s);
      case ForStmt(_, _, _, _) => LexFor(st, indent, s);
    }
    var line := LineText(st, indent);
    LexTabs(indent, line + ("\n" + s));
    ConcatAssociates(Tabs(indent), line, "\n" + s);
  }

  lemma {:induction false} LexStmts(ss: seq<Stmt>, indent: nat, s: string)
    requires forall t | t in ss :: PrintableStmt(t)
    ensures Lexes(LinesText(ss, indent), LinesTokens(ss), s, s)
    decreases ss, 0
  {
    hide Lex, LookupIdent, StmtText, StmtTokens;
    if ss == [] {
      assert "" + s == s;
    } else {
      var more := LinesText(ss[1..], indent) + s;
      LexStmts(ss[1..], indent, s);
      LexStmt(ss[0], indent, more);
      ConcatAssociates(StmtText(ss[0], indent), "\n", more);
      Glue(StmtText(ss[0], indent) + "\n", StmtTokens(ss[0]), LinesText(ss[1..], indent), LinesTokens(ss[1..]), s, s);
    }
  }

  lemma {:induction false} LexBlock(ss: seq<Stmt>, indent: nat, s: string)
    requires forall t | t in ss :: PrintableStmt(t)
    ensures Lexes(BlockText(ss, indent), BlockTokens(ss), s, s)
    decreases ss, 1
  {
    hide Lex, LookupIdent, LinesText, LinesTokens, Tabs;
    var lines := LinesText(ss, indent + 1);
    var close := Tabs(indent) + ("}" + s);
    var inner := lines + close;
    LexPunctuation('}', s);
    LexTabs(indent, "}" + s);
    LexStmts(ss, indent + 1, close);
    LexOpenBrace(inner);
    Glue(" {\n", [Token(LBRACE, "{"), NL], lines, LinesTokens(ss), close, close);
    var text, tokens := " {\n" + lines, [Token(LBRACE, "{"), NL] + LinesTokens(ss);
    ConcatAssociates(text, Tabs(indent), "}" + s);
    assert Lexes(text + Tabs(indent), tokens, "}" + s, "}" + s);
    Glue(text + Tabs(indent), tokens, "}", [Token(RBRACE, "}")], s, s);
  }

  lemma LexOpenBrace(s: string)
    ensures Lexes(" {\n", [Token(LBRACE, "{"), NL], s, s)
  {
    hide Lex;
    LexNewline(s);
    LexPunctuation('{', "\n" + s);
    LexSpace("{" + ("\n" + s));
    assert " {\n" + s == " " + ("{" + ("\n" + s));
    ConcatAssociates([Token(LBRACE, "{")], [NL], Lex(s));
    assert [Token(LBRACE, "{")] + [NL] == [Token(LBRACE, "{"), NL];
  }

  lemma {:induction false} LexIf(st: Stmt, indent: nat, s: string)
    requires st.IfStmt? && PrintableStmt(st)
    ensures Lexes(LineText(st, indent), StmtTokens(st), "\n" + s, s)
    decreases st, 0
  {
    hide Lex, LookupIdent, ExprText, ExprTokens, BlockTokens;
    var IfStmt(condition, body, otherwise) := st;
    var end := "\n" + s;
    var elseText := if otherwise == [] then "" else " else" + BlockText(otherwise, indent);
    var elseTokens := if otherwise == [] then [] else [Token(KW_ELSE, "else")] + BlockTokens(otherwise);
    if otherwise == [] {
      assert "" + end == end;
    } else {
      LexBlock(otherwise, indent, end);
      LexElse(BlockText(otherwise, indent), end);
      assert Breaks(BlockText(otherwise, indent) + end);
      Glue(" else", [Token(KW_ELSE, "else")], BlockText(otherwise, indent), BlockTokens(otherwise), end, end);
    }
    assert Lexes(elseText, elseTokens, end, end);
    LexBlock(body, indent, elseText + end);
    InnerHasNoHeredocEnd(condition);
    assert (BlockText(body, indent) + (elseText + end))[0] == ' ';
    LexExpr(condition, false, BlockText(body, indent) + (elseText + end));
    hide BlockText;
    LexKeywordSpace("if", ExprText(condition) + (BlockText(body, indent) + (elseText + end)));
    assert "if" + " " == "if ";
    Bracket("if ", [Token(KW_IF, "if")], ExprText(condition), ExprTokens(condition),
            BlockText(body, indent), BlockTokens(body), elseText + end);
    Glue("if " + ExprText(condition) + BlockText(body, indent), [Token(KW_IF, "if")] + ExprTokens(condition) + BlockTokens(body),
         elseText, elseTokens, end, end);
    LexEnd(LineText(st, indent), [Token(KW_IF, "if")] + ExprTokens(condition) + BlockTokens(body) + elseTokens, s);
  }

  lemma LexElse(block: string, s: string)
    requires Breaks(block + s)
    ensures Lexes(" else", [Token(KW_ELSE, "else")], block + s, block + s)
  {
    hide Lex, LookupIdent;
    LexBuildKeyword("else", block + s);
    LexSpace("else" + (block + s));
    assert " else" + (block + s) == " " + ("else" + (block + s));
  }

  lemma {:induction false} LexFor(st: Stmt, indent: nat, s: string)
    requires st.ForStmt? && PrintableStmt(st)
    ensures Lexes(LineText(st, indent), StmtTokens(st), "\n" + s, s)
    decreases st, 0
  {
    hide Lex, LookupIdent, ExprText, ExprTokens, BlockTokens;
    var ForStmt(key, val, iter, body) := st;
    var end := "\n" + s;
    var block := BlockText(body, indent) + end;
    LexBlock(body, indent, end);
    InnerHasNoHeredocEnd(iter);
    assert block[0] == ' ';
    LexExpr(iter, false, block);
    hide BlockText;
    var valText := if val == "" then "" else ", " + val;
    var valTokens := if val == "" then [] else [COMMA_TOKEN, IdentToken(val)];
    LexForHead(key, val, ExprText(iter) + block);
    var head, headTokens := "for " + key + valText + " in ",
      [Token(KW_FOR, "for"), IdentToken(key)] + valTokens + [Token(KW_IN, "in")];
    Bracket(head, headTokens, ExprText(iter), ExprTokens(iter), BlockText(body, indent), BlockTokens(body), end);
    LexEnd(LineText(st, indent), headTokens + ExprTokens(iter) + BlockTokens(body), s);
  }

  lemma LexForHead(key: string, val: string, s: string)
    requires IsName(key) && (val == "" || IsName(val))
    ensures Lexes("for " + key + (if val == "" then "" else ", " + val) + " in ",
                  [Token(KW_FOR, "for"), IdentToken(key)] +
                  (if val == "" then [] else [COMMA_TOKEN, IdentToken(val)]) + [Token(KW_IN, "in")], s, s)
  {
    hide Lex, LookupIdent;
    var tail := " in " + s;
    var valText := if val == "" then "" else ", " + val;
    var valTokens := if val == "" then [] else [COMMA_TOKEN, IdentToken(val)];
    LexSpacedKeyword("in", s);
    assert " in " == " " + "in" + " ";
    assert tail[0] == ' ';
    if val == "" {
      assert "" + tail == tail;
    } else {
      LexName(val, tail);
      LexCommaSpace(val + tail);
      Glue(", ", [COMMA_TOKEN], val, [IdentToken(val)], tail, tail);
      assert [COMMA_TOKEN] + [IdentToken(val)] == [COMMA_TOKEN, IdentToken(val)];
      assert (valText + tail)[0] == ',';
    }
    LexName(key, valText + tail);
    LexKeywordSpace("for", key + (valText + tail));
    assert "for" + " " == "for ";
    Glue("for ", [Token(KW_FOR, "for")], key, [IdentToken(key)], valText + tail, valText + tail);
    assert [Token(KW_FOR, "for")] + [IdentToken(key)] == [Token(KW_FOR, "for"), IdentToken(key)];
    Bracket("for " + key, [Token(KW_FOR, "for"), IdentToken(key)], valText, valTokens, " in ", [Token(KW_IN, "in")], s);
  }
}
