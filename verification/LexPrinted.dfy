/** Printed expressions and statements lex into exactly the tokens of their trees. */
module LexPrinted {
  import opened Text
  import opened Tokens
  import opened Ast
  import opened LexSpec
  import opened PrintSpec
  import opened PrintTokens
  import opened LexWords
  import opened Keywords

  predicate EndsInNumber(e: Expr) {
    match e
    case NumberLit(_) => true
    case Binary(_, _, r) => EndsInNumber(r)
    case Not(x) => EndsInNumber(x)
    case _ => false
  }

  predicate EndsInNewline(s: string) { s != "" && s[|s| - 1] == '\n' }

  /** Every bare name is a name, and a heredoc is the last thing on its line. */
  predicate Printable(e: Expr, last: bool) {
    match e
    case StringLit(_) => true
    case NumberLit(n) => IsNumberText(n)
    case BoolLit(_) => true
    case Ident(n) => IsName(n)
    case Dot(l, f) => Printable(l, false) && !EndsInNumber(l) && IsName(f)
    case Binary(l, _, r) => Printable(l, false) && Printable(r, last)
    case Not(x) => Printable(x, last)
    case Call(f, args) => IsName(f) && forall a | a in args :: Printable(a, false)
    case ObjectLit(fields) => forall f | f in fields :: IsName(f.key) && Printable(f.value, false)
    case Heredoc(content) => last && !EndsInNewline(content)
    case ListLit(elements) => forall a | a in elements :: Printable(a, false)
  }

  lemma {:induction false} InnerHasNoHeredocEnd(e: Expr)
    requires Printable(e, false)
    ensures !EndsInHeredoc(e)
  {
    match e
    case Binary(_, _, r) => InnerHasNoHeredocEnd(r);
    case Not(x) => InnerHasNoHeredocEnd(x);
    case _ =>
  }

  /** What may follow an expression, and what the lexer leaves of it. */
  predicate Follows(e: Expr, s: string) {
    && Breaks(s)
    && (EndsInNumber(e) && s != "" ==> s[0] != '.')
    && (EndsInHeredoc(e) ==> s != "" && s[0] == '\n')
  }

  function After(e: Expr, s: string): string
    requires Follows(e, s)
  {
    if EndsInHeredoc(e) then s[1..] else s
  }

  // ---------------------------------------------------------------- words of the language

  lemma LexBool(b: bool, s: string)
    requires Breaks(s)
    ensures Lex((if b then "true" else "false") + s) == [BoolToken(b)] + Lex(s)
  {
    hide Lex, LookupIdent;
    LexBuildKeyword(if b then "true" else "false", s);
  }

  lemma LexOperator(op: BinOp, s: string)
    requires Breaks(s)
    requires s != "" && s[0] == ' '
    ensures Lex(OpText(op) + s) == [OpToken(op)] + Lex(s)
  {
    hide Lex, LookupIdent;
    match op
    case Or => LexBuildKeyword("or", s);
    case And => LexBuildKeyword("and", s);
    case Plus => LexPunctuation('+', s);
    case Eq => LexEqual(s);
    case Neq => LexEqual(s);
  }

  lemma LexNot(s: string)
    ensures Lex("not " + s) == [Token(KW_NOT, "not")] + Lex(s)
  {
    hide Lex, LookupIdent;
    LexBuildKeyword("not", " " + s);
    LexSpace(s);
    assert "not " + s == "not" + (" " + s);
  }

  // ---------------------------------------------------------------- gluing pieces

  /** Before s, the text lexes into the tokens and the lexer goes on at t. */
  ghost predicate Lexes(text: string, tokens: seq<Token>, s: string, t: string) {
    Lex(text + s) == tokens + Lex(t)
  }

  lemma Glue(a: string, ta: seq<Token>, b: string, tb: seq<Token>, s: string, t: string)
    requires Lexes(a, ta, b + s, b + s) && Lexes(b, tb, s, t)
    ensures Lexes(a + b, ta + tb, s, t)
  {
    hide Lex;
    ConcatAssociates(a, b, s);
    ConcatAssociates(ta, tb, Lex(t));
  }

  lemma GlueSpace(a: string, ta: seq<Token>, s: string)
    requires Lexes(a, ta, " " + s, " " + s)
    ensures Lexes(a + " ", ta, s, s)
  {
    hide Lex;
    LexSpace(s);
    ConcatAssociates(a, " ", s);
  }

  lemma LexCommaSpace(s: string)
    ensures Lexes(", ", [COMMA_TOKEN], s, s)
  {
    hide Lex;
    LexPunctuation(',', " " + s);
    GlueSpace(",", [COMMA_TOKEN], s);
    assert "," + " " == ", ";
  }

  // ---------------------------------------------------------------- expressions

  lemma {:induction false} LexExpr(e: Expr, last: bool, s: string)
    requires Printable(e, last) && Follows(e, s)
    ensures Lexes(ExprText(e), ExprTokens(e), s, After(e, s))
    decreases e, 1
  {
    hide Lex, LookupIdent, ChooseMarker;
    match e
    case StringLit(v) => LexQuoted(v, s);
    case NumberLit(n) => LexNumber(n, s);
    case BoolLit(b) => LexBool(b, s);
    case Ident(n) => LexName(n, s);
    case Dot(l, f) => LexDot(e, s);
    case Binary(l, op, r) => LexBinary(e, last, s);
    case Not(x) =>
      LexExpr(x, last, s);
      LexNot(ExprText(x) + s);
      Glue("not ", [Token(KW_NOT, "not")], ExprText(x), ExprTokens(x), s, After(e, s));
    case Call(f, args) => LexCall(e, s);
    case ObjectLit(fields) => LexObject(e, s);
    case ListLit(elements) =>
      LexPunctuation(']', s);
      LexList(elements, "]" + s);
      LexPunctuation('[', ListText(elements) + ("]" + s));
      Bracket("[", [Token(LBRACKET, "[")], ListText(elements), ListTokens(elements), "]", [Token(RBRACKET, "]")], s);
    case Heredoc(content) =>
      LexHeredoc(content, s[1..]);
      assert s == "\n" + s[1..];
  }

  lemma Bracket(a: string, ta: seq<Token>, b: string, tb: seq<Token>, c: string, tc: seq<Token>, s: string)
    requires Lexes(a, ta, b + (c + s), b + (c + s)) && Lexes(b, tb, c + s, c + s) && Lexes(c, tc, s, s)
    ensures Lexes(a + b + c, ta + tb + tc, s, s)
  {
    hide Lexes;
    Glue(a, ta, b, tb, c + s, c + s);
    Glue(a + b, ta + tb, c, tc, s, s);
  }

  lemma {:induction false} LexDot(e: Expr, s: string)
    requires e.Dot? && Printable(e, false) && Breaks(s)
    ensures Lexes(ExprText(e), ExprTokens(e), s, s)
    decreases e, 0
  {
    hide Lex, LookupIdent;
    InnerHasNoHeredocEnd(e.left);
    LexName(e.field, s);
    LexPunctuation('.', e.field + s);
    LexExpr(e.left, false, "." + (e.field + s));
    Bracket(ExprText(e.left), ExprTokens(e.left), ".", [Token(DOT, ".")], e.field, [IdentToken(e.field)], s);
    ConcatAssociates(ExprTokens(e.left), [Token(DOT, ".")], [IdentToken(e.field)]);
  }

  lemma {:induction false} LexBinary(e: Expr, last: bool, s: string)
    requires e.Binary? && Printable(e, last) && Follows(e, s)
    ensures Lexes(ExprText(e), ExprTokens(e), s, After(e, s))
    decreases e, 0
  {
    hide Lex, LookupIdent;
    var Binary(l, op, r) := e;
    var right := ExprText(r) + s;
    var middle := OpText(op) + (" " + right);
    InnerHasNoHeredocEnd(l);
    LexExpr(r, last, s);
    LexOperator(op, " " + right);
    LexExpr(l, false, " " + middle);
    hide Lexes, OpText, OpToken;
    GlueSpace(ExprText(l), ExprTokens(l), middle);
    GlueOperator(ExprText(l) + " ", ExprTokens(l), op, right);
    Glue(ExprText(l) + " " + OpText(op) + " ", ExprTokens(l) + [OpToken(op)], ExprText(r), ExprTokens(r), s, After(e, s));
  }

  lemma GlueOperator(a: string, ta: seq<Token>, op: BinOp, s: string)
    requires Lexes(a, ta, OpText(op) + (" " + s), OpText(op) + (" " + s))
    ensures Lexes(a + OpText(op) + " ", ta + [OpToken(op)], s, s)
  {
    hide Lex, OpText, OpToken;
    LexOperator(op, " " + s);
    Glue(a, ta, OpText(op), [OpToken(op)], " " + s, " " + s);
    GlueSpace(a + OpText(op), ta + [OpToken(op)], s);
  }

  lemma {:induction false} LexCall(e: Expr, s: string)
    requires e.Call? && Printable(e, false) && Breaks(s)
    ensures Lexes(ExprText(e), ExprTokens(e), s, s)
    decreases e, 0
  {
    hide Lex, LookupIdent;
    var inner := ListText(e.args) + (")" + s);
    LexPunctuation(')', s);
    LexList(e.args, ")" + s);
    LexPunctuation('(', inner);
    LexName(e.func, "(" + inner);
    Glue(e.func, [IdentToken(e.func)], "(", [Token(LPAREN, "(")], inner, inner);
    assert [IdentToken(e.func)] + [Token(LPAREN, "(")] == [IdentToken(e.func), Token(LPAREN, "(")];
    Bracket(e.func + "(", [IdentToken(e.func), Token(LPAREN, "(")], ListText(e.args), ListTokens(e.args),
            ")", [Token(RPAREN, ")")], s);
  }

  lemma {:induction false} LexObject(e: Expr, s: string)
    requires e.ObjectLit? && Printable(e, false) && Breaks(s)
    ensures Lexes(ExprText(e), ExprTokens(e), s, s)
    decreases e, 0
  {
    hide Lex, LookupIdent;
    LexPunctuation('}', s);
    if e.fields == [] {
      LexPunctuation('{', "}" + s);
      Glue("{", [Token(LBRACE, "{")], "}", [Token(RBRACE, "}")], s, s);
      assert ExprText(e) == "{" + "}";
    } else {
      LexFields(e.fields, " " + ("}" + s));
      LexBraces(FieldsText(e.fields), FieldTokens(e.fields), s);
    }
  }

  lemma LexBraces(text: string, tokens: seq<Token>, s: string)
    requires Lexes(text, tokens, " " + ("}" + s), " " + ("}" + s))
    ensures Lexes("{ " + text + " }", [Token(LBRACE, "{")] + tokens + [Token(RBRACE, "}")], s, s)
  {
    hide Lex;
    LexPunctuation('}', s);
    GlueSpace(text, tokens, "}" + s);
    var inner := text + " " + ("}" + s);
    LexPunctuation('{', " " + inner);
    GlueSpace("{", [Token(LBRACE, "{")], inner);
    assert "{" + " " == "{ ";
    Bracket("{ ", [Token(LBRACE, "{")], text + " ", tokens, "}", [Token(RBRACE, "}")], s);
    assert "{ " + (text + " ") + "}" == "{ " + text + " }";
  }

  lemma {:induction false} LexList(es: seq<Expr>, s: string)
    requires forall a | a in es :: Printable(a, false)
    requires Breaks(s) && s != "" && s[0] != '.'
    ensures Lexes(ListText(es), ListTokens(es), s, s)
    decreases es, 0
  {
    hide Lex, LookupIdent;
    if es == [] {
      assert "" + s == s;
    } else {
      InnerHasNoHeredocEnd(es[0]);
      if |es| == 1 {
        LexExpr(es[0], false, s);
      } else {
        var more := ListText(es[1..]) + s;
        LexList(es[1..], s);
        LexCommaSpace(more);
        LexExpr(es[0], false, ", " + more);
        Bracket(ExprText(es[0]), ExprTokens(es[0]), ", ", [COMMA_TOKEN], ListText(es[1..]), ListTokens(es[1..]), s);
      }
    }
  }

  lemma {:induction false} LexFields(fs: seq<Field>, s: string)
    requires fs != [] && forall f | f in fs :: IsName(f.key) && Printable(f.value, false)
    requires Breaks(s) && s != "" && s[0] != '.'
    ensures Lexes(FieldsText(fs), FieldTokens(fs), s, s)
    decreases fs, 0
  {
    hide Lex, LookupIdent;
    var Field(key, value) := fs[0];
    InnerHasNoHeredocEnd(value);
    if |fs| == 1 {
      LexExpr(value, false, s);
      LexField(fs[0], s);
    } else {
      var more := FieldsText(fs[1..]) + s;
      LexFields(fs[1..], s);
      LexCommaSpace(more);
      LexExpr(value, false, ", " + more);
      LexField(fs[0], ", " + more);
      Bracket(key + ": " + ExprText(value), [IdentToken(key), Token(COLON, ":")] + ExprTokens(value),
              ", ", [COMMA_TOKEN], FieldsText(fs[1..]), FieldTokens(fs[1..]), s);
    }
  }

  lemma LexField(f: Field, s: string)
    requires IsName(f.key) && Lexes(ExprText(f.value), ExprTokens(f.value), s, s)
    ensures Lexes(f.key + ": " + ExprText(f.value), [IdentToken(f.key), Token(COLON, ":")] + ExprTokens(f.value), s, s)
  {
    hide Lex, LookupIdent, ExprText, ExprTokens;
    var value := ExprText(f.value) + s;
    LexPunctuation(':', " " + value);
    GlueSpace(":", [Token(COLON, ":")], value);
    assert ":" + " " == ": ";
    LexName(f.key, ": " + value);
    Bracket(f.key, [IdentToken(f.key)], ": ", [Token(COLON, ":")], ExprText(f.value), ExprTokens(f.value), s);
    assert [IdentToken(f.key)] + [Token(COLON, ":")] == [IdentToken(f.key), Token(COLON, ":")];
  }
}
