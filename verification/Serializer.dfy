/** The serializer as the program runs it: writers that append to a builder, each against the text it stands for. */
module Serializer {
  import opened Text
  import opened Ast
  import Spec = PrintSpec

  class Builder {
    var text: string

    constructor ()
      ensures text == ""
    {
      text := "";
    }

    method Write(s: string)
      modifies this
      ensures text == old(text) + s
    {
      text := text + s;
    }
  }

  // ---------------------------------------------------------------- strings and names

  lemma EscapeGoesOn(s: string, i: nat)
    requires i < |s|
    ensures Spec.Escape(s[i..]) == Spec.EscapeChar(s[i]) + Spec.Escape(s[i + 1..])
  {
    assert s[i..][1..] == s[i + 1..];
  }

  method QuoteString(s: string) returns (r: string)
    ensures r == Spec.QuoteString(s)
  {
    hide Spec.Escape;
    r := "\"";
    assert s[0..] == s;
    for i := 0 to |s|
      invariant r + Spec.Escape(s[i..]) == "\"" + Spec.Escape(s)
    {
      EscapeGoesOn(s, i);
      ConcatAssociates(r, Spec.EscapeChar(s[i]), Spec.Escape(s[i + 1..]));
      match s[i] {
        case '"' => r := r + "\\\"";
        case '\\' => r := r + "\\\\";
        case '\n' => r := r + "\\n";
        case '\t' => r := r + "\\t";
        case _ => r := r + [s[i]];
      }
    }
    EscapeOfNothing(s);
    r := r + "\"";
  }

  lemma EscapeOfNothing(s: string)
    ensures Spec.Escape(s[|s|..]) == ""
  {}

  method QuoteIfNeeded(s: string) returns (r: string)
    ensures r == Spec.QuoteIfNeeded(s)
  {
    hide Spec.QuoteString;
    if s == "" {
      r := QuoteString(s);
      return;
    }
    for i := 0 to |s|
      invariant forall k :: 0 <= k < i ==> Spec.IsIdentChar(s[k])
    {
      if !Spec.IsIdentChar(s[i]) {
        r := QuoteString(s);
        return;
      }
    }
    r := s;
  }

  lemma CandidatesAreMarkers()
    ensures forall i :: 0 <= i < |Spec.CANDIDATES| ==> Spec.IsMarker(Spec.CANDIDATES[i])
  {}

  /** The numbered fallback ends because the numbers outgrow the content. */
  method ChooseHeredocMarker(content: string) returns (m: string)
    ensures m == Spec.ChooseMarker(content)
    ensures !Contains(content, m) && Spec.IsMarker(m)
  {
    hide Contains, Pow10;
    CandidatesAreMarkers();
    hide Spec.IsMarker;
    for k := 0 to |Spec.CANDIDATES|
      invariant Spec.FirstAbsent(content, Spec.CANDIDATES[k..]) == Spec.ChooseMarker(content)
    {
      if !Contains(content, Spec.CANDIDATES[k]) { return Spec.CANDIDATES[k]; }
      assert Spec.CANDIDATES[k..][1..] == Spec.CANDIDATES[k + 1..];
    }
    var i := 0;
    while true
      invariant i <= Pow10(|content|)
      invariant Spec.FirstNumberedMarker(content, i) == Spec.ChooseMarker(content)
      decreases Pow10(|content|) - i
    {
      m := Spec.NumberedMarker(i);
      if !Contains(content, m) { return; }
      Spec.NumberedMarkersRunOut(content);
      i := i + 1;
    }
  }

  // ---------------------------------------------------------------- expressions

  ghost predicate AreTexts(texts: seq<string>, es: seq<Expr>) {
    |texts| == |es| && forall i :: 0 <= i < |es| ==> texts[i] == Spec.ExprText(es[i])
  }

  lemma {:induction false} JoinedList(texts: seq<string>, es: seq<Expr>)
    requires AreTexts(texts, es)
    ensures Join(texts, ", ") == Spec.ListText(es)
  {
    hide Spec.ExprText;
    if |es| > 1 { JoinedList(texts[1..], es[1..]); }
  }

  ghost predicate AreFieldTexts(texts: seq<string>, fs: seq<Field>) {
    |texts| == |fs| && forall i :: 0 <= i < |fs| ==> texts[i] == fs[i].key + ": " + Spec.ExprText(fs[i].value)
  }

  lemma {:induction false} JoinedFields(texts: seq<string>, fs: seq<Field>)
    requires AreFieldTexts(texts, fs)
    ensures Join(texts, ", ") == Spec.FieldsText(fs)
  {
    hide Spec.ExprText;
    if |fs| > 1 { JoinedFields(texts[1..], fs[1..]); }
  }

  method SerializeExpr(e: Expr) returns (r: string)
    ensures r == Spec.ExprText(e)
    decreases e, 1
  {
    hide Spec.ListText, Spec.FieldsText, Spec.QuoteString;
    match e {
      case StringLit(s) => r := QuoteString(s);
      case NumberLit(n) => r := n;
      case BoolLit(b) => r := if b then "true" else "false";
      case Ident(n) => r := n;
      case Dot(l, f) =>
        var left := SerializeExpr(l);
        r := left + "." + f;
      case Binary(l, op, x) =>
        var left := SerializeExpr(l);
        var right := SerializeExpr(x);
        r := left + " " + Spec.OpText(op) + " " + right;
      case Not(x) =>
        var operand := SerializeExpr(x);
        r := "not " + operand;
      case Call(f, args) =>
        var list := SerializeList(args);
        r := f + "(" + list + ")";
      case ObjectLit(fields) =>
        if fields == [] { return "{}"; }
        var list := SerializeFields(fields);
        r := "{ " + list + " }";
      case Heredoc(content) => r := SerializeHeredoc(content);
      case ListLit(elements) =>
        if elements == [] {
          EmptyList();
          return "[]";
        }
        var list := SerializeList(elements);
        r := "[" + list + "]";
    }
  }

  lemma EmptyList()
    ensures Spec.ListText([]) == ""
  {}

  method SerializeHeredoc(content: string) returns (r: string)
    ensures r == Spec.HeredocText(content)
  {
    hide Spec.ChooseMarker, Contains, Spec.IsMarker;
    var marker := ChooseHeredocMarker(content);
    r := "<<" + marker + "\n" + content + "\n" + marker;
  }

  method SerializeList(es: seq<Expr>) returns (r: string)
    ensures r == Spec.ListText(es)
    decreases es, 0
  {
    hide Spec.ExprText, Spec.ListText;
    var texts := [];
    for i := 0 to |es|
      invariant AreTexts(texts, es[..i])
    {
      var text := SerializeExpr(es[i]);
      texts := texts + [text];
    }
    assert es[..|es|] == es;
    JoinedList(texts, es);
    r := Join(texts, ", ");
  }

  method SerializeFields(fs: seq<Field>) returns (r: string)
    ensures r == Spec.FieldsText(fs)
    decreases fs, 0
  {
    hide Spec.ExprText, Spec.FieldsText;
    var texts := [];
    for i := 0 to |fs|
      invariant AreFieldTexts(texts, fs[..i])
    {
      var text := SerializeExpr(fs[i].value);
      texts := texts + [fs[i].key + ": " + text];
    }
    assert fs[..|fs|] == fs;
    JoinedFields(texts, fs);
    r := Join(texts, ", ");
  }

  // ---------------------------------------------------------------- statements

  method WriteWhen(b: Builder, guard: Option<Expr>)
    modifies b
    ensures b.text == old(b.text) + Spec.WhenText(guard)
  {
    hide Spec.ExprText;
    if guard.Some? {
      var e := SerializeExpr(guard.value);
      b.Write(" when " + e);
    }
  }

  lemma SpacedGoesOn(es: seq<Expr>, i: nat)
    requires i < |es|
    ensures Spec.SpacedText(es[i..]) == " " + Spec.ExprText(es[i]) + Spec.SpacedText(es[i + 1..])
    ensures Spec.SpacedText(es[|es|..]) == ""
  {
    hide Spec.ExprText;
    assert es[i..][1..] == es[i + 1..];
  }

  method WriteArgStmt(b: Builder, s: Stmt)
    requires s.ArgStmt?
    modifies b
    ensures b.text == old(b.text) + Spec.LineText(s, 0)
  {
    hide Spec.ExprText, Spec.SpacedText, Spec.WhenText;
    var base := b.text;
    b.Write("arg");
    ghost var done := "arg";
    assert s.args[0..] == s.args;
    for i := 0 to |s.args|
      invariant b.text == base + done && done + Spec.SpacedText(s.args[i..]) == "arg" + Spec.SpacedText(s.args)
    {
      SpacedGoesOn(s.args, i);
      var arg := SerializeExpr(s.args[i]);
      ConcatAssociates(done, " " + arg, Spec.SpacedText(s.args[i + 1..]));
      b.Write(" ");
      b.Write(arg);
      assert base + done + " " + arg == base + (done + (" " + arg));
      done := done + (" " + arg);
    }
    NoSpacedText(s.args);
    WriteWhen(b, s.guard);
    ConcatAssociates(base, done, Spec.WhenText(s.guard));
  }

  lemma NoSpacedText(es: seq<Expr>)
    ensures Spec.SpacedText(es[|es|..]) == ""
  {}

  method WriteFileStmt(b: Builder, s: Stmt)
    requires s.FileStmt?
    modifies b
    ensures b.text == old(b.text) + Spec.LineText(s, 0)
  {
    hide Spec.ExprText, Spec.WhenText, Numeral;
    var path := SerializeExpr(s.path);
    var content := SerializeExpr(s.content);
    var base := b.text;
    var head := "file " + path + " " + content;
    b.Write(head);
    if s.mode != 0 { b.Write(Spec.ModeText(s.mode)); }
    assert head + "" == head;
    ConcatAssociates(base, head, Spec.ModeText(s.mode));
    WriteWhen(b, s.guard);
    ConcatAssociates(base, head + Spec.ModeText(s.mode), Spec.WhenText(s.guard));
  }

  method WriteIfStmt(b: Builder, s: Stmt, indent: nat)
    requires s.IfStmt?
    modifies b
    ensures b.text == old(b.text) + Spec.LineText(s, indent)
    decreases s, 0
  {
    hide Spec.ExprText, Spec.BlockText;
    var base := b.text;
    var e := SerializeExpr(s.condition);
    ghost var head := "if " + e + Spec.BlockText(s.body, indent);
    b.Write("if " + e);
    WriteBlock(b, s.body, indent);
    ConcatAssociates(base, "if " + e, Spec.BlockText(s.body, indent));
    if s.otherwise != [] {
      b.Write(" else");
      WriteBlock(b, s.otherwise, indent);
      ConcatAssociates(base + head, " else", Spec.BlockText(s.otherwise, indent));
      ConcatAssociates(base, head, " else" + Spec.BlockText(s.otherwise, indent));
    } else {
      assert head + "" == head;
    }
  }

  method WriteForStmt(b: Builder, s: Stmt, indent: nat)
    requires s.ForStmt?
    modifies b
    ensures b.text == old(b.text) + Spec.LineText(s, indent)
    decreases s, 0
  {
    hide Spec.ExprText, Spec.BlockText;
    var base := b.text;
    b.Write("for ");
    b.Write(s.key);
    ghost var head := "for " + s.key;
    ConcatAssociates(base, "for ", s.key);
    if s.val != "" {
      b.Write(", ");
      b.Write(s.val);
      ConcatAssociates(base + head, ", ", s.val);
      ConcatAssociates(base, head, ", " + s.val);
      head := head + (", " + s.val);
    } else {
      assert head + "" == head;
    }
    var e := SerializeExpr(s.iter);
    b.Write(" in " + e);
    ConcatAssociates(base, head, " in " + e);
    ConcatAssociates(head, " in ", e);
    WriteBlock(b, s.body, indent);
    ConcatAssociates(base, head + " in " + e, Spec.BlockText(s.body, indent));
  }

  method WriteStmt(b: Builder, s: Stmt, indent: nat)
    modifies b
    ensures b.text == old(b.text) + Spec.StmtText(s, indent)
    decreases s, 1
  {
    hide Spec.Tabs, Spec.ExprText, Spec.BlockText, Spec.SpacedText, Spec.WhenText, Spec.ModeText;
    b.Write(Spec.Tabs(indent));
    match s {
      case ArgStmt(_, _) =>
        WriteArgStmt(b, s);
      case FileStmt(_, _, _, _) =>
        WriteFileStmt(b, s);
      case MkdirStmt(path) =>
        var e := SerializeExpr(path);
        b.Write("mkdir " + e);
      case AssignStmt(name, value) =>
        var e := SerializeExpr(value);
        b.Write(name + " = " + e);
      case IfStmt(_, _, _) =>
        WriteIfStmt(b, s, indent);
      case ForStmt(_, _, _, _) =>
        WriteForStmt(b, s, indent);
    }
    ConcatAssociates(old(b.text), Spec.Tabs(indent), Spec.LineText(s, indent));
  }

  lemma LinesGoOn(ss: seq<Stmt>, i: nat, indent: nat)
    requires i < |ss|
    ensures Spec.LinesText(ss[i..], indent) == Spec.StmtText(ss[i], indent) + "\n" + Spec.LinesText(ss[i + 1..], indent)
  {
    hide Spec.StmtText;
    assert ss[i..][1..] == ss[i + 1..];
  }

  lemma NoLines(ss: seq<Stmt>, indent: nat)
    ensures Spec.LinesText(ss[|ss|..], indent) == ""
  {}

  method WriteBlock(b: Builder, stmts: seq<Stmt>, indent: nat)
    modifies b
    ensures b.text == old(b.text) + Spec.BlockText(stmts, indent)
    decreases stmts, 0
  {
    hide Spec.Tabs, Spec.StmtText, Spec.LinesText;
    var base := b.text;
    b.Write(" {\n");
    ghost var done := " {\n";
    assert stmts[0..] == stmts;
    for i := 0 to |stmts|
      invariant b.text == base + done
      invariant done + Spec.LinesText(stmts[i..], indent + 1) == " {\n" + Spec.LinesText(stmts, indent + 1)
    {
      LinesGoOn(stmts, i, indent + 1);
      ghost var line := Spec.StmtText(stmts[i], indent + 1) + "\n";
      ConcatAssociates(done, line, Spec.LinesText(stmts[i + 1..], indent + 1));
      WriteStmt(b, stmts[i], indent + 1);
      b.Write("\n");
      ConcatAssociates(base + done, Spec.StmtText(stmts[i], indent + 1), "\n");
      ConcatAssociates(base, done, line);
      done := done + line;
    }
    NoLines(stmts, indent + 1);
    b.Write(Spec.Tabs(indent));
    ConcatAssociates(base, done, Spec.Tabs(indent));
    b.Write("}");
    ConcatAssociates(base, done + Spec.Tabs(indent), "}");
  }

  // ---------------------------------------------------------------- declarations

  lemma {:induction false} JoinSnoc(texts: seq<string>, t: string)
    ensures Join(texts + [t], ", ") == if texts == [] then t else Join(texts, ", ") + ", " + t
  {
    if texts == [] {
    } else if |texts| == 1 {
      assert (texts + [t])[1..] == [t];
    } else {
      JoinSnoc(texts[1..], t);
      assert (texts + [t])[1..] == texts[1..] + [t];
    }
  }

  /** One more item of a comma-separated list; the comma goes before every item but the first. */
  method WriteItem(b: Builder, i: nat, item: string, ghost base: string, ghost texts: seq<string>)
    requires b.text == base + Join(texts, ", ") && i == |texts|
    modifies b
    ensures b.text == base + Join(texts + [item], ", ")
  {
    JoinSnoc(texts, item);
    if i > 0 {
      hide Join;
      b.Write(", ");
      b.Write(item);
      assert base + Join(texts, ", ") + ", " + item == base + (Join(texts, ", ") + ", " + item);
    } else {
      b.Write(item);
      assert base + "" == base;
    }
  }

  ghost predicate AreQuoted(texts: seq<string>, ss: seq<string>) {
    |texts| == |ss| && forall i :: 0 <= i < |ss| ==> texts[i] == Spec.QuoteString(ss[i])
  }

  lemma {:induction false} JoinedQuoted(texts: seq<string>, ss: seq<string>)
    requires AreQuoted(texts, ss)
    ensures Join(texts, ", ") == Spec.QuotedList(ss)
  {
    hide Spec.QuoteString;
    if |ss| > 1 { JoinedQuoted(texts[1..], ss[1..]); }
  }

  method WriteOptions(b: Builder, options: seq<string>)
    modifies b
    ensures b.text == old(b.text) + Spec.QuotedList(options)
  {
    hide Spec.QuoteString, Spec.QuotedList;
    ghost var base, texts := b.text, [];
    assert base + "" == base;
    for i := 0 to |options|
      invariant b.text == base + Join(texts, ", ") && AreQuoted(texts, options[..i])
    {
      var option := QuoteString(options[i]);
      WriteItem(b, i, option, base, texts);
      texts := texts + [option];
    }
    assert options[..|options|] == options;
    JoinedQuoted(texts, options);
  }

  ghost predicate AreMounts(texts: seq<string>, ms: seq<Mount>) {
    |texts| == |ms| && forall i :: 0 <= i < |ms| ==> texts[i] == Spec.MountText(ms[i])
  }

  lemma {:induction false} JoinedMounts(texts: seq<string>, ms: seq<Mount>)
    requires AreMounts(texts, ms)
    ensures Join(texts, ", ") == Spec.MountList(ms)
  {
    hide Spec.MountText;
    if |ms| > 1 { JoinedMounts(texts[1..], ms[1..]); }
  }

  method WriteKnowledgeDecl(b: Builder, d: Decl)
    requires d.KnowledgeDecl?
    modifies b
    ensures b.text == old(b.text) + Spec.DeclText(d)
  {
    hide Spec.MountList, Spec.MountText;
    b.Write("KNOWLEDGE ");
    ghost var base, texts := b.text, [];
    assert base + "" == base;
    for i := 0 to |d.mounts|
      invariant b.text == base + Join(texts, ", ") && AreMounts(texts, d.mounts[..i])
    {
      var text := Spec.MountText(d.mounts[i]);
      WriteItem(b, i, text, base, texts);
      texts := texts + [text];
    }
    assert d.mounts[..|d.mounts|] == d.mounts;
    JoinedMounts(texts, d.mounts);
    ConcatAssociates(old(b.text), "KNOWLEDGE ", Spec.MountList(d.mounts));
  }

  lemma {:induction false} JoinedSlugs(ss: seq<string>)
    ensures Join(ss, ", ") == Spec.SlugList(ss)
  {
    if |ss| > 1 { JoinedSlugs(ss[1..]); }
  }

  method WriteSkillsDecl(b: Builder, d: Decl)
    requires d.SkillsDecl?
    modifies b
    ensures b.text == old(b.text) + Spec.DeclText(d)
  {
    JoinedSlugs(d.slugs);
    hide Join, Spec.SlugList;
    b.Write("SKILLS ");
    b.Write(Join(d.slugs, ", "));
    ConcatAssociates(old(b.text), "SKILLS ", Spec.SlugList(d.slugs));
  }

  method FormatValue(v: Value) returns (r: string)
    ensures r == Spec.ValueText(v)
  {
    hide Spec.QuoteString, Spec.DecimalText;
    match v {
      case NoValue => r := "";
      case StrValue(s) => r := QuoteString(s);
      case BoolValue(b) => r := if b then "true" else "false";
      case IntValue(n) => r := Spec.DecimalText(n);
      case FloatValue(lit) => r := lit;
    }
  }

  method WriteConfigType(b: Builder, typ: ConfigType, options: seq<string>)
    modifies b
    ensures b.text == old(b.text) + ((if typ == Untyped then "" else " " + Spec.TypeText(typ)) +
      (if typ == Select && options != [] then "(" + Spec.QuotedList(options) + ")" else ""))
  {
    hide Spec.QuotedList, Spec.TypeText;
    var base := b.text;
    if typ == Untyped {
      assert base + ("" + "") == base;
      return;
    }
    b.Write(" ");
    b.Write(Spec.TypeText(typ));
    ghost var head := " " + Spec.TypeText(typ);
    ConcatAssociates(base, " ", Spec.TypeText(typ));
    if typ == Select && options != [] {
      b.Write("(");
      WriteOptions(b, options);
      b.Write(")");
      assert base + head + "(" + Spec.QuotedList(options) + ")" == base + (head + ("(" + Spec.QuotedList(options) + ")"));
    } else {
      assert head + "" == head;
    }
  }

  method WriteConfigDecl(b: Builder, d: Decl)
    requires d.ConfigDecl?
    modifies b
    ensures b.text == old(b.text) + Spec.DeclText(d)
  {
    hide Spec.QuotedList, Spec.TypeText, Spec.ValueText;
    var base := b.text;
    b.Write("CONFIG ");
    b.Write(d.name);
    WriteConfigType(b, d.typ, d.options);
    ghost var typed := if d.typ == Untyped then "" else " " + Spec.TypeText(d.typ);
    ghost var listed := if d.typ == Select && d.options != [] then "(" + Spec.QuotedList(d.options) + ")" else "";
    ghost var head := "CONFIG " + d.name + typed + listed;
    assert base + "CONFIG " + d.name + (typed + listed) == base + head;
    if d.default != NoValue {
      b.Write(" = ");
      var value := FormatValue(d.default);
      b.Write(value);
      assert base + head + " = " + value == base + (head + (" = " + value));
    } else {
      assert head + "" == head;
    }
  }

  method WriteEnvDecl(b: Builder, d: Decl)
    requires d.EnvDecl?
    modifies b
    ensures b.text == old(b.text) + Spec.DeclText(d)
  {
    hide Spec.ExprText, Spec.WhenText, Spec.QuoteString;
    var base := b.text;
    b.Write("ENV ");
    b.Write(d.name);
    ghost var head := "ENV " + d.name;
    ConcatAssociates(base, "ENV ", d.name);
    if d.source != Fixed {
      var source := if d.source == SecretSource then " SECRET" else " TEXT";
      b.Write(source);
      if d.optional { b.Write(" OPTIONAL"); }
      ghost var flag := if d.optional then " OPTIONAL" else "";
      assert base + head + source + flag == base + (head + (source + flag));
    } else if d.valueExpr.Some? {
      var e := SerializeExpr(d.valueExpr.value);
      b.Write(" = " + e);
      WriteWhen(b, d.guard);
      assert base + head + (" = " + e) + Spec.WhenText(d.guard) == base + (head + (" = " + e + Spec.WhenText(d.guard)));
    } else {
      var value := QuoteString(d.value);
      b.Write(" = " + value);
      assert base + head + (" = " + value) == base + (head + (" = " + value));
    }
  }

  method WriteMcpDecl(b: Builder, d: Decl)
    requires d.McpDecl?
    modifies b
    ensures b.text == old(b.text) + Spec.DeclText(d)
  {
    if d.enabled {
      b.Write("MCP ON");
      if d.format != "" {
        b.Write(" FORMAT " + d.format);
        ConcatAssociates(old(b.text), "MCP ON", " FORMAT " + d.format);
      }
    } else {
      b.Write("MCP OFF");
    }
  }

  method WriteSetupDecl(b: Builder, d: Decl)
    requires d.SetupDecl?
    modifies b
    ensures b.text == old(b.text) + Spec.DeclText(d)
  {
    hide Spec.DecimalText, Spec.ChooseMarker, Contains, Spec.IsMarker;
    var base := b.text;
    b.Write("SETUP");
    if d.timeout != 300 { b.Write(" timeout=" + Spec.DecimalText(d.timeout)); }
    ghost var timeout := if d.timeout == 300 then "" else " timeout=" + Spec.DecimalText(d.timeout);
    assert b.text == base + ("SETUP" + timeout);
    var marker := ChooseHeredocMarker(d.script);
    b.Write(" <<" + marker + "\n");
    b.Write(d.script);
    b.Write("\n" + marker);
    HeredocParts(base + ("SETUP" + timeout), d.script, marker);
    ConcatAssociates(base, "SETUP" + timeout, " " + Spec.HeredocText(d.script));
    ConcatAssociates("SETUP" + timeout, " ", Spec.HeredocText(d.script));
  }

  lemma HeredocParts(head: string, script: string, marker: string)
    requires marker == Spec.ChooseMarker(script)
    ensures head + (" <<" + marker + "\n") + script + ("\n" + marker) == head + (" " + Spec.HeredocText(script))
  {
    hide Spec.ChooseMarker;
    assert " " + Spec.HeredocText(script) == " <<" + marker + "\n" + script + "\n" + marker;
    ConcatAssociates(" <<" + marker + "\n" + script, "\n", marker);
    ConcatAssociates(" <<" + marker + "\n", script, "\n" + marker);
    ConcatAssociates(head, " <<" + marker + "\n", script + ("\n" + marker));
    ConcatAssociates(head + (" <<" + marker + "\n"), script, "\n" + marker);
  }

  method WriteModeArgsDecl(b: Builder, d: Decl)
    requires d.ModeArgsDecl?
    modifies b
    ensures b.text == old(b.text) + Spec.DeclText(d)
  {
    hide Spec.QuoteString, Spec.QuotedArgs;
    var base := b.text;
    ghost var done := "MODE " + d.mode;
    b.Write("MODE " + d.mode);
    assert d.args[0..] == d.args;
    for i := 0 to |d.args|
      invariant b.text == base + done && done + Spec.QuotedArgs(d.args[i..]) == "MODE " + d.mode + Spec.QuotedArgs(d.args)
    {
      ArgsGoOn(d.args, i);
      var arg := QuoteString(d.args[i]);
      b.Write(" " + arg);
      ConcatAssociates(base, done, " " + arg);
      ConcatAssociates(done, " " + arg, Spec.QuotedArgs(d.args[i + 1..]));
      done := done + (" " + arg);
    }
    NoArgs(d.args);
  }

  lemma ArgsGoOn(ss: seq<string>, i: nat)
    requires i < |ss|
    ensures Spec.QuotedArgs(ss[i..]) == " " + Spec.QuoteString(ss[i]) + Spec.QuotedArgs(ss[i + 1..])
  {
    hide Spec.QuoteString;
    assert ss[i..][1..] == ss[i + 1..];
  }

  lemma NoArgs(ss: seq<string>)
    ensures Spec.QuotedArgs(ss[|ss|..]) == ""
  {}

  method WriteShortDecl(b: Builder, d: Decl)
    requires d.AgentDecl? || d.ExecutableDecl? || d.RepoDecl? || d.BranchDecl? || d.GitCredentialDecl? || d.RemoveDecl? ||
      d.ModeDecl? || d.UseEnvBundleDecl? || d.UseConfigBundleDecl? || d.PromptDecl? || d.PromptPositionDecl? || d.CapabilityDecl?
    modifies b
    ensures b.text == old(b.text) + Spec.DeclText(d)
  {
    hide Spec.QuoteString, Spec.QuoteIfNeeded, Spec.ExprText, Spec.GoQuote, Spec.TargetText;
    match d {
      case AgentDecl(command) =>
        var name := QuoteIfNeeded(command);
        b.Write("AGENT " + name);
      case ExecutableDecl(executable) =>
        var name := QuoteIfNeeded(executable);
        b.Write("EXECUTABLE " + name);
      case RepoDecl(repo) =>
        var e := SerializeExpr(repo);
        b.Write("REPO " + e);
      case BranchDecl(branch) =>
        var e := SerializeExpr(branch);
        b.Write("BRANCH " + e);
      case GitCredentialDecl(credential) => b.Write("GIT_CREDENTIAL " + credential);
      case RemoveDecl(target, removed) =>
        var name := QuoteString(removed);
        b.Write("REMOVE " + Spec.TargetText(target) + " " + name);
      case ModeDecl(mode) => b.Write("MODE " + mode);
      case UseEnvBundleDecl(bundle) =>
        var name := QuoteIfNeeded(bundle);
        b.Write("USE_ENV_BUNDLE " + name);
      case UseConfigBundleDecl(bundle) =>
        var name := QuoteIfNeeded(bundle);
        b.Write("USE_CONFIG_BUNDLE " + name);
      case PromptDecl(prompt) => b.Write("PROMPT " + Spec.GoQuote(prompt));
      case PromptPositionDecl(position) => b.Write("PROMPT_POSITION " + position);
      case CapabilityDecl(axis, capability) => b.Write("CAPABILITY " + axis + " " + capability);
    }
  }

  method WriteDecl(b: Builder, d: Decl)
    modifies b
    ensures b.text == old(b.text) + Spec.DeclText(d)
  {
    hide Spec.DeclText;
    match d {
      case ConfigDecl(_, _, _, _) => WriteConfigDecl(b, d);
      case EnvDecl(_, _, _, _, _, _) => WriteEnvDecl(b, d);
      case McpDecl(_, _) => WriteMcpDecl(b, d);
      case SkillsDecl(_) => WriteSkillsDecl(b, d);
      case SetupDecl(_, _) => WriteSetupDecl(b, d);
      case ModeArgsDecl(_, _) => WriteModeArgsDecl(b, d);
      case KnowledgeDecl(_) => WriteKnowledgeDecl(b, d);
      case _ => WriteShortDecl(b, d);
    }
  }

  // ---------------------------------------------------------------- programs

  lemma {:induction false} DeclLinesSnoc(ds: seq<Decl>, d: Decl)
    ensures Spec.DeclLines(ds + [d]) == Spec.DeclLines(ds) + (Spec.DeclText(d) + "\n")
  {
    hide Spec.DeclText;
    if ds == [] {
      assert (ds + [d])[1..] == [];
      assert Spec.DeclText(d) + "\n" + "" == "" + (Spec.DeclText(d) + "\n");
    } else {
      DeclLinesSnoc(ds[1..], d);
      assert (ds + [d])[1..] == ds[1..] + [d];
      ConcatAssociates(Spec.DeclText(ds[0]) + "\n", Spec.DeclLines(ds[1..]), Spec.DeclText(d) + "\n");
    }
  }

  lemma {:induction false} LinesSnoc(ss: seq<Stmt>, s: Stmt)
    ensures Spec.LinesText(ss + [s], 0) == Spec.LinesText(ss, 0) + (Spec.StmtText(s, 0) + "\n")
  {
    hide Spec.StmtText;
    if ss == [] {
      assert (ss + [s])[1..] == [];
      assert Spec.StmtText(s, 0) + "\n" + "" == "" + (Spec.StmtText(s, 0) + "\n");
    } else {
      LinesSnoc(ss[1..], s);
      assert (ss + [s])[1..] == ss[1..] + [s];
      ConcatAssociates(Spec.StmtText(ss[0], 0) + "\n", Spec.LinesText(ss[1..], 0), Spec.StmtText(s, 0) + "\n");
    }
  }

  lemma DeclTextIsNotEmpty(d: Decl)
    ensures Spec.DeclText(d) != ""
  {
    hide Spec.QuoteString, Spec.QuoteIfNeeded, Spec.ExprText, Spec.GoQuote, Spec.TargetText, Spec.WhenText, Spec.SlugList,
         Spec.MountList, Spec.QuotedList, Spec.ValueText, Spec.DecimalText, Spec.HeredocText, Spec.TypeText, Spec.QuotedArgs;
  }

  lemma StmtTextIsNotEmpty(s: Stmt)
    ensures Spec.StmtText(s, 0) != ""
  {
    hide Spec.ExprText, Spec.SpacedText, Spec.WhenText, Spec.BlockText, Spec.ModeText;
  }

  /**
   * Separators go between items and one newline ends the text; the result is the same as ending every
   * item with a newline.
   */
  method Serialize(prog: Program) returns (text: string)
    ensures text == Spec.ProgramText(prog)
  {
    hide Spec.DeclText, Spec.StmtText, Spec.DeclLines, Spec.LinesText;
    var b := new Builder();
    ghost var lines := "";
    NoDeclLines();
    for i := 0 to |prog.declarations|
      invariant lines == Spec.DeclLines(prog.declarations[..i])
      invariant if i == 0 then b.text == "" else b.text != "" && b.text + "\n" == lines
    {
      assert prog.declarations[..i + 1] == prog.declarations[..i] + [prog.declarations[i]];
      DeclLinesSnoc(prog.declarations[..i], prog.declarations[i]);
      DeclTextIsNotEmpty(prog.declarations[i]);
      if i > 0 { b.Write("\n"); }
      assert b.text == lines;
      WriteDecl(b, prog.declarations[i]);
      ConcatAssociates(lines, Spec.DeclText(prog.declarations[i]), "\n");
      lines := lines + (Spec.DeclText(prog.declarations[i]) + "\n");
    }
    assert prog.declarations[..|prog.declarations|] == prog.declarations;
    if |prog.declarations| > 0 && |prog.statements| > 0 { b.Write("\n"); }
    ghost var stmts := "";
    for i := 0 to |prog.statements|
      invariant stmts == Spec.LinesText(prog.statements[..i], 0)
      invariant if i == 0 then |prog.statements| > 0 ==> b.text == lines
        else b.text != "" && b.text + "\n" == lines + stmts
      invariant |prog.statements| == 0 ==> if lines == "" then b.text == "" else b.text != "" && b.text + "\n" == lines
    {
      assert prog.statements[..i + 1] == prog.statements[..i] + [prog.statements[i]];
      LinesSnoc(prog.statements[..i], prog.statements[i]);
      StmtTextIsNotEmpty(prog.statements[i]);
      if i > 0 { b.Write("\n"); }
      assert b.text == lines + stmts;
      WriteStmt(b, prog.statements[i], 0);
      ghost var line := Spec.StmtText(prog.statements[i], 0);
      ConcatAssociates(lines + stmts, line, "\n");
      ConcatAssociates(lines, stmts, line + "\n");
      stmts := stmts + (line + "\n");
    }
    assert prog.statements[..|prog.statements|] == prog.statements;
    assert lines + "" == lines;
    if |b.text| > 0 { b.Write("\n"); }
    text := b.text;
  }

  lemma NoDeclLines()
    ensures Spec.DeclLines([]) == "" && Spec.LinesText([], 0) == ""
  {}
}
