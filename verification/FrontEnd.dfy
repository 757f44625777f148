/** The serializer and the parser as they run, one after the other. */
module FrontEnd {
  import opened Ast
  import Spec = ParseSpec
  import LexSpec
  import PrintSpec
  import LexDecls
  import Levels
  import Closure
  import CloseDecls
  import NormalForm
  import Serializer
  import Parser

  /** What was serialized is parsed back, exactly when the program respects the precedence levels. */
  method SerializeThenParse(p: Program) returns (q: Program, errors: seq<Spec.ParseError>)
    requires LexDecls.PrintableProgram(p)
    ensures q == p && errors == [] <==> Levels.ProgramRespects(p)
  {
    hide Spec.Parse, PrintSpec.ProgramText, LexDecls.PrintableProgram, Levels.ProgramRespects;
    var text := Serializer.Serialize(p);
    q, errors := Parser.ParseInput(text);
    NormalForm.SurvivesExactly(p);
  }

  /** Formatting an input by parsing and serializing it does not change what it parses to. */
  method Reformat(input: string) returns (text: string, before: Program, after: Program, errors: seq<Spec.ParseError>)
    requires Closure.Ungrouped(LexSpec.Lex(input)) && Closure.Plain(LexSpec.Lex(input))
    requires Spec.Parse(input).1 == [] && forall d | d in Spec.Parse(input).0.declarations :: CloseDecls.Restorable(d)
    ensures before == Spec.Parse(input).0 && (after, errors) == Spec.Parse(text)
    ensures after == before && errors == []
  {
    hide Spec.Parse, PrintSpec.ProgramText, Closure.Ungrouped, Closure.Plain, LexSpec.Lex, CloseDecls.Restorable;
    before, errors := Parser.ParseInput(input);
    text := Serializer.Serialize(before);
    after, errors := Parser.ParseInput(text);
    NormalForm.ParseSerializeParse(input);
  }
}
