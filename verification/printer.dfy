/**
 * `PrettyPrintingVisitor`: a visitor that appends the text of each node it
 * visits to a string builder, tracking the current indentation depth. Every
 * visit method returns `ok`, false when the visit throws; a caller returns
 * at once when a visit it made throws, as the exception would unwind it.
 *
 * Each method is proved against the pure text in module `Rendering`: on
 * success the buffer grows by exactly that text and the depth is back where
 * it was; the visit fails exactly when that text is `None`.
 */
module Printer {
  import opened Wrappers
  import opened Text
  import opened Tokens
  import opened Streams
  import opened Escaping
  import opened Ast
  import opened Rendering
  import opened RenderLists

  /** What a separator action passed to `Intersperse`, or written around each item of a `foreach`, writes. */
  datatype Separator =
    | Literal(text: string)                  // a fixed text, such as `_comma`
    | LineBreak(prefix: string)              // a text, then `Newline()`
    | LineBreaks(prefix: string, count: int) // a text, then `Newline(count)`

  function SeparatorText(sep: Separator, d: int): string {
    match sep
    case Literal(t) => t
    case LineBreak(p) => p + NL(d)
    case LineBreaks(p, c) => p + NLs(c, d)
  }

  class PrettyPrintingVisitor {
    /** `_sb`, the text written so far. */
    var sb: string
    /** `_indent`, the current depth. */
    var indent: int

    constructor()
      ensures sb == [] && indent == 0
    {
      sb := [];
      indent := 0;
    }

    /**
     * A visit that started with buffer `sb0` at depth `d0` and was specified
     * to write `out` succeeded exactly when `out` is a text, and then wrote
     * exactly that text and left the depth at `d0`.
     */
    ghost predicate Wrote(sb0: string, d0: int, out: Option<string>, ok: bool)
      reads this
    {
      ok == out.Some? && (ok ==> sb == sb0 + out.value && indent == d0)
    }

    // -------------------------------------------------------------------
    // Buffer primitives
    // -------------------------------------------------------------------

    method Newline()
      modifies this
      ensures sb == old(sb) + NL(old(indent)) && indent == old(indent)
    {
      sb := sb + "\n";
      var i := 0;
      while i < indent
        invariant 0 <= i && (i <= indent || i == 0)
        invariant sb == old(sb) + "\n" + Repeat(IndentUnit, i) && indent == old(indent)
      {
        sb := sb + IndentUnit;
        i := i + 1;
      }
    }

    /** `Newline(count)`: `count - 1` line feeds, then `Newline()`. */
    method Newlines(count: int)
      modifies this
      ensures sb == old(sb) + NLs(count, old(indent)) && indent == old(indent)
    {
      var i := 0;
      while i < count - 1
        invariant 0 <= i && (i <= count - 1 || i == 0)
        invariant sb == old(sb) + Repeat("\n", i) && indent == old(indent)
      {
        sb := sb + "\n";
        i := i + 1;
      }
      Newline();
    }

    method EndStatement()
      modifies this
      ensures sb == old(sb) + "\n" && indent == old(indent)
    {
      sb := sb + "\n";
    }

    method Indent()
      modifies this
      ensures indent == old(indent) + 1 && sb == old(sb) + NL(indent)
    {
      indent := indent + 1;
      Newline();
    }

    method Dedent()
      modifies this
      ensures indent == old(indent) - 1 && sb == old(sb) + NL(indent)
    {
      indent := indent - 1;
      Newline();
    }

    method BeginBlock()
      modifies this
      ensures indent == old(indent) + 1 && sb == old(sb) + Open(old(indent))
    {
      Newline();
      sb := sb + "{";
      Indent();
    }

    method EndBlock()
      modifies this
      ensures indent == old(indent) - 1 && sb == old(sb) + Close(indent)
    {
      Dedent();
      sb := sb + "}";
    }

    method WriteSeparator(sep: Separator)
      modifies this
      ensures sb == old(sb) + SeparatorText(sep, old(indent)) && indent == old(indent)
    {
      match sep
      case Literal(t) =>
        sb := sb + t;
      case LineBreak(p) =>
        sb := sb + p;
        Newline();
      case LineBreaks(p, c) =>
        sb := sb + p;
        Newlines(c);
    }

    // -------------------------------------------------------------------
    // Lists
    // -------------------------------------------------------------------

    /** `Intersperse(asts, separator)`: the first node, then the separator and the next node, for each further node. */
    method Intersperse(asts: seq<Node>, sep: Separator) returns (ok: bool)
      modifies this
      decreases asts, 1
      ensures Wrote(old(sb), old(indent), Joined(asts, SeparatorText(sep, old(indent)), old(indent)), ok)
    {
      ok := true;
      if asts == [] {
        return;
      }
      ghost var sb0, d := sb, indent;
      ghost var s := SeparatorText(sep, d);
      ok := Visit(asts[0]);
      if !ok {
        RenderAllFails(asts, 0, d);
        return;
      }
      assert asts[..0] == [];
      RenderAllGrows(asts, 0, d);
      assert Interleave([Render(asts[0], d).value], s) == Render(asts[0], d).value;
      for i := 1 to |asts|
        invariant indent == d && RenderAll(asts[..i], d).Some?
        invariant sb == sb0 + Interleave(RenderAll(asts[..i], d).value, s)
      {
        ghost var ts := RenderAll(asts[..i], d).value;
        WriteSeparator(sep);
        ok := Visit(asts[i]);
        if !ok {
          RenderAllFails(asts, i, d);
          return;
        }
        RenderAllGrows(asts, i, d);
        InterleaveGrows(sb0, ts, s, Render(asts[i], d).value);
      }
      assert asts[..|asts|] == asts;
    }

    /** A `foreach` loop over `asts` that writes `before`, visits the node, then writes `after`. */
    method WriteEach(asts: seq<Node>, before: Separator, after: Separator) returns (ok: bool)
      modifies this
      decreases asts, 1
      ensures Wrote(old(sb), old(indent), Each(asts, SeparatorText(before, old(indent)), SeparatorText(after, old(indent)), old(indent)), ok)
    {
      ghost var sb0, d := sb, indent;
      ghost var b, a := SeparatorText(before, d), SeparatorText(after, d);
      ok := true;
      for i := 0 to |asts|
        invariant indent == d && RenderAll(asts[..i], d).Some?
        invariant sb == sb0 + Surround(RenderAll(asts[..i], d).value, b, a)
      {
        ghost var ts := RenderAll(asts[..i], d).value;
        WriteSeparator(before);
        ok := Visit(asts[i]);
        if !ok {
          RenderAllFails(asts, i, d);
          return;
        }
        WriteSeparator(after);
        RenderAllGrows(asts, i, d);
        SurroundGrows(sb0, ts, b, Render(asts[i], d).value, a);
      }
      assert asts[..|asts|] == asts;
    }

    /** The `Intersperse` over hashtable entries, each written by `WriteHashtableEntry`. */
    method IntersperseEntries(kvs: seq<KeyValue>, sep: Separator) returns (ok: bool)
      modifies this
      decreases kvs, 1
      ensures ok == EntryTexts(kvs, old(indent)).Some?
      ensures ok ==> indent == old(indent) &&
                     sb == old(sb) + Interleave(EntryTexts(kvs, old(indent)).value, SeparatorText(sep, old(indent)))
    {
      ok := true;
      if kvs == [] {
        return;
      }
      ghost var sb0, d := sb, indent;
      ghost var s := SeparatorText(sep, d);
      ok := WriteHashtableEntry(kvs[0]);
      if !ok {
        EntriesFail(kvs, 0, d);
        return;
      }
      assert kvs[..0] == [];
      EntriesGrow(kvs, 0, d);
      assert Interleave([EntryText(kvs[0], d).value], s) == EntryText(kvs[0], d).value;
      for i := 1 to |kvs|
        invariant indent == d && EntryTexts(kvs[..i], d).Some?
        invariant sb == sb0 + Interleave(EntryTexts(kvs[..i], d).value, s)
      {
        ghost var ts := EntryTexts(kvs[..i], d).value;
        WriteSeparator(sep);
        ok := WriteHashtableEntry(kvs[i]);
        if !ok {
          EntriesFail(kvs, i, d);
          return;
        }
        EntriesGrow(kvs, i, d);
        InterleaveGrows(sb0, ts, s, EntryText(kvs[i], d).value);
      }
      assert kvs[..|kvs|] == kvs;
    }

    /** The `Intersperse` over the cases of a `switch`, each written as its condition and its block. */
    method IntersperseCases(cs: seq<Clause>, sep: Separator) returns (ok: bool)
      modifies this
      decreases cs, 1
      ensures ok == CaseTexts(cs, old(indent)).Some?
      ensures ok ==> indent == old(indent) &&
                     sb == old(sb) + Interleave(CaseTexts(cs, old(indent)).value, SeparatorText(sep, old(indent)))
    {
      ok := true;
      if cs == [] {
        return;
      }
      ghost var sb0, d := sb, indent;
      ghost var s := SeparatorText(sep, d);
      ok := WriteCase(cs[0]);
      if !ok {
        CasesFail(cs, 0, d);
        return;
      }
      assert cs[..0] == [];
      CasesGrow(cs, 0, d);
      assert Interleave([CaseText(cs[0], d).value], s) == CaseText(cs[0], d).value;
      for i := 1 to |cs|
        invariant indent == d && CaseTexts(cs[..i], d).Some?
        invariant sb == sb0 + Interleave(CaseTexts(cs[..i], d).value, s)
      {
        ghost var ts := CaseTexts(cs[..i], d).value;
        WriteSeparator(sep);
        ok := WriteCase(cs[i]);
        if !ok {
          CasesFail(cs, i, d);
          return;
        }
        CasesGrow(cs, i, d);
        InterleaveGrows(sb0, ts, s, CaseText(cs[i], d).value);
      }
      assert cs[..|cs|] == cs;
    }

    /** The `Intersperse` over the parameters of a `param(...)` block. */
    method IntersperseParameters(ps: seq<Parameter>, sep: Separator) returns (ok: bool)
      modifies this
      decreases ps, 1
      ensures ok == ParameterTexts(ps, old(indent)).Some?
      ensures ok ==> indent == old(indent) &&
                     sb == old(sb) + Interleave(ParameterTexts(ps, old(indent)).value, SeparatorText(sep, old(indent)))
    {
      ok := true;
      if ps == [] {
        return;
      }
      ghost var sb0, d := sb, indent;
      ghost var s := SeparatorText(sep, d);
      ok := VisitParameter(ps[0]);
      if !ok {
        ParametersFail(ps, 0, d);
        return;
      }
      assert ps[..0] == [];
      ParametersGrow(ps, 0, d);
      assert Interleave([ParameterText(ps[0], d).value], s) == ParameterText(ps[0], d).value;
      for i := 1 to |ps|
        invariant indent == d && ParameterTexts(ps[..i], d).Some?
        invariant sb == sb0 + Interleave(ParameterTexts(ps[..i], d).value, s)
      {
        ghost var ts := ParameterTexts(ps[..i], d).value;
        WriteSeparator(sep);
        ok := VisitParameter(ps[i]);
        if !ok {
          ParametersFail(ps, i, d);
          return;
        }
        ParametersGrow(ps, i, d);
        InterleaveGrows(sb0, ts, s, ParameterText(ps[i], d).value);
      }
      assert ps[..|ps|] == ps;
    }

    /**
     * `WriteInlineParameters`, corrected: the parameters of a method
     * signature with `, ` between neighbours (the code as written puts
     * nothing between them; see `InlineParametersAsWritten`).
     */
    method WriteInlineParameters(ps: seq<Parameter>) returns (ok: bool)
      modifies this
      decreases ps, 1
      ensures Wrote(old(sb), old(indent), InlineParametersText(ps, old(indent)), ok)
    {
      ghost var sb0, d := sb, indent;
      ok := true;
      if ps == [] {
        return;
      }
      ok := WriteInlineParameter(ps[0]);
      if !ok {
        InlineParametersFail(ps, 0, d);
        return;
      }
      assert ps[..0] == [];
      InlineParametersGrow(ps, 0, d);
      assert Interleave([InlineParameterText(ps[0], d).value], ", ") == InlineParameterText(ps[0], d).value;
      for i := 1 to |ps|
        invariant indent == d && InlineParameterTexts(ps[..i], d).Some?
        invariant sb == sb0 + Interleave(InlineParameterTexts(ps[..i], d).value, ", ")
      {
        ghost var ts := InlineParameterTexts(ps[..i], d).value;
        sb := sb + ", ";
        ok := WriteInlineParameter(ps[i]);
        if !ok {
          InlineParametersFail(ps, i, d);
          return;
        }
        InlineParametersGrow(ps, i, d);
        InterleaveGrows(sb0, ts, ", ", InlineParameterText(ps[i], d).value);
      }
      assert ps[..|ps|] == ps;
    }

    method WriteInlineParameter(p: Parameter) returns (ok: bool)
      modifies this
      decreases p, 0
      ensures Wrote(old(sb), old(indent), InlineParameterText(p, old(indent)), ok)
    {
      ok := WriteEach(p.attributes, Literal([]), Literal([]));
      if !ok {
        return;
      }
      ok := Visit(p.name);
      if !ok {
        return;
      }
      if p.defaultValue.Some? {
        sb := sb + " = ";
        ok := Visit(p.defaultValue.value);
      }
    }

    method WriteHashtableEntry(kv: KeyValue) returns (ok: bool)
      modifies this
      decreases kv, 0
      ensures Wrote(old(sb), old(indent), EntryText(kv, old(indent)), ok)
    {
      ok := Visit(kv.key);
      if !ok {
        return;
      }
      sb := sb + " = ";
      ok := Visit(kv.value);
    }

    /** The action `VisitSwitchStatement` passes to `Intersperse` for each case. */
    method WriteCase(c: Clause) returns (ok: bool)
      modifies this
      decreases c, 0
      ensures Wrote(old(sb), old(indent), CaseText(c, old(indent)), ok)
    {
      ok := Visit(c.condition);
      if !ok {
        return;
      }
      ok := VisitStatementBlock(c.body);
    }

    // -------------------------------------------------------------------
    // Statement blocks
    // -------------------------------------------------------------------

    /**
     * `WriteStatementBlock(statements, traps)`, where the statements are those
     * of `owner` from index `skip` on (a constructor drops its base call) and
     * the traps are those of `owner`.
     */
    method WriteStatementBlock(statements: seq<Node>, traps: seq<Node>, ghost owner: StatementBlock, ghost skip: nat) returns (ok: bool)
      requires skip <= |owner.statements| && statements == owner.statements[skip..] && traps == owner.traps
      modifies this
      decreases owner, 2
      ensures Wrote(old(sb), old(indent), StatementBlockText(owner, skip, old(indent)), ok)
    {
      ghost var sb0, d := sb, indent;
      var wroteTrap := false;
      ok := true;
      if traps != [] {
        wroteTrap := true;
        ok := WriteEach(traps, Literal([]), Literal([]));
        if !ok {
          return;
        }
      }
      ghost var w := Each(traps, [], [], d).value;
      assert sb == sb0 + w;
      if statements == [] {
        assert StatementsText(statements, d) == Some([]);
        return;
      }
      if wroteTrap {
        Newline();
        AppendAssoc(sb0, w, NL(d));
        w := w + NL(d);
      } else {
        w := w + [];
      }
      assert sb == sb0 + w;
      ok := WriteStatements(statements, owner, skip);
      if !ok {
        return;
      }
      AppendAssoc(sb0, w, StatementsText(statements, d).value);
    }

    /** The statement loop of `WriteStatementBlock`: each statement, with a blank line after one that ends in a block. */
    method WriteStatements(statements: seq<Node>, ghost owner: StatementBlock, ghost skip: nat) returns (ok: bool)
      requires skip <= |owner.statements| && statements == owner.statements[skip..]
      modifies this
      decreases owner, 1
      ensures Wrote(old(sb), old(indent), StatementsText(statements, old(indent)), ok)
    {
      ghost var sb0, d := sb, indent;
      ok := true;
      if statements == [] {
        return;
      }
      assert statements[0] == owner.statements[skip];
      ok := Visit(statements[0]);
      if !ok {
        StatementsFail(statements, 0, d);
        return;
      }
      assert statements[..1] == [statements[0]];
      var previous := statements[0];
      for i := 1 to |statements|
        invariant indent == d && previous == statements[i - 1]
        invariant StatementsText(statements[..i], d).Some?
        invariant sb == sb0 + StatementsText(statements[..i], d).value
      {
        ghost var t := StatementsText(statements[..i], d).value;
        ghost var sep := StatementSeparator(previous, d);
        if IsBlockStatement(previous) {
          sb := sb + "\n";
          Newline();
          AppendAssoc(sb0 + t, "\n", NL(d));
        } else {
          Newline();
          assert sep == NL(d);
        }
        AppendAssoc(sb0, t, sep);
        assert statements[i] == owner.statements[skip + i];
        ok := Visit(statements[i]);
        if !ok {
          StatementsFail(statements, i, d);
          return;
        }
        StatementsGrow(statements, i, d);
        AppendAssoc(sb0, t + sep, Render(statements[i], d).value);
        previous := statements[i];
      }
      assert statements[..|statements|] == statements;
    }

    /** `VisitStatementBlock`: a block in braces. */
    method VisitStatementBlock(b: StatementBlock) returns (ok: bool)
      modifies this
      decreases b, 3
      ensures Wrote(old(sb), old(indent), BlockText(b, old(indent)), ok)
    {
      ghost var sb0, d := sb, indent;
      BeginBlock();
      assert b.statements[0..] == b.statements;
      ok := WriteStatementBlock(b.statements, b.traps, b, 0);
      if !ok {
        return;
      }
      ghost var body := StatementBlockText(b, 0, d + 1).value;
      AppendAssoc(sb0, Open(d), body);
      EndBlock();
      AppendAssoc(sb0, Open(d) + body, Close(d));
    }

    /** `VisitNamedBlock`: the block keyword unless the block is unnamed, then the same three steps as `VisitStatementBlock`. */
    method VisitNamedBlock(nb: NamedBlock) returns (ok: bool)
      modifies this
      decreases nb, 0
      ensures Wrote(old(sb), old(indent), NamedBlockText(nb, old(indent)), ok)
    {
      ghost var sb0, d := sb, indent;
      ghost var keyword: string := [];
      if !nb.unnamed {
        var spelling := TokenSpelling(nb.blockKind);
        if spelling.None? {
          ok := false;
          return;
        }
        sb := sb + spelling.value;
        keyword := spelling.value;
      }
      ok := VisitStatementBlock(nb.block);
      if !ok {
        return;
      }
      AppendAssoc(sb0, keyword, BlockText(nb.block, d).value);
    }

    /** The attributes of a `param` block, each followed by a line break. */
    method WriteParamBlockAttributes(p: ParamBlock) returns (ok: bool)
      modifies this
      decreases p, 0
      ensures Wrote(old(sb), old(indent), Each(p.attributes, [], NL(old(indent)), old(indent)), ok)
    {
      ok := true;
      assert SeparatorText(Literal([]), indent) == [] && SeparatorText(LineBreak([]), indent) == NL(indent);
      if p.attributes != [] {
        ok := WriteEach(p.attributes, Literal([]), LineBreak([]));
      }
    }

    method VisitParamBlock(p: ParamBlock) returns (ok: bool)
      modifies this
      decreases p, 1
      ensures Wrote(old(sb), old(indent), ParamBlockText(p, old(indent)), ok)
    {
      ghost var sb0, d := sb, indent;
      ok := WriteParamBlockAttributes(p);
      if !ok {
        return;
      }
      // `w` is the text written since entry: the buffer is always `sb0 + w`.
      ghost var w := Each(p.attributes, [], NL(d), d).value;
      if p.parameters == [] {
        sb := sb + "param()";
        AppendAssoc(sb0, w, "param()");
        return;
      }
      sb := sb + "param(";
      AppendAssoc(sb0, w, "param(");
      w := w + "param(";
      assert sb == sb0 + w;
      Indent();
      AppendAssoc(sb0, w, NL(d + 1));
      w := w + NL(d + 1);
      assert sb == sb0 + w && indent == d + 1;
      ok := IntersperseParameters(p.parameters, LineBreaks(",", 2));
      if !ok {
        return;
      }
      ghost var ps := Interleave(ParameterTexts(p.parameters, d + 1).value, "," + NLs(2, d + 1));
      AppendAssoc(sb0, w, ps);
      w := w + ps;
      assert sb == sb0 + w;
      Dedent();
      assert indent == d;
      AppendAssoc(sb0, w, NL(d));
      w := w + NL(d);
      assert sb == sb0 + w;
      sb := sb + ")";
      AppendAssoc(sb0, w, ")");
      assert ParamBlockText(p, d) == Some(w + ")");
    }

    method VisitParameter(p: Parameter) returns (ok: bool)
      modifies this
      decreases p, 0
      ensures Wrote(old(sb), old(indent), ParameterText(p, old(indent)), ok)
    {
      ok := true;
      assert SeparatorText(Literal([]), indent) == [] && SeparatorText(LineBreak([]), indent) == NL(indent);
      if p.attributes != [] {
        ok := WriteEach(p.attributes, Literal([]), LineBreak([]));
        if !ok {
          return;
        }
      }
      ok := Visit(p.name);
      if !ok {
        return;
      }
      if p.defaultValue.Some? {
        sb := sb + " = ";
        ok := Visit(p.defaultValue.value);
      }
    }

    /** A `dynamicparam`, `begin`, `process` or explicit `end` block: a blank line, then the block. */
    method WriteBlockAfter(nb: NamedBlock) returns (ok: bool)
      modifies this
      decreases nb, 1
      ensures Wrote(old(sb), old(indent), BlockAfter(Some(nb), old(indent)), ok)
    {
      ghost var sb0, d := sb, indent;
      Newlines(2);
      ok := VisitNamedBlock(nb);
      if !ok {
        return;
      }
      AppendAssoc(sb0, NLs(2, d), NamedBlockText(nb, d).value);
    }

    /** `VisitScriptBlock`; `hasParent` says whether the script block is nested in another node. */
    method VisitScriptBlock(s: ScriptBlock, hasParent: bool) returns (ok: bool)
      modifies this
      decreases s, 3
      ensures Wrote(old(sb), old(indent), ScriptBlockText(s, old(indent), hasParent), ok)
    {
      ghost var sb0, d := sb, indent;
      if hasParent {
        sb := sb + "{";
        Indent();
      }
      ghost var e := indent;
      ok := WriteScriptBody(s);
      if !ok {
        return;
      }
      ghost var inner := ScriptBodyText(s, e).value;
      if hasParent {
        assert sb == sb0 + "{" + NL(e) + inner;
        Dedent();
        sb := sb + "}";
        assert indent == d;
      }
    }

    /** The parts of a script block, with the flags `VisitScriptBlock` keeps while writing them. */
    method WriteScriptBody(s: ScriptBlock) returns (ok: bool)
      modifies this
      decreases s, 2
      ensures Wrote(old(sb), old(indent), ScriptBodyText(s, old(indent)), ok)
    {
      ghost var sb0, e := sb, indent;
      var needNewline;
      ok, needNewline := WriteScriptHead(s);
      if !ok {
        return;
      }
      ghost var w := ScriptHeadText(s, e).value;
      var useExplicitEndBlock;
      ok, useExplicitEndBlock := WriteExplicitBlocks(s);
      if !ok {
        return;
      }
      AppendAssoc(sb0, w, ExplicitBlocksText(s, e).value);
      w := w + ExplicitBlocksText(s, e).value;
      needNewline := needNewline || useExplicitEndBlock;
      ok := WriteEnd(s, useExplicitEndBlock, needNewline);
      if !ok {
        return;
      }
      AppendAssoc(sb0, w, EndText(s, e).value);
    }

    /** The `param` block and the `using` statements; `needNewline` tells whether a `param` block was written. */
    method WriteScriptHead(s: ScriptBlock) returns (ok: bool, needNewline: bool)
      modifies this
      decreases s, 1
      ensures Wrote(old(sb), old(indent), ScriptHeadText(s, old(indent)), ok)
      ensures needNewline == s.paramBlock.Some?
    {
      ghost var sb0, e := sb, indent;
      needNewline := false;
      ok := true;
      if s.paramBlock.Some? {
        needNewline := true;
        ok := VisitParamBlock(s.paramBlock.value);
        if !ok {
          return;
        }
      }
      ghost var params := if s.paramBlock.Some? then ParamBlockText(s.paramBlock.value, e).value else [];
      assert sb == sb0 + params;
      ok := Intersperse(s.usingStatements, LineBreak([]));
      assert SeparatorText(LineBreak([]), e) == NL(e);
    }

    /** The `dynamicparam`, `begin` and `process` blocks; `useExplicitEndBlock` tells whether any was written. */
    method WriteExplicitBlocks(s: ScriptBlock) returns (ok: bool, useExplicitEndBlock: bool)
      modifies this
      decreases s, 1
      ensures Wrote(old(sb), old(indent), ExplicitBlocksText(s, old(indent)), ok)
      ensures useExplicitEndBlock == HasExplicitBlocks(s)
    {
      ghost var sb0, e := sb, indent;
      ghost var w: string := [];
      useExplicitEndBlock := false;
      ok := true;
      if s.dynamicParamBlock.Some? {
        useExplicitEndBlock := true;
        ok := WriteBlockAfter(s.dynamicParamBlock.value);
        if !ok {
          return;
        }
        w := BlockAfter(s.dynamicParamBlock, e).value;
      }
      assert sb == sb0 + w;
      if s.beginBlock.Some? {
        useExplicitEndBlock := true;
        ok := WriteBlockAfter(s.beginBlock.value);
        if !ok {
          return;
        }
        AppendAssoc(sb0, w, BlockAfter(s.beginBlock, e).value);
      }
      w := w + BlockAfter(s.beginBlock, e).value;
      assert sb == sb0 + w;
      if s.processBlock.Some? {
        useExplicitEndBlock := true;
        ok := WriteBlockAfter(s.processBlock.value);
        if !ok {
          return;
        }
        AppendAssoc(sb0, w, BlockAfter(s.processBlock, e).value);
      }
    }

    /** The end block, when it has statements or traps: as a named block after explicit blocks, otherwise as bare statements. */
    method WriteEnd(s: ScriptBlock, useExplicitEndBlock: bool, needNewline: bool) returns (ok: bool)
      requires useExplicitEndBlock == HasExplicitBlocks(s)
      requires needNewline == (s.paramBlock.Some? || useExplicitEndBlock)
      modifies this
      decreases s, 1
      ensures Wrote(old(sb), old(indent), EndText(s, old(indent)), ok)
    {
      ok := true;
      if s.endBlock.Some? && (s.endBlock.value.block.statements != [] || s.endBlock.value.block.traps != []) {
        var end := s.endBlock.value;
        if useExplicitEndBlock {
          ok := WriteBlockAfter(end);
        } else {
          ghost var sb0, e := sb, indent;
          if needNewline {
            Newlines(2);
          }
          assert end.block.statements[0..] == end.block.statements;
          ok := WriteStatementBlock(end.block.statements, end.block.traps, end.block, 0);
          if !ok {
            return;
          }
          AppendAssoc(sb0, if s.paramBlock.Some? then NLs(2, e) else [], StatementBlockText(end.block, 0, e).value);
        }
      }
    }

    // -------------------------------------------------------------------
    // Type names and strings
    // -------------------------------------------------------------------

    method WriteTypeName(t: TypeName)
      modifies this
      decreases t, 1
      ensures sb == old(sb) + TypeNameText(t) && indent == old(indent)
    {
      match t
      case ArrayTypeName(element, rank) =>
        WriteTypeName(element);
        if rank == 1 {
          sb := sb + "[]";
        } else {
          sb := sb + "[";
          ghost var sb1 := sb;
          var i := 1;
          while i < rank
            invariant 1 <= i && (i <= rank || i == 1)
            invariant sb == sb1 + Repeat(",", i - 1) && indent == old(indent)
          {
            sb := sb + ",";
            i := i + 1;
          }
          sb := sb + "]";
        }
      case GenericTypeName(fullName, arguments) =>
        sb := sb + fullName + "[";
        WriteTypeNames(arguments);
        sb := sb + "]";
      case SimpleTypeName(fullName) =>
        sb := sb + fullName;
    }

    /** The `Intersperse` over type names, with `_comma` between neighbours. */
    method WriteTypeNames(ts: seq<TypeName>)
      modifies this
      decreases ts, 0
      ensures sb == old(sb) + Interleave(TypeNameTexts(ts), ", ") && indent == old(indent)
    {
      if ts == [] {
        return;
      }
      ghost var sb0 := sb;
      WriteTypeName(ts[0]);
      assert ts[..1][..0] == [];
      for i := 1 to |ts|
        invariant sb == sb0 + Interleave(TypeNameTexts(ts[..i]), ", ") && indent == old(indent)
      {
        ghost var texts := TypeNameTexts(ts[..i]);
        sb := sb + ", ";
        WriteTypeName(ts[i]);
        assert ts[..i + 1][..i] == ts[..i];
        assert TypeNameTexts(ts[..i + 1]) == texts + [TypeNameText(ts[i])];
        InterleaveGrows(sb0, texts, ", ", TypeNameText(ts[i]));
      }
      assert ts[..|ts|] == ts;
    }

    /**
     * `WriteDoubleQuotedString`: each character of the value, escaped, between
     * double quotes. The source walks UTF-16 code units; here a character
     * outside the Basic Multilingual Plane is its two code units, each
     * written as its own escape.
     */
    method WriteDoubleQuotedString(v: string)
      modifies this
      ensures sb == old(sb) + DoubleQuoted(v) && indent == old(indent)
    {
      ghost var sb0 := sb;
      sb := sb + "\"";
      for i := 0 to |v|
        invariant sb == sb0 + "\"" + Escaped(v[..i]) && indent == old(indent)
      {
        WriteEscapedChar(v[i]);
        AppendAssoc(sb0 + "\"", Escaped(v[..i]), EscapeChar(v[i]));
        EscapedSnoc(v, i);
      }
      sb := sb + "\"";
      assert v[..|v|] == v;
    }

    /** The body of the character loop in `WriteDoubleQuotedString`. */
    method WriteEscapedChar(c: char)
      modifies this
      ensures sb == old(sb) + EscapeChar(c) && indent == old(indent)
    {
      match c {
        case '\0' => sb := sb + "`0";
        case '\U{7}' => sb := sb + "`a";
        case '\U{8}' => sb := sb + "`b";
        case '\U{C}' => sb := sb + "`f";
        case '\n' => sb := sb + "`n";
        case '\r' => sb := sb + "`r";
        case '\t' => sb := sb + "`t";
        case '\U{B}' => sb := sb + "`v";
        case '`' => sb := sb + "``";
        case '"' => sb := sb + "`\"";
        case '$' => sb := sb + "`$";
        case '\U{1B}' => sb := sb + "`e";
        case _ =>
          if c as int < 128 {
            sb := sb + [c];
          } else {
            var units := Utf16(c);
            ghost var sb1 := sb;
            for j := 0 to |units|
              invariant sb == sb1 + UnicodeEscapes(units[..j]) && indent == old(indent)
            {
              sb := sb + "`u{" + Hex(units[j]) + "}";
              AppendAssoc(sb1, UnicodeEscapes(units[..j]), UnicodeEscape(units[j]));
              assert units[..j + 1][..j] == units[..j];
            }
            assert units[..|units|] == units;
          }
      }
    }

    // -------------------------------------------------------------------
    // Node visits
    // -------------------------------------------------------------------

    /** `ast.Visit(this)`: the visit method for the node's class. */
    method Visit(n: Node) returns (ok: bool)
      modifies this
      decreases n, 5
      ensures Wrote(old(sb), old(indent), Render(n, old(indent)), ok)
    {
      if IsExpression(n) {
        ok := VisitExpression(n);
      } else if IsStatement(n) {
        ok := VisitStatement(n);
      } else {
        ok := VisitOther(n);
      }
    }

    /** `Visit` on an expression node. */
    method VisitExpression(n: Node) returns (ok: bool)
      requires IsExpression(n)
      modifies this
      decreases n, 4
      ensures Wrote(old(sb), old(indent), Render(n, old(indent)), ok)
    {
      if IsOperatorExpression(n) {
        ok := VisitOperatorExpression(n);
      } else {
        ok := VisitPrimaryExpression(n);
      }
    }

    /** `Visit` on an expression built around operand expressions. */
    method VisitOperatorExpression(n: Node) returns (ok: bool)
      requires IsOperatorExpression(n)
      modifies this
      decreases n, 3
      ensures Wrote(old(sb), old(indent), Render(n, old(indent)), ok)
    {
      if n.ArrayLiteral? {
        ok := Intersperse(n.elements, Literal(", "));
      } else if n.AttributedExpression? {
        ok := VisitAttributedExpression(n);
      } else if n.BaseCtorInvokeMemberExpression? {
        ok := VisitBaseCtorInvokeMemberExpression(n);
      } else if n.BinaryExpression? {
        ok := VisitBinaryExpression(n);
      } else if n.ConvertExpression? {
        ok := VisitAttributedExpression(n);
      } else if n.IndexExpression? {
        ok := VisitIndexExpression(n);
      } else if n.InvokeMemberExpression? {
        ok := VisitInvokeMemberExpression(n);
      } else if n.MemberExpression? {
        ok := VisitMemberExpression(n);
      } else if n.ParenExpression? {
        ok := VisitParenExpression(n);
      } else {
        ok := VisitUnaryExpression(n);
      }
    }

    /** `Visit` on the other expressions. */
    method VisitPrimaryExpression(n: Node) returns (ok: bool)
      requires IsExpression(n) && !IsOperatorExpression(n)
      modifies this
      decreases n, 3
      ensures Wrote(old(sb), old(indent), Render(n, old(indent)), ok)
    {
      if n.ArrayExpression? {
        ok := VisitArrayExpression(n);
      } else if n.ConstantExpression? {
        ok := VisitConstantExpression(n);
      } else if n.ErrorExpression? {
        ok := false;
      } else if n.ExpandableStringExpression? {
        var text := n.text;
        sb := sb + "\"" + text + "\"";
        ok := true;
      } else if n.HashtableExpression? {
        ok := VisitHashtable(n);
      } else if n.ScriptBlockExpression? {
        var s := n.scriptBlock;
        ok := VisitScriptBlock(s, true);
      } else if n.StringConstantExpression? {
        ok := VisitStringConstantExpression(n);
      } else if n.SubExpression? {
        ok := VisitSubExpression(n);
      } else if n.TypeExpression? {
        ok := VisitTypeExpression(n);
      } else if n.UsingExpression? {
        ok := VisitUsingExpression(n);
      } else {
        var splatted := n.splatted;
        var userPath := n.userPath;
        sb := sb + [if splatted then '@' else '$'] + userPath;
        ok := true;
      }
    }

    /** `Visit` on a statement node. */
    method VisitStatement(n: Node) returns (ok: bool)
      requires IsStatement(n)
      modifies this
      decreases n, 4
      ensures Wrote(old(sb), old(indent), Render(n, old(indent)), ok)
    {
      if IsLoop(n) {
        ok := VisitLoop(n);
      } else if IsJump(n) {
        ok := VisitJump(n);
      } else if IsCompoundStatement(n) {
        ok := VisitCompoundStatement(n);
      } else {
        ok := VisitSimpleStatement(n);
      }
    }

    /** `Visit` on a loop. */
    method VisitLoop(n: Node) returns (ok: bool)
      requires IsLoop(n)
      modifies this
      decreases n, 3
      ensures Wrote(old(sb), old(indent), Render(n, old(indent)), ok)
    {
      if n.DoUntilStatement? {
        ok := VisitDoLoop(n);
      } else if n.DoWhileStatement? {
        ok := VisitDoLoop(n);
      } else if n.ForEachStatement? {
        ok := VisitForEachStatement(n);
      } else if n.ForStatement? {
        ok := VisitForStatement(n);
      } else {
        ok := VisitWhileStatement(n);
      }
    }

    /** `Visit` on a jump statement. */
    method VisitJump(n: Node) returns (ok: bool)
      requires IsJump(n)
      modifies this
      decreases n, 3
      ensures Wrote(old(sb), old(indent), Render(n, old(indent)), ok)
    {
      if n.BreakStatement? {
        var target := n.jumpLabel;
        ok := WriteControlFlowStatement("break", target);
      } else if n.ContinueStatement? {
        var target := n.jumpLabel;
        ok := WriteControlFlowStatement("continue", target);
      } else if n.ExitStatement? {
        var pipeline := n.pipeline;
        ok := WriteControlFlowStatement("exit", pipeline);
      } else if n.ReturnStatement? {
        var pipeline := n.pipeline;
        ok := WriteControlFlowStatement("return", pipeline);
      } else {
        var pipeline := n.pipeline;
        ok := WriteControlFlowStatement("throw", pipeline);
      }
    }

    /** `Visit` on a statement with nested blocks. */
    method VisitCompoundStatement(n: Node) returns (ok: bool)
      requires IsCompoundStatement(n)
      modifies this
      decreases n, 3
      ensures Wrote(old(sb), old(indent), Render(n, old(indent)), ok)
    {
      if n.CatchClause? {
        ok := VisitCatchClause(n);
      } else if n.FunctionDefinition? {
        ok := VisitFunctionDefinition(n);
      } else if n.IfStatement? {
        ok := VisitIfStatement(n);
      } else if n.SwitchStatement? {
        ok := VisitSwitchStatement(n);
      } else if n.TrapStatement? {
        ok := VisitTrap(n);
      } else if n.TryStatement? {
        ok := VisitTryStatement(n);
      } else {
        ok := VisitTypeDefinition(n);
      }
    }

    /** `Visit` on an assignment, a `using` statement, or a statement the printer does not support. */
    method VisitSimpleStatement(n: Node) returns (ok: bool)
      requires IsStatement(n) && !IsLoop(n) && !IsJump(n) && !IsCompoundStatement(n)
      modifies this
      decreases n, 3
      ensures Wrote(old(sb), old(indent), Render(n, old(indent)), ok)
    {
      if n.AssignmentStatement? {
        ok := VisitBinaryExpression(n);
      } else if n.BlockStatement? {
        ok := false;
      } else if n.ConfigurationDefinition? {
        ok := false;
      } else if n.DataStatement? {
        ok := false;
      } else if n.DynamicKeywordStatement? {
        ok := false;
      } else if n.ErrorStatement? {
        ok := false;
      } else {
        ok := VisitUsingStatement(n);
      }
    }

    /** `Visit` on an attribute, command, redirection, pipeline or type member node. */
    method VisitOther(n: Node) returns (ok: bool)
      requires !IsExpression(n) && !IsStatement(n)
      modifies this
      decreases n, 4
      ensures Wrote(old(sb), old(indent), Render(n, old(indent)), ok)
    {
      if n.Attribute? {
        ok := VisitAttribute(n);
      } else if n.NamedAttributeArgument? {
        ok := VisitNamedAttributeArgument(n);
      } else if n.TypeConstraint? {
        ok := VisitTypeExpression(n);
      } else if n.Command? {
        ok := VisitCommand(n);
      } else if n.CommandExpression? {
        var expression := n.expression;
        ok := Visit(expression);
      } else if n.CommandParameter? {
        ok := VisitCommandParameter(n);
      } else if n.FileRedirection? {
        ok := VisitFileRedirection(n);
      } else if n.MergingRedirection? {
        var from := n.fromStream;
        var to := n.toStream;
        sb := sb + [StreamIndicator(from)] + ">&" + [StreamIndicator(to)];
        ok := true;
      } else if n.Pipeline? {
        ok := Intersperse(n.pipelineElements, Literal(" | "));
      } else if n.FunctionMember? {
        ok := VisitFunctionMember(n);
      } else {
        ok := VisitPropertyMember(n);
      }
    }

    method VisitArrayExpression(n: Node) returns (ok: bool)
      requires n.ArrayExpression?
      modifies this
      decreases n, 2
      ensures Wrote(old(sb), old(indent), ArrayExpressionText(n, old(indent)), ok)
    {
      sb := sb + "@(";
      assert n.subExpression.statements[0..] == n.subExpression.statements;
      ok := WriteStatementBlock(n.subExpression.statements, n.subExpression.traps, n.subExpression, 0);
      if !ok {
        return;
      }
      sb := sb + ")";
    }

    method VisitSubExpression(n: Node) returns (ok: bool)
      requires n.SubExpression?
      modifies this
      decreases n, 2
      ensures Wrote(old(sb), old(indent), SubExpressionText(n, old(indent)), ok)
    {
      sb := sb + "$(";
      assert n.subExpression.statements[0..] == n.subExpression.statements;
      ok := WriteStatementBlock(n.subExpression.statements, n.subExpression.traps, n.subExpression, 0);
      if !ok {
        return;
      }
      sb := sb + ")";
    }

    /** `VisitAttributedExpression` and `VisitConvertExpression`: the attribute, then the child. */
    method VisitAttributedExpression(n: Node) returns (ok: bool)
      requires n.AttributedExpression? || n.ConvertExpression?
      modifies this
      decreases n, 2
      ensures Wrote(old(sb), old(indent), AttributedText(n, old(indent)), ok)
    {
      ok := Visit(n.attribute);
      if !ok {
        return;
      }
      ok := Visit(n.child);
    }

    method VisitBaseCtorInvokeMemberExpression(n: Node) returns (ok: bool)
      requires n.BaseCtorInvokeMemberExpression?
      modifies this
      decreases n, 2
      ensures Wrote(old(sb), old(indent), BaseCtorText(n, old(indent)), ok)
    {
      ok := true;
      if n.arguments != [] {
        sb := sb + "base(";
        ok := Intersperse(n.arguments, Literal(", "));
        if !ok {
          return;
        }
        sb := sb + ")";
      }
    }

    /** `VisitBinaryExpression` and `VisitAssignmentStatement`. */
    method VisitBinaryExpression(n: Node) returns (ok: bool)
      requires n.BinaryExpression? || n.AssignmentStatement?
      modifies this
      decreases n, 2
      ensures Wrote(old(sb), old(indent), BinaryText(n, old(indent)), ok)
    {
      ghost var sb0, d := sb, indent;
      ok := Visit(n.left);
      if !ok {
        return;
      }
      ghost var w := Render(n.left, d).value;
      var op := TokenSpelling(n.operator);
      if op.None? {
        ok := false;
        return;
      }
      sb := sb + " " + op.value + " ";
      AppendAssoc3(sb0, w, " ", op.value, " ");
      w := w + " " + op.value + " ";
      ok := Visit(n.right);
      if !ok {
        return;
      }
      AppendAssoc(sb0, w, Render(n.right, d).value);
    }

    method VisitConstantExpression(n: Node) returns (ok: bool)
      requires n.ConstantExpression?
      modifies this
      decreases n, 2
      ensures Wrote(old(sb), old(indent), Some(ConstantText(n.value)), ok)
    {
      match n.value {
        case NullConstant => sb := sb + "$null";
        case BoolConstant(b) => sb := sb + (if b then "$true" else "$false");
        case OtherConstant(text) => sb := sb + text;
      }
      ok := true;
    }

    method VisitHashtable(n: Node) returns (ok: bool)
      requires n.HashtableExpression?
      modifies this
      decreases n, 2
      ensures Wrote(old(sb), old(indent), HashtableText(n, old(indent)), ok)
    {
      ghost var sb0, d := sb, indent;
      sb := sb + "@{";
      ok := true;
      if n.keyValuePairs == [] {
        sb := sb + "}";
        return;
      }
      Indent();
      ghost var w := "@{" + NL(d + 1);
      assert sb == sb0 + w && indent == d + 1;
      ok := IntersperseEntries(n.keyValuePairs, LineBreak([]));
      if !ok {
        return;
      }
      ghost var entries := Interleave(EntryTexts(n.keyValuePairs, d + 1).value, NL(d + 1));
      assert SeparatorText(LineBreak([]), d + 1) == NL(d + 1);
      AppendAssoc(sb0, w, entries);
      w := w + entries;
      Dedent();
      assert indent == d;
      sb := sb + "}";
      AppendAssoc2(sb0, w, NL(d), "}");
    }

    method VisitIndexExpression(n: Node) returns (ok: bool)
      requires n.IndexExpression?
      modifies this
      decreases n, 2
      ensures Wrote(old(sb), old(indent), IndexText(n, old(indent)), ok)
    {
      ok := Visit(n.target);
      if !ok {
        return;
      }
      sb := sb + "[";
      ok := Visit(n.index);
      if !ok {
        return;
      }
      sb := sb + "]";
    }

    method VisitInvokeMemberExpression(n: Node) returns (ok: bool)
      requires n.InvokeMemberExpression?
      modifies this
      decreases n, 2
      ensures Wrote(old(sb), old(indent), InvokeMemberText(n, old(indent)), ok)
    {
      ghost var sb0, d := sb, indent;
      ok := Visit(n.expression);
      if !ok {
        return;
      }
      ghost var e, dot := Render(n.expression, d).value, if n.isStatic then "::" else ".";
      sb := sb + (if n.isStatic then "::" else ".");
      ok := Visit(n.member);
      if !ok {
        return;
      }
      AppendAssoc2(sb0, e, dot, Render(n.member, d).value);
      ghost var w := e + dot + Render(n.member, d).value;
      sb := sb + "(";
      ok := Intersperse(n.arguments, Literal(", "));
      if !ok {
        return;
      }
      sb := sb + ")";
      AppendAssoc3(sb0, w, "(", Joined(n.arguments, ", ", d).value, ")");
    }

    method VisitMemberExpression(n: Node) returns (ok: bool)
      requires n.MemberExpression?
      modifies this
      decreases n, 2
      ensures Wrote(old(sb), old(indent), MemberText(n, old(indent)), ok)
    {
      ok := Visit(n.expression);
      if !ok {
        return;
      }
      sb := sb + (if n.isStatic then "::" else ".");
      ok := Visit(n.member);
    }

    method VisitParenExpression(n: Node) returns (ok: bool)
      requires n.ParenExpression?
      modifies this
      decreases n, 2
      ensures Wrote(old(sb), old(indent), ParenText(n, old(indent)), ok)
    {
      sb := sb + "(";
      ok := Visit(n.parenPipeline);
      if !ok {
        return;
      }
      sb := sb + ")";
    }

    method VisitStringConstantExpression(n: Node) returns (ok: bool)
      requires n.StringConstantExpression?
      modifies this
      decreases n, 2
      ensures Wrote(old(sb), old(indent), Some(StringConstantText(n.stringConstantType, n.text)), ok)
    {
      var v := n.text;
      match n.stringConstantType {
        case BareWord => sb := sb + v;
        case SingleQuotedString => sb := sb + "'" + DoubleQuoteMarks(v) + "'";
        case DoubleQuotedString => WriteDoubleQuotedString(v);
        case SingleQuotedHereString => sb := sb + "@'\n" + v + "\n'@";
        case DoubleQuotedHereString => sb := sb + "@\"\n" + v + "\n\"@";
      }
      ok := true;
    }

    /** `VisitTypeExpression` and `VisitTypeConstraint`: the type name in brackets. */
    method VisitTypeExpression(n: Node) returns (ok: bool)
      requires n.TypeExpression? || n.TypeConstraint?
      modifies this
      decreases n, 2
      ensures Wrote(old(sb), old(indent), Some("[" + TypeNameText(n.typeName) + "]"), ok)
    {
      sb := sb + "[";
      WriteTypeName(n.typeName);
      sb := sb + "]";
      ok := true;
    }

    method VisitUnaryExpression(n: Node) returns (ok: bool)
      requires n.UnaryExpression?
      modifies this
      decreases n, 2
      ensures Wrote(old(sb), old(indent), UnaryText(n, old(indent)), ok)
    {
      ghost var sb0, d := sb, indent;
      if n.tokenKind == PlusPlus {
        sb := sb + "++";
        ok := Visit(n.child);
        if ok {
          AppendAssoc(sb0, "++", Render(n.child, d).value);
        }
      } else if n.tokenKind == MinusMinus {
        sb := sb + "--";
        ok := Visit(n.child);
        if ok {
          AppendAssoc(sb0, "--", Render(n.child, d).value);
        }
      } else if n.tokenKind == PostfixPlusPlus {
        ok := Visit(n.child);
        if !ok {
          return;
        }
        sb := sb + "++";
        AppendAssoc(sb0, Render(n.child, d).value, "++");
      } else if n.tokenKind == PostfixMinusMinus {
        ok := Visit(n.child);
        if !ok {
          return;
        }
        sb := sb + "--";
        AppendAssoc(sb0, Render(n.child, d).value, "--");
      } else {
        var op := TokenSpelling(n.tokenKind);
        if op.None? {
          ok := false;
          return;
        }
        sb := sb + op.value + " ";
        ok := Visit(n.child);
        if ok {
          AppendAssoc2(sb0, op.value, " ", Render(n.child, d).value);
        }
      }
    }

    method VisitUsingExpression(n: Node) returns (ok: bool)
      requires n.UsingExpression?
      modifies this
      decreases n, 2
      ensures Wrote(old(sb), old(indent), UsingExpressionText(n), ok)
    {
      sb := sb + "$using:";
      if !n.usingTarget.VariableExpression? {
        ok := false;
        return;
      }
      sb := sb + n.usingTarget.userPath;
      ok := true;
    }

    method VisitAttribute(n: Node) returns (ok: bool)
      requires n.Attribute?
      modifies this
      decreases n, 2
      ensures Wrote(old(sb), old(indent), AttributeText(n, old(indent)), ok)
    {
      ghost var sb0, d := sb, indent;
      ghost var w := "[" + n.attributeTypeName + "(";
      sb := sb + "[" + n.attributeTypeName + "(";
      ok := WriteAttributeArguments(n);
      if !ok {
        return;
      }
      ghost var arguments := AttributeArgumentsText(n, d).value;
      AppendAssoc(sb0, w, arguments);
      sb := sb + ")]";
      AppendAssoc(sb0, w + arguments, ")]");
    }

    /** The positional arguments of an attribute, then its named arguments, with `_comma` between the two lists when both exist. */
    method WriteAttributeArguments(n: Node) returns (ok: bool)
      requires n.Attribute?
      modifies this
      decreases n, 1
      ensures Wrote(old(sb), old(indent), AttributeArgumentsText(n, old(indent)), ok)
    {
      ghost var sb0, d := sb, indent;
      var hadPositionalArgs := false;
      ok := true;
      if n.positionalArguments != [] {
        hadPositionalArgs := true;
        ok := Intersperse(n.positionalArguments, Literal(", "));
        if !ok {
          return;
        }
      }
      assert n.positionalArguments == [] ==> Joined(n.positionalArguments, ", ", d) == Some([]);
      ghost var w := Joined(n.positionalArguments, ", ", d).value;
      assert sb == sb0 + w;
      ghost var comma: string := [];
      if n.namedArguments != [] {
        if hadPositionalArgs {
          sb := sb + ", ";
          comma := ", ";
        }
        AppendAssoc(sb0, w, comma);
        w := w + comma;
        ok := Intersperse(n.namedArguments, Literal(", "));
        if !ok {
          return;
        }
      } else {
        w := w + comma;
      }
      assert n.namedArguments == [] ==> Joined(n.namedArguments, ", ", d) == Some([]);
      AppendAssoc(sb0, w, Joined(n.namedArguments, ", ", d).value);
    }

    method VisitNamedAttributeArgument(n: Node) returns (ok: bool)
      requires n.NamedAttributeArgument?
      modifies this
      decreases n, 2
      ensures Wrote(old(sb), old(indent), NamedAttributeArgumentText(n, old(indent)), ok)
    {
      sb := sb + n.argumentName;
      ok := true;
      if !n.expressionOmitted && n.argument.Some? {
        sb := sb + " = ";
        ok := Visit(n.argument.value);
      }
    }

    method VisitCommand(n: Node) returns (ok: bool)
      requires n.Command?
      modifies this
      decreases n, 2
      ensures Wrote(old(sb), old(indent), CommandText(n, old(indent)), ok)
    {
      ghost var sb0, d := sb, indent;
      ghost var invocation: string := [];
      if n.invocationOperator != Unknown {
        var op := TokenSpelling(n.invocationOperator);
        if op.None? {
          ok := false;
          return;
        }
        sb := sb + op.value + " ";
        AppendAssoc(sb0, op.value, " ");
        invocation := op.value + " ";
      }
      ok := Intersperse(n.commandElements, Literal(" "));
      if !ok {
        return;
      }
      ghost var elements := Joined(n.commandElements, " ", d).value;
      AppendAssoc(sb0, invocation, elements);
      ghost var sb1 := sb;
      ghost var redirections: string := [];
      if n.redirections != [] {
        sb := sb + " ";
        ok := Intersperse(n.redirections, Literal(" "));
        if !ok {
          return;
        }
        redirections := " " + Joined(n.redirections, " ", d).value;
        AppendAssoc(sb1, " ", Joined(n.redirections, " ", d).value);
      }
      AppendAssoc(sb0, invocation + elements, redirections);
    }

    method VisitCommandParameter(n: Node) returns (ok: bool)
      requires n.CommandParameter?
      modifies this
      decreases n, 2
      ensures Wrote(old(sb), old(indent), CommandParameterText(n, old(indent)), ok)
    {
      sb := sb + "-" + n.parameterName;
      ok := true;
      if n.argument.Some? {
        sb := sb + ":";
        ok := Visit(n.argument.value);
      }
    }

    method VisitFileRedirection(n: Node) returns (ok: bool)
      requires n.FileRedirection?
      modifies this
      decreases n, 2
      ensures Wrote(old(sb), old(indent), FileRedirectionText(n, old(indent)), ok)
    {
      if n.fromStream != Output {
        sb := sb + [StreamIndicator(n.fromStream)];
      }
      sb := sb + ">";
      ok := Visit(n.location);
    }

    /** `WriteControlFlowStatement`. */
    method WriteControlFlowStatement(keyword: string, child: Option<Node>) returns (ok: bool)
      modifies this
      decreases child, 1
      ensures Wrote(old(sb), old(indent), ControlFlowText(keyword, child, old(indent)), ok)
    {
      sb := sb + keyword;
      ok := true;
      if child.Some? {
        sb := sb + " ";
        ok := Visit(child.value);
      }
    }

    method VisitCatchClause(n: Node) returns (ok: bool)
      requires n.CatchClause?
      modifies this
      decreases n, 2
      ensures Wrote(old(sb), old(indent), CatchClauseText(n, old(indent)), ok)
    {
      sb := sb + "catch";
      ok := true;
      if n.catchTypes != [] {
        ok := WriteEach(n.catchTypes, Literal(" "), Literal([]));
        if !ok {
          return;
        }
      }
      ok := VisitStatementBlock(n.body);
    }

    /** `VisitDoUntilStatement` and `VisitDoWhileStatement`. */
    method VisitDoLoop(n: Node) returns (ok: bool)
      requires n.DoUntilStatement? || n.DoWhileStatement?
      modifies this
      decreases n, 2
      ensures Wrote(old(sb), old(indent), DoLoopText(n, old(indent)), ok)
    {
      ghost var sb0, d := sb, indent;
      sb := sb + "do";
      ghost var w := "do";
      ok := VisitStatementBlock(n.body);
      if !ok {
        return;
      }
      ghost var b := BlockText(n.body, d).value;
      AppendAssoc(sb0, w, b);
      w := w + b;
      var keyword := if n.DoUntilStatement? then " until (" else " while (";
      sb := sb + keyword;
      AppendAssoc(sb0, w, keyword);
      w := w + keyword;
      ok := Visit(n.condition);
      if !ok {
        return;
      }
      ghost var c := Render(n.condition, d).value;
      AppendAssoc(sb0, w, c);
      w := w + c;
      assert sb == sb0 + w;
      sb := sb + ")";
      EndStatement();
      AppendAssoc2(sb0, w, ")", "\n");
    }

    method VisitForEachStatement(n: Node) returns (ok: bool)
      requires n.ForEachStatement?
      modifies this
      decreases n, 2
      ensures Wrote(old(sb), old(indent), ForEachText(n, old(indent)), ok)
    {
      ghost var sb0, d := sb, indent;
      sb := sb + "foreach (";
      ghost var w := "foreach (";
      ok := Visit(n.variable);
      if !ok {
        return;
      }
      ghost var v := Render(n.variable, d).value;
      AppendAssoc(sb0, w, v);
      w := w + v;
      sb := sb + " in ";
      AppendAssoc(sb0, w, " in ");
      w := w + " in ";
      ok := Visit(n.condition);
      if !ok {
        return;
      }
      ghost var c := Render(n.condition, d).value;
      AppendAssoc(sb0, w, c);
      w := w + c;
      sb := sb + ")";
      AppendAssoc(sb0, w, ")");
      w := w + ")";
      ok := VisitStatementBlock(n.body);
      if !ok {
        return;
      }
      ghost var b := BlockText(n.body, d).value;
      AppendAssoc(sb0, w, b);
      w := w + b;
      EndStatement();
      AppendAssoc(sb0, w, "\n");
    }

    /** `VisitForStatement`; visiting a missing initializer, condition or iterator throws. */
    method VisitForStatement(n: Node) returns (ok: bool)
      requires n.ForStatement?
      modifies this
      decreases n, 2
      ensures Wrote(old(sb), old(indent), ForText(n, old(indent)), ok)
    {
      ghost var sb0, d := sb, indent;
      sb := sb + "for (";
      ghost var w := "for (";
      if n.initializer.None? {
        ok := false;
        return;
      }
      ok := Visit(n.initializer.value);
      if !ok {
        return;
      }
      ghost var i := Render(n.initializer.value, d).value;
      AppendAssoc(sb0, w, i);
      w := w + i;
      sb := sb + "; ";
      AppendAssoc(sb0, w, "; ");
      w := w + "; ";
      if n.forCondition.None? {
        ok := false;
        return;
      }
      ok := Visit(n.forCondition.value);
      if !ok {
        return;
      }
      ghost var c := Render(n.forCondition.value, d).value;
      AppendAssoc(sb0, w, c);
      w := w + c;
      sb := sb + "; ";
      AppendAssoc(sb0, w, "; ");
      w := w + "; ";
      if n.forIterator.None? {
        ok := false;
        return;
      }
      ok := Visit(n.forIterator.value);
      if !ok {
        return;
      }
      ghost var it := Render(n.forIterator.value, d).value;
      AppendAssoc(sb0, w, it);
      w := w + it;
      sb := sb + ")";
      AppendAssoc(sb0, w, ")");
      w := w + ")";
      ok := VisitStatementBlock(n.body);
      if !ok {
        return;
      }
      ghost var b := BlockText(n.body, d).value;
      AppendAssoc(sb0, w, b);
      w := w + b;
      EndStatement();
      AppendAssoc(sb0, w, "\n");
    }

    method VisitFunctionDefinition(n: Node) returns (ok: bool)
      requires n.FunctionDefinition?
      modifies this
      decreases n, 2
      ensures Wrote(old(sb), old(indent), FunctionDefinitionText(n, old(indent)), ok)
    {
      ghost var sb0, d := sb, indent;
      ghost var head := (if n.isFilter then "filter " else "function ") + n.name + NL(d);
      sb := sb + (if n.isFilter then "filter " else "function ");
      sb := sb + n.name;
      Newline();
      AppendAssoc2(sb0, if n.isFilter then "filter " else "function ", n.name, NL(d));
      ok := VisitScriptBlock(n.functionBody, true);
      if !ok {
        return;
      }
      ghost var b := ScriptBlockText(n.functionBody, d, true).value;
      EndStatement();
      AppendAssoc2(sb0, head, b, "\n");
    }

    method VisitIfStatement(n: Node) returns (ok: bool)
      requires n.IfStatement?
      modifies this
      decreases n, 2
      ensures Wrote(old(sb), old(indent), IfText(n, old(indent)), ok)
    {
      ghost var sb0, d := sb, indent;
      sb := sb + "if (";
      if n.clauses == [] {
        ok := false;
        return;
      }
      ok := Visit(n.clauses[0].condition);
      if !ok {
        return;
      }
      ghost var w := "if (" + Render(n.clauses[0].condition, d).value;
      AppendAssoc(sb0, "if (", Render(n.clauses[0].condition, d).value);
      sb := sb + ")";
      AppendAssoc(sb0, w, ")");
      w := w + ")";
      ok := VisitStatementBlock(n.clauses[0].body);
      if !ok {
        return;
      }
      AppendAssoc(sb0, w, BlockText(n.clauses[0].body, d).value);
      w := w + BlockText(n.clauses[0].body, d).value;
      ok := WriteElseIfs(n);
      if !ok {
        return;
      }
      ghost var elseIfs := ElseIfsText(n.clauses, d).value;
      AppendAssoc(sb0, w, elseIfs);
      w := w + elseIfs;
      ok := WriteElseClause(n);
      if !ok {
        return;
      }
      AppendAssoc(sb0, w, ElseText(n, d).value);
    }

    /** The `elseif` clauses of `VisitIfStatement`: every clause after the first, in order. */
    method WriteElseIfs(n: Node) returns (ok: bool)
      requires n.IfStatement? && n.clauses != []
      modifies this
      decreases n, 1
      ensures Wrote(old(sb), old(indent), ElseIfsText(n.clauses, old(indent)), ok)
    {
      ghost var sb0, d := sb, indent;
      ok := true;
      assert n.clauses[..1][..0] == [];
      for i := 1 to |n.clauses|
        invariant indent == d && ElseIfsText(n.clauses[..i], d).Some?
        invariant sb == sb0 + ElseIfsText(n.clauses[..i], d).value
      {
        ghost var e := ElseIfsText(n.clauses[..i], d).value;
        ok := WriteElseIf(n.clauses[i], n);
        if !ok {
          ElseIfsFail(n.clauses, i, d);
          return;
        }
        ElseIfsGrow(n.clauses, i, d);
        AppendAssoc(sb0, e, ElseIfText(n.clauses[i], d).value);
      }
      assert n.clauses[..|n.clauses|] == n.clauses;
    }

    /** The end of `VisitIfStatement`: the `else` clause, when there is one. */
    method WriteElseClause(n: Node) returns (ok: bool)
      requires n.IfStatement?
      modifies this
      decreases n, 1
      ensures Wrote(old(sb), old(indent), ElseText(n, old(indent)), ok)
    {
      ghost var sb0, d := sb, indent;
      ok := true;
      if n.elseClause.Some? {
        Newline();
        sb := sb + "else";
        AppendAssoc(sb0, NL(d), "else");
        ok := VisitStatementBlock(n.elseClause.value);
        if !ok {
          return;
        }
        AppendAssoc(sb0, NL(d) + "else", BlockText(n.elseClause.value, d).value);
      }
    }

    method WriteElseIf(c: Clause, ghost owner: Node) returns (ok: bool)
      requires owner.IfStatement? && c in owner.clauses
      modifies this
      decreases owner, 0
      ensures Wrote(old(sb), old(indent), ElseIfText(c, old(indent)), ok)
    {
      ghost var sb0, d := sb, indent;
      Newline();
      sb := sb + "elseif (";
      AppendAssoc(sb0, NL(d), "elseif (");
      ghost var w := NL(d) + "elseif (";
      ok := Visit(c.condition);
      if !ok {
        return;
      }
      AppendAssoc(sb0, w, Render(c.condition, d).value);
      w := w + Render(c.condition, d).value;
      sb := sb + ")";
      AppendAssoc(sb0, w, ")");
      w := w + ")";
      ok := VisitStatementBlock(c.body);
      if !ok {
        return;
      }
      AppendAssoc(sb0, w, BlockText(c.body, d).value);
    }

    method VisitSwitchStatement(n: Node) returns (ok: bool)
      requires n.SwitchStatement?
      modifies this
      decreases n, 2
      ensures Wrote(old(sb), old(indent), SwitchText(n, old(indent)), ok)
    {
      ghost var sb0, d := sb, indent;
      ghost var w: string := if n.switchLabel.Some? then ":" + n.switchLabel.value + " " else [];
      if n.switchLabel.Some? {
        sb := sb + ":" + n.switchLabel.value + " ";
        AppendAssoc2(sb0, ":", n.switchLabel.value, " ");
      }
      sb := sb + "switch (";
      AppendAssoc(sb0, w, "switch (");
      w := w + "switch (";
      assert sb == sb0 + w;
      ok := Visit(n.condition);
      if !ok {
        return;
      }
      AppendAssoc(sb0, w, Render(n.condition, d).value);
      w := w + Render(n.condition, d).value;
      assert sb == sb0 + w;
      sb := sb + ")";
      AppendAssoc(sb0, w, ")");
      w := w + ")";
      assert sb == sb0 + w;
      BeginBlock();
      AppendAssoc(sb0, w, Open(d));
      w := w + Open(d);
      assert sb == sb0 + w && indent == d + 1;
      var hasCases;
      ok, hasCases := WriteSwitchClauses(n);
      if !ok {
        assert SwitchText(n, d).None?;
        return;
      }
      ghost var cases := Interleave(CaseTexts(n.switchClauses, d + 1).value, NLs(2, d + 1));
      AppendAssoc(sb0, w, cases);
      w := w + cases;
      assert sb == sb0 + w;
      ok := WriteDefaultClause(n, hasCases);
      if !ok {
        assert SwitchText(n, d).None?;
        return;
      }
      ghost var defaultText := DefaultClauseText(n, d + 1).value;
      AppendAssoc(sb0, w, defaultText);
      w := w + defaultText;
      assert sb == sb0 + w;
      EndBlock();
      assert indent == d;
      AppendAssoc(sb0, w, Close(d));
      SwitchTextOf(n, d);
    }

    /** The case clauses of `VisitSwitchStatement`, separated by blank lines; `hasCases` tells whether there were any. */
    method WriteSwitchClauses(n: Node) returns (ok: bool, hasCases: bool)
      requires n.SwitchStatement?
      modifies this
      decreases n, 1
      ensures hasCases == (n.switchClauses != [])
      ensures ok == CaseTexts(n.switchClauses, old(indent)).Some?
      ensures ok ==> indent == old(indent) &&
                     sb == old(sb) + Interleave(CaseTexts(n.switchClauses, old(indent)).value, NLs(2, old(indent)))
    {
      ok, hasCases := true, false;
      assert SeparatorText(LineBreaks([], 2), indent) == NLs(2, indent);
      if n.switchClauses != [] {
        hasCases := true;
        ok := IntersperseCases(n.switchClauses, LineBreaks([], 2));
      }
    }

    /** The `default` clause of `VisitSwitchStatement`, after a blank line when there are cases before it. */
    method WriteDefaultClause(n: Node, hasCases: bool) returns (ok: bool)
      requires n.SwitchStatement? && hasCases == (n.switchClauses != [])
      modifies this
      decreases n, 1
      ensures Wrote(old(sb), old(indent), DefaultClauseText(n, old(indent)), ok)
    {
      ghost var sb0, d := sb, indent;
      ok := true;
      if n.defaultClause.Some? {
        ghost var gap: string := [];
        if hasCases {
          Newlines(2);
          gap := NLs(2, d);
        }
        sb := sb + "default";
        AppendAssoc(sb0, gap, "default");
        ok := VisitStatementBlock(n.defaultClause.value);
        if !ok {
          return;
        }
        AppendAssoc(sb0, gap + "default", BlockText(n.defaultClause.value, d).value);
      }
    }

    method VisitTrap(n: Node) returns (ok: bool)
      requires n.TrapStatement?
      modifies this
      decreases n, 2
      ensures Wrote(old(sb), old(indent), TrapText(n, old(indent)), ok)
    {
      sb := sb + "trap";
      if n.trapType.Some? {
        sb := sb + " ";
        ok := Visit(n.trapType.value);
        if !ok {
          return;
        }
      }
      ok := VisitStatementBlock(n.body);
    }

    method VisitTryStatement(n: Node) returns (ok: bool)
      requires n.TryStatement?
      modifies this
      decreases n, 2
      ensures Wrote(old(sb), old(indent), TryText(n, old(indent)), ok)
    {
      ghost var sb0, d := sb, indent;
      sb := sb + "try";
      ok := VisitStatementBlock(n.body);
      if !ok {
        return;
      }
      ghost var w := "try" + BlockText(n.body, d).value;
      AppendAssoc(sb0, "try", BlockText(n.body, d).value);
      ok := WriteCatchClauses(n);
      if !ok {
        return;
      }
      ghost var catches := Each(n.catchClauses, NL(d), [], d).value;
      AppendAssoc(sb0, w, catches);
      w := w + catches;
      ok := WriteFinally(n);
      if !ok {
        return;
      }
      AppendAssoc(sb0, w, FinallyText(n, d).value);
    }

    /** The catch clauses of `VisitTryStatement`, each on a line of its own. */
    method WriteCatchClauses(n: Node) returns (ok: bool)
      requires n.TryStatement?
      modifies this
      decreases n, 1
      ensures Wrote(old(sb), old(indent), Each(n.catchClauses, NL(old(indent)), [], old(indent)), ok)
    {
      ok := true;
      assert SeparatorText(LineBreak([]), indent) == NL(indent) && SeparatorText(Literal([]), indent) == [];
      if n.catchClauses != [] {
        ok := WriteEach(n.catchClauses, LineBreak([]), Literal([]));
      }
    }

    /** The end of `VisitTryStatement`: the `finally` clause, when there is one. */
    method WriteFinally(n: Node) returns (ok: bool)
      requires n.TryStatement?
      modifies this
      decreases n, 1
      ensures Wrote(old(sb), old(indent), FinallyText(n, old(indent)), ok)
    {
      ghost var sb0, d := sb, indent;
      ok := true;
      if n.finallyBlock.Some? {
        Newline();
        sb := sb + "finally";
        AppendAssoc(sb0, NL(d), "finally");
        ok := VisitStatementBlock(n.finallyBlock.value);
        if !ok {
          return;
        }
        AppendAssoc(sb0, NL(d) + "finally", BlockText(n.finallyBlock.value, d).value);
      }
    }

    method VisitTypeDefinition(n: Node) returns (ok: bool)
      requires n.TypeDefinition?
      modifies this
      decreases n, 2
      ensures Wrote(old(sb), old(indent), TypeDefinitionText(n, old(indent)), ok)
    {
      ghost var sb0, d := sb, indent;
      WriteTypeHead(n);
      ghost var w := TypeHead(n);
      ok := true;
      if n.members == [] {
        Newline();
        sb := sb + "{";
        Newline();
        sb := sb + "}";
        AppendAssoc3(sb0, w, NL(d), "{", NL(d));
        AppendAssoc(sb0, w + NL(d) + "{" + NL(d), "}");
        return;
      }
      BeginBlock();
      AppendAssoc(sb0, w, Open(d));
      w := w + Open(d);
      ok := WriteMembers(n);
      if !ok {
        return;
      }
      AppendAssoc(sb0, w, MembersText(n, d + 1).value);
      w := w + MembersText(n, d + 1).value;
      EndBlock();
      assert indent == d;
      AppendAssoc(sb0, w, Close(d));
    }

    /** The keyword, name and base types written by `VisitTypeDefinition`. */
    method WriteTypeHead(n: Node)
      requires n.TypeDefinition?
      modifies this
      ensures sb == old(sb) + TypeHead(n) && indent == old(indent)
    {
      ghost var sb0 := sb;
      ghost var keyword: string;
      match n.typeKind {
        case ClassType => sb := sb + "class "; keyword := "class ";
        case InterfaceType => sb := sb + "interface "; keyword := "interface ";
        case EnumType => sb := sb + "enum "; keyword := "enum ";
      }
      sb := sb + n.name;
      AppendAssoc(sb0, keyword, n.name);
      ghost var sb1 := sb;
      ghost var bases: string := [];
      if n.baseTypes != [] {
        sb := sb + " : ";
        WriteTypeNames(n.baseTypes);
        bases := " : " + Interleave(TypeNameTexts(n.baseTypes), ", ");
        AppendAssoc(sb1, " : ", Interleave(TypeNameTexts(n.baseTypes), ", "));
      }
      AppendAssoc(sb0, keyword + n.name, bases);
    }

    /** The members of a type definition, written by `Intersperse` inside its braces. */
    method WriteMembers(n: Node) returns (ok: bool)
      requires n.TypeDefinition?
      modifies this
      decreases n, 1
      ensures Wrote(old(sb), old(indent), MembersText(n, old(indent)), ok)
    {
      ghost var d := indent;
      assert SeparatorText(LineBreaks([], 2), d) == NLs(2, d);
      ok := true;
      if n.typeKind == EnumType {
        ok := Intersperse(n.members, LineBreak(","));
      } else if n.typeKind == ClassType {
        ok := Intersperse(n.members, LineBreaks([], 2));
      }
    }

    method VisitUsingStatement(n: Node) returns (ok: bool)
      requires n.UsingStatement?
      modifies this
      decreases n, 2
      ensures Wrote(old(sb), old(indent), UsingStatementText(n, old(indent)), ok)
    {
      ghost var sb0, d := sb, indent;
      ghost var kind := UsingKindText(n.usingStatementKind);
      sb := sb + "using ";
      WriteUsingKind(n.usingStatementKind);
      AppendAssoc(sb0, "using ", kind);
      ok := WriteUsingTarget(n);
      if !ok {
        return;
      }
      ghost var target := UsingTargetText(n, d).value;
      AppendAssoc(sb0, "using " + kind, target);
      EndStatement();
      AppendAssoc(sb0, "using " + kind + target, "\n");
    }

    /** The `switch` over the kind of a `using` statement. */
    method WriteUsingKind(k: UsingKind)
      modifies this
      ensures sb == old(sb) + UsingKindText(k) && indent == old(indent)
    {
      match k {
        case UsingAssembly => sb := sb + "assembly ";
        case UsingCommand => sb := sb + "command ";
        case UsingModule => sb := sb + "module ";
        case UsingNamespace => sb := sb + "namespace ";
        case UsingType => sb := sb + "type ";
      }
    }

    /** What a `using` statement imports: the module specification between `@{ ` and ` }`, or the name and the alias. */
    method WriteUsingTarget(n: Node) returns (ok: bool)
      requires n.UsingStatement?
      modifies this
      decreases n, 1
      ensures Wrote(old(sb), old(indent), UsingTargetText(n, old(indent)), ok)
    {
      ghost var sb0, d := sb, indent;
      ok := true;
      if n.moduleSpecification.Some? {
        sb := sb + "@{ ";
        ok := IntersperseEntries(n.moduleSpecification.value.keyValuePairs, Literal("; "));
        if !ok {
          return;
        }
        ghost var entries := Interleave(EntryTexts(n.moduleSpecification.value.keyValuePairs, d).value, "; ");
        sb := sb + " }";
        AppendAssoc2(sb0, "@{ ", entries, " }");
        return;
      }
      if n.usingName.Some? {
        ok := Visit(n.usingName.value);
        if !ok {
          return;
        }
      }
      OptionalBare(n.usingName, d);
      ghost var name := Optional(n.usingName, [], d).value;
      assert sb == sb0 + name;
      if n.alias.Some? {
        sb := sb + " = ";
        ok := Visit(n.alias.value);
        if !ok {
          return;
        }
        AppendAssoc2(sb0, name, " = ", Render(n.alias.value, d).value);
      }
    }

    method VisitWhileStatement(n: Node) returns (ok: bool)
      requires n.WhileStatement?
      modifies this
      decreases n, 2
      ensures Wrote(old(sb), old(indent), WhileText(n, old(indent)), ok)
    {
      sb := sb + "while (";
      ok := Visit(n.condition);
      if !ok {
        return;
      }
      sb := sb + ")";
      ok := VisitStatementBlock(n.body);
    }

    method VisitPropertyMember(n: Node) returns (ok: bool)
      requires n.PropertyMember?
      modifies this
      decreases n, 2
      ensures Wrote(old(sb), old(indent), PropertyMemberText(n, old(indent)), ok)
    {
      ghost var sb0, d := sb, indent;
      WriteMemberModifiers(n.isStatic, n.isHidden);
      ghost var w := MemberModifiers(n.isStatic, n.isHidden);
      ok := true;
      if n.propertyType.Some? {
        ok := Visit(n.propertyType.value);
        if !ok {
          return;
        }
      }
      OptionalBare(n.propertyType, d);
      ghost var t := Optional(n.propertyType, [], d).value;
      AppendAssoc(sb0, w, t);
      w := w + t;
      sb := sb + "$" + n.name;
      AppendAssoc2(sb0, w, "$", n.name);
      w := w + "$" + n.name;
      assert sb == sb0 + w;
      ghost var sb1 := sb;
      if n.initialValue.Some? {
        sb := sb + " = ";
        ok := Visit(n.initialValue.value);
        if !ok {
          return;
        }
        AppendAssoc(sb1, " = ", Render(n.initialValue.value, d).value);
      }
      AppendAssoc(sb0, w, Optional(n.initialValue, " = ", d).value);
    }

    /**
     * `VisitFunctionMember`. For a constructor the first statement of the
     * body must be the base-constructor call (the casts throw otherwise);
     * the remaining statements are copied into a fresh array and written.
     */
    method VisitFunctionMember(n: Node) returns (ok: bool)
      requires n.FunctionMember?
      modifies this
      decreases n, 2
      ensures Wrote(old(sb), old(indent), FunctionMemberText(n, old(indent)), ok)
    {
      ghost var sb0, d := sb, indent;
      ok := WriteSignature(n);
      if !ok {
        return;
      }
      ghost var w := SignatureText(n, d).value;
      if n.functionBody.endBlock.None? {
        ok := false;
        return;
      }
      var end := n.functionBody.endBlock.value;
      var statementAsts := end.block.statements;
      ghost var skip := 0;
      ok := WriteBaseCall(n);
      if !ok {
        return;
      }
      AppendAssoc(sb0, w, BaseText(n, d).value);
      w := w + BaseText(n, d).value;
      if n.isConstructor {
        statementAsts := WithoutFirst(statementAsts);
        skip := 1;
      }
      ok := WriteFunctionBody(statementAsts, end.block.traps, end.block, skip);
      if !ok {
        return;
      }
      AppendAssoc(sb0, w, FunctionBodyText(end.block, skip, d).value);
    }

    /** The signature of a function member, up to its closing parenthesis. */
    method WriteSignature(n: Node) returns (ok: bool)
      requires n.FunctionMember?
      modifies this
      decreases n, 1
      ensures Wrote(old(sb), old(indent), SignatureText(n, old(indent)), ok)
    {
      ghost var sb0, d := sb, indent;
      ok := WriteModifiers(n);
      if !ok {
        return;
      }
      ghost var w := ModifiersText(n, d).value;
      sb := sb + n.name + "(";
      AppendAssoc2(sb0, w, n.name, "(");
      w := w + n.name + "(";
      ok := WriteInlineParameters(n.parameters);
      if !ok {
        return;
      }
      AppendAssoc(sb0, w, InlineParametersText(n.parameters, d).value);
      w := w + InlineParametersText(n.parameters, d).value;
      sb := sb + ")";
      AppendAssoc(sb0, w, ")");
    }

    /** The `static` and `hidden` modifiers of a class member. */
    method WriteMemberModifiers(isStatic: bool, isHidden: bool)
      modifies this
      ensures sb == old(sb) + MemberModifiers(isStatic, isHidden) && indent == old(indent)
    {
      if isStatic {
        sb := sb + "static ";
      }
      if isHidden {
        sb := sb + "hidden ";
      }
      assert sb == old(sb) + MemberModifiers(isStatic, isHidden);
    }

    /** The modifiers and return type of a method; nothing for a constructor. */
    method WriteModifiers(n: Node) returns (ok: bool)
      requires n.FunctionMember?
      modifies this
      decreases n, 0
      ensures Wrote(old(sb), old(indent), ModifiersText(n, old(indent)), ok)
    {
      ghost var sb0, d := sb, indent;
      ok := true;
      if !n.isConstructor {
        WriteMemberModifiers(n.isStatic, n.isHidden);
        ghost var w := MemberModifiers(n.isStatic, n.isHidden);
        if n.returnType.Some? {
          ok := Visit(n.returnType.value);
          if !ok {
            return;
          }
          AppendAssoc(sb0, w, Render(n.returnType.value, d).value);
        }
        OptionalBare(n.returnType, d);
      }
    }

    /**
     * The base-constructor call at the head of a constructor's body: the
     * conversions of the first statement throw when it is not one; it is
     * written after " : " only when it has arguments.
     */
    method WriteBaseCall(n: Node) returns (ok: bool)
      requires n.FunctionMember? && n.functionBody.endBlock.Some?
      modifies this
      decreases n, 1
      ensures Wrote(old(sb), old(indent), BaseText(n, old(indent)), ok)
    {
      ok := true;
      if n.isConstructor {
        var statements := n.functionBody.endBlock.value.block.statements;
        if statements == [] || !statements[0].CommandExpression?
          || !statements[0].expression.BaseCtorInvokeMemberExpression?
        {
          ok := false;
          return;
        }
        var baseCtorCall := statements[0].expression;
        if baseCtorCall.arguments != [] {
          sb := sb + " : ";
          ok := Visit(baseCtorCall);
        }
      }
    }

    /** The copy of a constructor's statements without the base call, made through a new array. */
    method WithoutFirst(statements: seq<Node>) returns (rest: seq<Node>)
      requires statements != []
      ensures rest == statements[1..]
    {
      var newStatementAsts := new Node[|statements| - 1];
      for i := 0 to newStatementAsts.Length
        invariant forall j :: 0 <= j < i ==> newStatementAsts[j] == statements[j + 1]
      {
        newStatementAsts[i] := statements[i + 1];
      }
      rest := newStatementAsts[..];
    }

    /** The body of a function member: an empty pair of braces on their own lines, or the remaining statements in a block. */
    method WriteFunctionBody(statements: seq<Node>, traps: seq<Node>, ghost owner: StatementBlock, ghost skip: nat) returns (ok: bool)
      requires skip <= |owner.statements| && statements == owner.statements[skip..] && traps == owner.traps
      modifies this
      decreases owner, 4
      ensures Wrote(old(sb), old(indent), FunctionBodyText(owner, skip, old(indent)), ok)
    {
      ghost var sb0, d := sb, indent;
      ok := true;
      assert statements == [] <==> |owner.statements| == skip;
      if statements == [] && traps == [] {
        Newline();
        sb := sb + "{";
        Newline();
        sb := sb + "}";
        AppendAssoc3(sb0, NL(d), "{", NL(d), "}");
        assert FunctionBodyText(owner, skip, d) == Some(NL(d) + "{" + NL(d) + "}");
        return;
      }
      assert FunctionBodyText(owner, skip, d) == (var body :- StatementBlockText(owner, skip, d + 1); Some(Open(d) + body + Close(d)));
      ok := WriteBracedStatements(statements, traps, owner, skip);
    }

    /** The statements of a function member's body that does not stay empty, in a block of their own. */
    method WriteBracedStatements(statements: seq<Node>, traps: seq<Node>, ghost owner: StatementBlock, ghost skip: nat) returns (ok: bool)
      requires skip <= |owner.statements| && statements == owner.statements[skip..] && traps == owner.traps
      modifies this
      decreases owner, 3
      ensures ok == StatementBlockText(owner, skip, old(indent) + 1).Some?
      ensures ok ==> indent == old(indent) &&
                     sb == old(sb) + Open(old(indent)) + StatementBlockText(owner, skip, old(indent) + 1).value + Close(old(indent))
    {
      ghost var sb0, d := sb, indent;
      BeginBlock();
      ok := WriteStatementBlock(statements, traps, owner, skip);
      if !ok {
        return;
      }
      ghost var body := StatementBlockText(owner, skip, d + 1).value;
      EndBlock();
      AppendAssoc(sb0, Open(d) + body, Close(d));
    }

    /**
     * `Run` on a script: clears the buffer (but not the depth, which a
     * previous run that threw may have left raised), visits the script
     * block as a root, and returns the text, `None` when the visit throws.
     */
    method Run(root: ScriptBlock) returns (r: Option<string>)
      modifies this
      ensures r == ScriptText(root, old(indent))
      ensures r.Some? ==> indent == old(indent) && sb == r.value
    {
      ghost var d := indent;
      sb := [];
      var ok := VisitScriptBlock(root, false);
      ghost var out := ScriptBlockText(root, d, false);
      if ok {
        assert [] + out.value == out.value;
      }
      r := if ok then Some(sb) else None;
      assert ScriptText(root, d) == out;
    }
  }
}
