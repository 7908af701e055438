/**
 * Properties of the printed text that relate several rendering functions:
 * how lists and statement blocks are laid out, when a list fails, how a
 * constructor's base call is handled, and what redirections, constants and
 * array type names read back as.
 */
module Properties {
  import opened Wrappers
  import opened Text
  import opened Streams
  import opened Ast
  import opened Rendering

  // ---------------------------------------------------------------------
  // Intersperse
  // ---------------------------------------------------------------------

  /** A list renders exactly when every element renders, and then element by element. */
  lemma {:induction false} RenderAllSucceeds(ns: seq<Node>, d: int)
    ensures RenderAll(ns, d).Some? <==> forall i :: 0 <= i < |ns| ==> Render(ns[i], d).Some?
    ensures RenderAll(ns, d).Some? ==> forall i :: 0 <= i < |ns| ==> RenderAll(ns, d).value[i] == Render(ns[i], d).value
    decreases |ns|
  {
    if ns != [] {
      var init := ns[..|ns| - 1];
      var last := ns[|ns| - 1];
      RenderAllSucceeds(init, d);
      if RenderAll(init, d).None? {
        var j :| 0 <= j < |init| && Render(init[j], d).None?;
        assert init[j] == ns[j];
      } else if Render(last, d).Some? {
        var ts := RenderAll(ns, d).value;
        assert ts == RenderAll(init, d).value + [Render(last, d).value];
        forall i | 0 <= i < |ns|
          ensures Render(ns[i], d).Some? && ts[i] == Render(ns[i], d).value
        {
          if i < |init| {
            assert init[i] == ns[i];
          }
        }
      }
    }
  }

  /** `Intersperse` throws exactly when visiting one of the elements throws. */
  lemma JoinedFails(ns: seq<Node>, sep: string, d: int)
    ensures Joined(ns, sep, d).None? <==> exists i :: 0 <= i < |ns| && Render(ns[i], d).None?
  {
    RenderAllSucceeds(ns, d);
  }

  /**
   * Read from the front, `Intersperse` writes the first element, then, when
   * more follow, one separator and the rest: so the elements come in order,
   * with a separator between neighbours only.
   */
  lemma JoinedCons(n: Node, ns: seq<Node>, sep: string, d: int)
    requires Render(n, d).Some? && Joined(ns, sep, d).Some?
    ensures Joined([n] + ns, sep, d) == Some(Render(n, d).value + (if ns == [] then [] else sep + Joined(ns, sep, d).value))
  {
    RenderAllCons(n, ns, d);
    InterleaveCons(Render(n, d).value, RenderAll(ns, d).value, sep);
  }

  /** Rendering a list read from the front: the first element's text, then the texts of the rest. */
  lemma {:induction false} RenderAllCons(n: Node, ns: seq<Node>, d: int)
    requires Render(n, d).Some? && RenderAll(ns, d).Some?
    ensures RenderAll([n] + ns, d) == Some([Render(n, d).value] + RenderAll(ns, d).value)
    decreases |ns|
  {
    var all := [n] + ns;
    if ns == [] {
      assert all[..0] == [] && all[0] == n;
      assert RenderAll(all[..0], d) == Some([]);
      assert RenderAll(all, d) == Some([] + [Render(n, d).value]);
      assert [] + [Render(n, d).value] == [Render(n, d).value] + RenderAll(ns, d).value;
    } else {
      var init := ns[..|ns| - 1];
      RenderAllCons(n, init, d);
      assert all[..|all| - 1] == [n] + init && all[|all| - 1] == ns[|ns| - 1];
      var r, ti, l := Render(n, d).value, RenderAll(init, d).value, Render(ns[|ns| - 1], d).value;
      assert RenderAll(ns, d).value == ti + [l];
      assert RenderAll(all, d).value == [r] + ti + [l];
      assert [r] + ti + [l] == [r] + (ti + [l]);
    }
  }

  /**
   * An empty list writes nothing; a list of `k >= 1` elements that all render
   * starts with the first element, ends with the last, and holds exactly
   * `k - 1` separators besides the elements' texts.
   */
  lemma JoinedLayout(ns: seq<Node>, sep: string, d: int)
    requires forall i :: 0 <= i < |ns| ==> Render(ns[i], d).Some?
    ensures Joined(ns, sep, d).Some?
    ensures ns == [] ==> Joined(ns, sep, d).value == []
    ensures ns != [] ==>
      var t := Joined(ns, sep, d).value;
      Render(ns[0], d).value <= t
      && |Render(ns[|ns| - 1], d).value| <= |t|
      && t[|t| - |Render(ns[|ns| - 1], d).value|..] == Render(ns[|ns| - 1], d).value
      && |t| == |Concat(RenderAll(ns, d).value)| + (|ns| - 1) * |sep|
  {
    RenderAllSucceeds(ns, d);
    if ns != [] {
      var ts := RenderAll(ns, d).value;
      assert Joined(ns, sep, d).value == Interleave(ts, sep);
      assert ts[0] == Render(ns[0], d).value && ts[|ts| - 1] == Render(ns[|ns| - 1], d).value;
      InterleaveEnds(ts, sep);
      InterleaveLength(ts, sep);
    }
  }

  // ---------------------------------------------------------------------
  // Statement blocks
  // ---------------------------------------------------------------------

  /**
   * The separator after a statement is a single line break after a pipeline,
   * an assignment, an error statement, `return`, `throw`, `exit`, `break` or
   * `continue`, and a blank line followed by a line break after any other
   * statement.
   */
  lemma SeparatorAfter(previous: Node, d: int)
    ensures !IsBlockStatement(previous) <==> StatementSeparator(previous, d) == NL(d)
    ensures IsBlockStatement(previous) <==> StatementSeparator(previous, d) == "\n" + NL(d)
  {
    assert |"\n" + NL(d)| != |NL(d)|;
  }

  /**
   * Read from the front, a statement list is the first statement, then, when
   * more follow, the separator its first statement calls for and the rest.
   */
  lemma {:induction false} StatementsCons(s: Node, ss: seq<Node>, d: int)
    requires Render(s, d).Some? && StatementsText(ss, d).Some?
    ensures StatementsText([s] + ss, d)
      == Some(Render(s, d).value + (if ss == [] then [] else StatementSeparator(s, d) + StatementsText(ss, d).value))
    decreases |ss|
  {
    var all := [s] + ss;
    if ss == [] {
      assert all == [s];
      assert Render(s, d).value + [] == Render(s, d).value;
    } else if |ss| == 1 {
      StatementsPair(s, ss, d);
    } else {
      var init := ss[..|ss| - 1];
      assert StatementsText(init, d).Some?;
      StatementsCons(s, init, d);
      StatementsConsStep(s, ss, d);
    }
  }

  /** `StatementsCons` for one statement after the first. */
  lemma StatementsPair(s: Node, ss: seq<Node>, d: int)
    requires |ss| == 1 && Render(s, d).Some? && StatementsText(ss, d).Some?
    ensures StatementsText([s] + ss, d) == Some(Render(s, d).value + (StatementSeparator(s, d) + StatementsText(ss, d).value))
  {
    var all := [s] + ss;
    assert all[..1] == [s] && all[0] == s && all[1] == ss[0];
    StatementsUnfold(all, d);
    var head, sep, last := Render(s, d).value, StatementSeparator(s, d), Render(ss[0], d).value;
    assert head + sep + last == head + (sep + last);
  }

  /** The step of `StatementsCons` for two or more statements after the first. */
  lemma StatementsConsStep(s: Node, ss: seq<Node>, d: int)
    requires |ss| > 1 && Render(s, d).Some? && StatementsText(ss, d).Some?
    requires StatementsText(ss[..|ss| - 1], d).Some?
    requires StatementsText([s] + ss[..|ss| - 1], d)
      == Some(Render(s, d).value + (StatementSeparator(s, d) + StatementsText(ss[..|ss| - 1], d).value))
    ensures StatementsText([s] + ss, d) == Some(Render(s, d).value + (StatementSeparator(s, d) + StatementsText(ss, d).value))
  {
    var all := [s] + ss;
    var init := ss[..|ss| - 1];
    assert all[..|all| - 1] == [s] + init;
    assert all[|all| - 2] == ss[|ss| - 2] && all[|all| - 1] == ss[|ss| - 1];
    StatementsUnfold(all, d);
    StatementsUnfold(ss, d);
    Regroup(Render(s, d).value, StatementSeparator(s, d), StatementsText(init, d).value,
            StatementSeparator(ss[|ss| - 2], d), Render(ss[|ss| - 1], d).value);
  }

  /** A list of two or more statements is the list without its last statement, that statement's separator, and the last statement. */
  lemma StatementsUnfold(ss: seq<Node>, d: int)
    requires |ss| >= 2
    ensures StatementsText(ss, d).Some? <==> StatementsText(ss[..|ss| - 1], d).Some? && Render(ss[|ss| - 1], d).Some?
    ensures StatementsText(ss, d).Some? ==>
      StatementsText(ss, d).value == StatementsText(ss[..|ss| - 1], d).value + StatementSeparator(ss[|ss| - 2], d) + Render(ss[|ss| - 1], d).value
  {
  }

  lemma Regroup(a: string, b: string, c: string, x: string, y: string)
    ensures a + (b + c) + x + y == a + (b + (c + x + y))
  {
  }

  /**
   * `WriteStatementBlock` writes the traps back to back, then a line break
   * only when there are both traps and statements, then the statements.
   */
  lemma TrapsThenStatements(b: StatementBlock, d: int)
    requires RenderAll(b.traps, d).Some? && StatementsText(b.statements, d).Some?
    ensures StatementBlockText(b, 0, d)
      == Some(Concat(RenderAll(b.traps, d).value)
              + (if b.traps != [] && b.statements != [] then NL(d) else [])
              + StatementsText(b.statements, d).value)
  {
    SurroundNothing(RenderAll(b.traps, d).value);
    assert b.statements[0..] == b.statements;
  }

  // ---------------------------------------------------------------------
  // Constructors
  // ---------------------------------------------------------------------

  /** Skipping the first statement of a block writes what the block without that statement writes. */
  lemma SkipFirstStatement(b: StatementBlock, d: int)
    requires |b.statements| >= 1
    ensures StatementBlockText(b, 1, d) == StatementBlockText(b.(statements := b.statements[1..]), 0, d)
  {
    var rest := b.(statements := b.statements[1..]);
    assert rest.statements[0..] == b.statements[1..];
  }

  /**
   * A constructor's text: its name and parameters, ` : ` and the base call
   * only when that call has arguments, then the body made of the remaining
   * statements in their order.
   */
  lemma ConstructorLayout(n: Node, d: int)
    requires n.FunctionMember? && n.isConstructor && n.functionBody.endBlock.Some?
    requires BaseCall(n.functionBody.endBlock.value.block.statements).Some?
    requires SignatureText(n, d).Some? && BaseText(n, d).Some?
    ensures
      var b := n.functionBody.endBlock.value.block;
      var call := BaseCall(b.statements).value;
      var rest := b.(statements := b.statements[1..]);
      && SignatureText(n, d).value == n.name + "(" + InlineParametersText(n.parameters, d).value + ")"
      && BaseText(n, d).value == (if call.arguments == [] then [] else " : " + Render(call, d).value)
      && FunctionMemberText(n, d).Some? == FunctionBodyText(rest, 0, d).Some?
      && (FunctionMemberText(n, d).Some? ==>
            FunctionMemberText(n, d).value == SignatureText(n, d).value + BaseText(n, d).value + FunctionBodyText(rest, 0, d).value)
  {
    var b := n.functionBody.endBlock.value.block;
    var rest := b.(statements := b.statements[1..]);
    SkipFirstStatement(b, d + 1);
    assert b.statements[1..] == [] <==> |b.statements| == 1;
    assert ModifiersText(n, d) == Some([]);
  }

  /** A constructor whose body is only a base call and has no traps prints an empty pair of braces, each on its own line. */
  lemma EmptyConstructor(n: Node, d: int)
    requires n.FunctionMember? && n.isConstructor && n.functionBody.endBlock.Some?
    requires |n.functionBody.endBlock.value.block.statements| == 1 && n.functionBody.endBlock.value.block.traps == []
    requires SignatureText(n, d).Some? && BaseText(n, d).Some?
    ensures FunctionMemberText(n, d) == Some(SignatureText(n, d).value + BaseText(n, d).value + NL(d) + "{" + NL(d) + "}")
  {
    var body := NL(d) + "{" + NL(d) + "}";
    assert FunctionBodyText(n.functionBody.endBlock.value.block, 1, d) == Some(body);
    assert SignatureText(n, d).value + BaseText(n, d).value + body
      == SignatureText(n, d).value + BaseText(n, d).value + NL(d) + "{" + NL(d) + "}";
  }

  /** A constructor whose body does not start with a base call makes the printer throw. */
  lemma ConstructorWithoutBaseCall(n: Node, d: int)
    requires n.FunctionMember? && n.isConstructor && n.functionBody.endBlock.Some?
    requires BaseCall(n.functionBody.endBlock.value.block.statements).None?
    ensures FunctionMemberText(n, d).None?
  {
  }

  // ---------------------------------------------------------------------
  // Redirections
  // ---------------------------------------------------------------------

  /**
   * A file redirection starts with `>` exactly when it redirects the output
   * stream; otherwise it starts with the indicator of its stream, which reads
   * back as that stream, followed by `>`.
   */
  lemma FileRedirectionLayout(n: Node, d: int)
    requires n.FileRedirection? && Render(n.location, d).Some?
    ensures FileRedirectionText(n, d).Some?
    ensures
      var t := FileRedirectionText(n, d).value;
      var l := Render(n.location, d).value;
      && (t[0] == '>' <==> n.fromStream == Output)
      && (n.fromStream == Output ==> t == ">" + l)
      && (n.fromStream != Output ==> StreamOfIndicator(t[0]) == Some(n.fromStream) && t[1..] == ">" + l)
  {
    IndicatorRoundTrip(n.fromStream, '>');
  }

  /** A merging redirection is four characters that read back as its two streams around `>&`. */
  lemma MergingRedirectionReadsBack(from: RedirectionStream, to: RedirectionStream)
    ensures
      var t := MergingRedirectionText(from, to);
      |t| == 4 && StreamOfIndicator(t[0]) == Some(from) && t[1..3] == ">&" && StreamOfIndicator(t[3]) == Some(to)
  {
    IndicatorRoundTrip(from, '*');
    IndicatorRoundTrip(to, '*');
  }

  // ---------------------------------------------------------------------
  // Constants and type names
  // ---------------------------------------------------------------------

  /** How PowerShell reads the automatic variables `$null`, `$true` and `$false`. */
  function ReadConstant(s: string): Option<Constant> {
    if s == "$null" then Some(NullConstant)
    else if s == "$true" then Some(BoolConstant(true))
    else if s == "$false" then Some(BoolConstant(false))
    else None
  }

  /** `$null`, `$true` and `$false` are printed as the variables that read back as them. */
  lemma ConstantsReadBack(c: Constant)
    requires !c.OtherConstant?
    ensures ReadConstant(ConstantText(c)) == Some(c)
  {
  }

  /**
   * An array type name of rank `rank` is its element type followed by
   * brackets holding exactly `rank - 1` commas and nothing else.
   */
  lemma ArrayTypeNameLayout(element: TypeName, rank: nat)
    requires rank >= 1
    ensures
      var t := TypeNameText(ArrayTypeName(element, rank));
      var e := TypeNameText(element);
      && |t| == |e| + rank + 1
      && t[..|e|] == e && t[|e|] == '[' && t[|t| - 1] == ']'
      && forall i :: |e| < i < |t| - 1 ==> t[i] == ','
  {
    var commas := Repeat(",", rank - 1);
    RepeatLength(",", rank - 1);
    RepeatChars(",", rank - 1, ',');
    var t := TypeNameText(ArrayTypeName(element, rank));
    var e := TypeNameText(element);
    assert t == e + "[" + commas + "]";
    forall i | |e| < i < |t| - 1
      ensures t[i] == ','
    {
      assert t[i] == commas[i - |e| - 1];
    }
  }

  // ---------------------------------------------------------------------
  // Parameters written inline
  // ---------------------------------------------------------------------

  /** The parameter `$name` with no attributes and no default value. */
  function Plain(name: string): Parameter {
    Parameter([], VariableExpression(false, name), None)
  }

  /**
   * As written, the inline parameters of a method are run together: two
   * parameters `$a` and `$b` print as `$a$b`, which does not parse as two parameters;
   * the corrected rendering separates them with a comma and a space.
   */
  lemma InlineParametersRunTogether(d: int)
    ensures InlineParametersAsWritten([Plain("a"), Plain("b")], d) == Some("$a$b")
    ensures InlineParametersText([Plain("a"), Plain("b")], d) == Some("$a, $b")
  {
    PlainText("a", d);
    PlainText("b", d);
    InlineParametersAsWrittenConcatenates(Plain("a"), Plain("b"), d);
    assert ("$" + "a") + ("$" + "b") == "$a$b";
    assert ("$" + "a") + ", " + ("$" + "b") == "$a, $b";
  }

  lemma PlainText(name: string, d: int)
    ensures InlineParameterText(Plain(name), d) == Some("$" + name)
  {
    assert Render(VariableExpression(false, name), d) == Some("$" + name);
    assert Each([], [], [], d) == Some([]);
    assert [] + ("$" + name) + [] == "$" + name;
  }

  /** For any two parameters that render, the printer as written leaves nothing between them. */
  lemma InlineParametersAsWrittenConcatenates(p: Parameter, q: Parameter, d: int)
    requires InlineParameterText(p, d).Some? && InlineParameterText(q, d).Some?
    ensures InlineParametersAsWritten([p, q], d) == Some(InlineParameterText(p, d).value + InlineParameterText(q, d).value)
    ensures InlineParametersText([p, q], d) == Some(InlineParameterText(p, d).value + ", " + InlineParameterText(q, d).value)
  {
    var ps := [p, q];
    assert ps[..1] == [p];
    assert [p][..0] == [];
    var tp, tq := InlineParameterText(p, d).value, InlineParameterText(q, d).value;
    assert InlineParameterTexts([p], d) == Some([] + [tp]);
    assert [] + [tp] == [tp];
    var ts := [tp, tq];
    assert InlineParameterTexts(ps, d) == Some([tp] + [tq]);
    assert [tp] + [tq] == ts;
    assert ts[..1] == [tp];
    assert Interleave(ts, ", ") == Interleave([tp], ", ") + ", " + tq;
    assert Concat(ts) == Concat([tp]) + tq;
    assert Concat([tp]) == Concat([]) + tp;
    assert [] + tp == tp;
  }
}
