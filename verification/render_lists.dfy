/**
 * A list the printer writes item by item fails as a whole as soon as one of
 * its items fails: the exception a visit throws ends the loop that called it.
 */
module RenderLists {
  import opened Wrappers
  import opened Ast
  import opened Text
  import opened Rendering

  lemma {:induction false} RenderAllFails(ns: seq<Node>, i: int, d: int)
    requires 0 <= i < |ns| && Render(ns[i], d).None?
    ensures RenderAll(ns, d).None?
    decreases |ns|
  {
    if i < |ns| - 1 {
      assert ns[..|ns| - 1][i] == ns[i];
      RenderAllFails(ns[..|ns| - 1], i, d);
    }
  }

  lemma {:induction false} StatementsFail(ss: seq<Node>, i: int, d: int)
    requires 0 <= i < |ss| && Render(ss[i], d).None?
    ensures StatementsText(ss, d).None?
    decreases |ss|
  {
    if i < |ss| - 1 {
      assert ss[..|ss| - 1][i] == ss[i];
      StatementsFail(ss[..|ss| - 1], i, d);
    }
  }

  lemma {:induction false} ParametersFail(ps: seq<Parameter>, i: int, d: int)
    requires 0 <= i < |ps| && ParameterText(ps[i], d).None?
    ensures ParameterTexts(ps, d).None?
    decreases |ps|
  {
    if i < |ps| - 1 {
      assert ps[..|ps| - 1][i] == ps[i];
      ParametersFail(ps[..|ps| - 1], i, d);
    }
  }

  lemma {:induction false} InlineParametersFail(ps: seq<Parameter>, i: int, d: int)
    requires 0 <= i < |ps| && InlineParameterText(ps[i], d).None?
    ensures InlineParameterTexts(ps, d).None?
    decreases |ps|
  {
    if i < |ps| - 1 {
      assert ps[..|ps| - 1][i] == ps[i];
      InlineParametersFail(ps[..|ps| - 1], i, d);
    }
  }

  lemma {:induction false} EntriesFail(kvs: seq<KeyValue>, i: int, d: int)
    requires 0 <= i < |kvs| && EntryText(kvs[i], d).None?
    ensures EntryTexts(kvs, d).None?
    decreases |kvs|
  {
    if i < |kvs| - 1 {
      assert kvs[..|kvs| - 1][i] == kvs[i];
      EntriesFail(kvs[..|kvs| - 1], i, d);
    }
  }

  lemma {:induction false} CasesFail(cs: seq<Clause>, i: int, d: int)
    requires 0 <= i < |cs| && CaseText(cs[i], d).None?
    ensures CaseTexts(cs, d).None?
    decreases |cs|
  {
    if i < |cs| - 1 {
      assert cs[..|cs| - 1][i] == cs[i];
      CasesFail(cs[..|cs| - 1], i, d);
    }
  }

  lemma {:induction false} ElseIfsFail(cs: seq<Clause>, i: int, d: int)
    requires 1 <= i < |cs| && ElseIfText(cs[i], d).None?
    ensures ElseIfsText(cs, d).None?
    decreases |cs|
  {
    if i < |cs| - 1 {
      assert cs[..|cs| - 1][i] == cs[i];
      ElseIfsFail(cs[..|cs| - 1], i, d);
    }
  }

  // Loop steps: a list that has gone well so far and whose next item goes
  // well grows by that item's text.

  lemma RenderAllGrows(ns: seq<Node>, i: int, d: int)
    requires 0 <= i < |ns| && RenderAll(ns[..i], d).Some? && Render(ns[i], d).Some?
    ensures RenderAll(ns[..i + 1], d) == Some(RenderAll(ns[..i], d).value + [Render(ns[i], d).value])
  {
    assert ns[..i + 1][..i] == ns[..i];
  }

  lemma ParametersGrow(ps: seq<Parameter>, i: int, d: int)
    requires 0 <= i < |ps| && ParameterTexts(ps[..i], d).Some? && ParameterText(ps[i], d).Some?
    ensures ParameterTexts(ps[..i + 1], d) == Some(ParameterTexts(ps[..i], d).value + [ParameterText(ps[i], d).value])
  {
    assert ps[..i + 1][..i] == ps[..i];
  }

  lemma InlineParametersGrow(ps: seq<Parameter>, i: int, d: int)
    requires 0 <= i < |ps| && InlineParameterTexts(ps[..i], d).Some? && InlineParameterText(ps[i], d).Some?
    ensures InlineParameterTexts(ps[..i + 1], d) == Some(InlineParameterTexts(ps[..i], d).value + [InlineParameterText(ps[i], d).value])
  {
    assert ps[..i + 1][..i] == ps[..i];
  }

  lemma EntriesGrow(kvs: seq<KeyValue>, i: int, d: int)
    requires 0 <= i < |kvs| && EntryTexts(kvs[..i], d).Some? && EntryText(kvs[i], d).Some?
    ensures EntryTexts(kvs[..i + 1], d) == Some(EntryTexts(kvs[..i], d).value + [EntryText(kvs[i], d).value])
  {
    assert kvs[..i + 1][..i] == kvs[..i];
  }

  lemma CasesGrow(cs: seq<Clause>, i: int, d: int)
    requires 0 <= i < |cs| && CaseTexts(cs[..i], d).Some? && CaseText(cs[i], d).Some?
    ensures CaseTexts(cs[..i + 1], d) == Some(CaseTexts(cs[..i], d).value + [CaseText(cs[i], d).value])
  {
    assert cs[..i + 1][..i] == cs[..i];
  }

  lemma StatementsGrow(ss: seq<Node>, i: int, d: int)
    requires 1 <= i < |ss| && StatementsText(ss[..i], d).Some? && Render(ss[i], d).Some?
    ensures StatementsText(ss[..i + 1], d) == Some(StatementsText(ss[..i], d).value + StatementSeparator(ss[i - 1], d) + Render(ss[i], d).value)
  {
    assert ss[..i + 1][..i] == ss[..i];
  }

  lemma ElseIfsGrow(cs: seq<Clause>, i: int, d: int)
    requires 1 <= i < |cs| && ElseIfsText(cs[..i], d).Some? && ElseIfText(cs[i], d).Some?
    ensures ElseIfsText(cs[..i + 1], d) == Some(ElseIfsText(cs[..i], d).value + ElseIfText(cs[i], d).value)
  {
    assert cs[..i + 1][..i] == cs[..i];
  }

  lemma SwitchTextOf(n: Node, d: int)
    requires n.SwitchStatement? && Render(n.condition, d).Some?
    requires CaseTexts(n.switchClauses, d + 1).Some? && DefaultClauseText(n, d + 1).Some?
    ensures SwitchText(n, d) == Some((if n.switchLabel.Some? then ":" + n.switchLabel.value + " " else []) + "switch (" + Render(n.condition, d).value + ")" + Open(d)
                                     + Interleave(CaseTexts(n.switchClauses, d + 1).value, NLs(2, d + 1)) + DefaultClauseText(n, d + 1).value + Close(d))
  {
  }

  /** An optional child with nothing before it is the child's own text. */
  lemma OptionalBare(n: Option<Node>, d: int)
    ensures Optional(n, [], d) == if n.None? then Some([]) else Render(n.value, d)
  {
    if n.Some? && Render(n.value, d).Some? {
      assert [] + Render(n.value, d).value == Render(n.value, d).value;
    }
  }


}
