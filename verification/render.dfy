/**
 * The text the printer produces for each node, as pure functions of the node
 * and of the indentation depth `d` in force when the node is visited. `None`
 * stands for a visit that throws: an unsupported node kind, a token without a
 * spelling, a missing child the code dereferences, or a cast that fails.
 */
module Rendering {
  import opened Wrappers
  import opened Text
  import opened Tokens
  import opened Streams
  import opened Escaping
  import opened Ast

  // ---------------------------------------------------------------------
  // Lists
  // ---------------------------------------------------------------------

  /** The texts of `ns`, each rendered at depth `d`; `None` as soon as one of them fails. */
  function RenderAll(ns: seq<Node>, d: int): (r: Option<seq<string>>)
    ensures r.Some? ==> |r.value| == |ns|
    decreases ns, 0
  {
    if ns == [] then Some([])
    else
      var init :- RenderAll(ns[..|ns| - 1], d);
      var last :- Render(ns[|ns| - 1], d);
      Some(init + [last])
  }

  /** What `Intersperse(ns, sep)` writes: the nodes in order with `sep` between neighbours. */
  function Joined(ns: seq<Node>, sep: string, d: int): Option<string>
    decreases ns, 1
  {
    var ts :- RenderAll(ns, d);
    Some(Interleave(ts, sep))
  }

  /** What a `foreach` loop that writes `before`, the node, then `after` writes. */
  function Each(ns: seq<Node>, before: string, after: string, d: int): Option<string>
    decreases ns, 1
  {
    var ts :- RenderAll(ns, d);
    Some(Surround(ts, before, after))
  }

  /** An optional child: nothing when absent, otherwise `before` and the child. */
  function Optional(n: Option<Node>, before: string, d: int): Option<string>
    decreases n, 0
  {
    match n
    case None => Some([])
    case Some(c) =>
      var t :- Render(c, d);
      Some(before + t)
  }

  // ---------------------------------------------------------------------
  // Statement blocks
  // ---------------------------------------------------------------------

  /** What separates a statement from the one before it: a blank line after a block-shaped statement, then a line break. */
  function StatementSeparator(previous: Node, d: int): string {
    (if IsBlockStatement(previous) then "\n" else []) + NL(d)
  }

  /** The statements of a block, each after the first preceded by the separator its predecessor calls for. */
  function StatementsText(ss: seq<Node>, d: int): Option<string>
    decreases ss, 0
  {
    if |ss| == 0 then Some([])
    else if |ss| == 1 then Render(ss[0], d)
    else
      var init :- StatementsText(ss[..|ss| - 1], d);
      var last :- Render(ss[|ss| - 1], d);
      Some(init + StatementSeparator(ss[|ss| - 2], d) + last)
  }

  /**
   * `WriteStatementBlock` on the statements of `b` from index `skip` on and
   * the traps of `b`: the traps, a line break when there are both traps and
   * statements, then the statements.
   */
  function StatementBlockText(b: StatementBlock, skip: nat, d: int): Option<string>
    requires skip <= |b.statements|
    decreases b, 2
  {
    var ss := b.statements[skip..];
    var traps :- Each(b.traps, [], [], d);
    var body :- StatementsText(ss, d);
    Some(traps + (if b.traps != [] && ss != [] then NL(d) else []) + body)
  }

  /** A block in braces: `BeginBlock`, the statement block one level deeper, `EndBlock`. */
  function BlockText(b: StatementBlock, d: int): Option<string>
    decreases b, 3
  {
    var body :- StatementBlockText(b, 0, d + 1);
    Some(Open(d) + body + Close(d))
  }

  function NamedBlockText(nb: NamedBlock, d: int): Option<string>
    decreases nb, 0
  {
    var keyword :- if nb.unnamed then Some([]) else TokenSpelling(nb.blockKind);
    var block :- BlockText(nb.block, d);
    Some(keyword + block)
  }

  // ---------------------------------------------------------------------
  // Parameters and script blocks
  // ---------------------------------------------------------------------

  /** A parameter of a `param(...)` block: each attribute on its own line, the name, and a default value. */
  function ParameterText(p: Parameter, d: int): Option<string>
    decreases p, 0
  {
    var attributes :- Each(p.attributes, [], NL(d), d);
    var name :- Render(p.name, d);
    var default :- Optional(p.defaultValue, " = ", d);
    Some(attributes + name + default)
  }

  function ParameterTexts(ps: seq<Parameter>, d: int): (r: Option<seq<string>>)
    ensures r.Some? ==> |r.value| == |ps|
    decreases ps, 0
  {
    if ps == [] then Some([])
    else
      var init :- ParameterTexts(ps[..|ps| - 1], d);
      var last :- ParameterText(ps[|ps| - 1], d);
      Some(init + [last])
  }

  function ParamBlockText(p: ParamBlock, d: int): Option<string>
    decreases p, 0
  {
    var attributes :- Each(p.attributes, [], NL(d), d);
    if p.parameters == [] then Some(attributes + "param()")
    else
      var ps :- ParameterTexts(p.parameters, d + 1);
      Some(attributes + "param(" + NL(d + 1) + Interleave(ps, "," + NLs(2, d + 1)) + NL(d) + ")")
  }

  /** A parameter written inline, in a method signature: attributes, name and default value on one line. */
  function InlineParameterText(p: Parameter, d: int): Option<string>
    decreases p, 0
  {
    var attributes :- Each(p.attributes, [], [], d);
    var name :- Render(p.name, d);
    var default :- Optional(p.defaultValue, " = ", d);
    Some(attributes + name + default)
  }

  function InlineParameterTexts(ps: seq<Parameter>, d: int): (r: Option<seq<string>>)
    ensures r.Some? ==> |r.value| == |ps|
    decreases ps, 0
  {
    if ps == [] then Some([])
    else
      var init :- InlineParameterTexts(ps[..|ps| - 1], d);
      var last :- InlineParameterText(ps[|ps| - 1], d);
      Some(init + [last])
  }

  /** `WriteInlineParameters` as written: the parameters one after the other, with nothing between them. */
  function InlineParametersAsWritten(ps: seq<Parameter>, d: int): Option<string>
    decreases ps, 1
  {
    var ts :- InlineParameterTexts(ps, d);
    Some(Concat(ts))
  }

  /** The corrected `WriteInlineParameters`, used by the rest of the model: parameters separated by a comma and a space. */
  function InlineParametersText(ps: seq<Parameter>, d: int): Option<string>
    decreases ps, 1
  {
    var ts :- InlineParameterTexts(ps, d);
    Some(Interleave(ts, ", "))
  }

  /** A block of a script after a preceding part: a blank line, then the named block. */
  function BlockAfter(nb: Option<NamedBlock>, d: int): Option<string>
    decreases nb, 1
  {
    match nb
    case None => Some([])
    case Some(b) =>
      var t :- NamedBlockText(b, d);
      Some(NLs(2, d) + t)
  }

  /** Whether a script's end block has anything to write. */
  predicate EndBlockHasContent(s: ScriptBlock) {
    s.endBlock.Some? && (s.endBlock.value.block.statements != [] || s.endBlock.value.block.traps != [])
  }

  /**
   * `VisitScriptBlock`. A nested script block (`hasParent`) is wrapped in
   * braces one level deeper. The end block is written as a named block when
   * a `dynamicparam`, `begin` or `process` block was written, and otherwise
   * as bare statements, after a blank line if a `param` block was written.
   */
  function ScriptBlockText(s: ScriptBlock, d: int, hasParent: bool): Option<string>
    decreases s, 3
  {
    var e := if hasParent then d + 1 else d;
    var inner :- ScriptBodyText(s, e);
    Some(if hasParent then "{" + NL(e) + inner + NL(d) + "}" else inner)
  }

  /** What a script block writes inside its braces, at depth `e`. */
  function ScriptBodyText(s: ScriptBlock, e: int): Option<string>
    decreases s, 2
  {
    var head :- ScriptHeadText(s, e);
    var blocks :- ExplicitBlocksText(s, e);
    var end :- EndText(s, e);
    Some(head + blocks + end)
  }

  /** The `param` block, then the `using` statements one per line. */
  function ScriptHeadText(s: ScriptBlock, e: int): Option<string>
    decreases s, 1
  {
    var params :- if s.paramBlock.Some? then ParamBlockText(s.paramBlock.value, e) else Some([]);
    var usings :- Joined(s.usingStatements, NL(e), e);
    Some(params + usings)
  }

  /** Whether a script has a `dynamicparam`, `begin` or `process` block, which makes its end block explicit. */
  predicate HasExplicitBlocks(s: ScriptBlock) {
    s.dynamicParamBlock.Some? || s.beginBlock.Some? || s.processBlock.Some?
  }

  /** The `dynamicparam`, `begin` and `process` blocks, in that order, each after a blank line. */
  function ExplicitBlocksText(s: ScriptBlock, e: int): Option<string>
    decreases s, 1
  {
    var dynamicParam :- BlockAfter(s.dynamicParamBlock, e);
    var begin :- BlockAfter(s.beginBlock, e);
    var process :- BlockAfter(s.processBlock, e);
    Some(dynamicParam + begin + process)
  }

  /** The end block: nothing when it is missing or empty, a named block when the script has explicit blocks, otherwise its bare statements. */
  function EndText(s: ScriptBlock, e: int): Option<string>
    decreases s, 1
  {
    if !EndBlockHasContent(s) then Some([])
    else if HasExplicitBlocks(s) then BlockAfter(s.endBlock, e)
    else
      var body :- StatementBlockText(s.endBlock.value.block, 0, e);
      Some((if s.paramBlock.Some? then NLs(2, e) else []) + body)
  }

  // ---------------------------------------------------------------------
  // Type names
  // ---------------------------------------------------------------------

  /** `WriteTypeName`. */
  function TypeNameText(t: TypeName): string
    decreases t, 1
  {
    match t
    case ArrayTypeName(element, rank) =>
      TypeNameText(element) + (if rank == 1 then "[]" else "[" + Repeat(",", rank - 1) + "]")
    case GenericTypeName(fullName, arguments) =>
      fullName + "[" + Interleave(TypeNameTexts(arguments), ", ") + "]"
    case SimpleTypeName(fullName) =>
      fullName
  }

  function TypeNameTexts(ts: seq<TypeName>): (r: seq<string>)
    ensures |r| == |ts|
    decreases ts, 0
  {
    if ts == [] then [] else TypeNameTexts(ts[..|ts| - 1]) + [TypeNameText(ts[|ts| - 1])]
  }

  // ---------------------------------------------------------------------
  // Larger statements
  // ---------------------------------------------------------------------

  function EntryText(kv: KeyValue, d: int): Option<string>
    decreases kv, 0
  {
    var key :- Render(kv.key, d);
    var value :- Render(kv.value, d);
    Some(key + " = " + value)
  }

  function EntryTexts(kvs: seq<KeyValue>, d: int): (r: Option<seq<string>>)
    ensures r.Some? ==> |r.value| == |kvs|
    decreases kvs, 0
  {
    if kvs == [] then Some([])
    else
      var init :- EntryTexts(kvs[..|kvs| - 1], d);
      var last :- EntryText(kvs[|kvs| - 1], d);
      Some(init + [last])
  }

  /** One `elseif` clause: a line break, the keyword, the condition in parentheses and the block. */
  function ElseIfText(c: Clause, d: int): Option<string>
    decreases c, 0
  {
    var condition :- Render(c.condition, d);
    var body :- BlockText(c.body, d);
    Some(NL(d) + "elseif (" + condition + ")" + body)
  }

  /** Every clause of an `if` statement after the first, each written as an `elseif`. */
  function ElseIfsText(cs: seq<Clause>, d: int): Option<string>
    decreases cs, 0
  {
    if |cs| <= 1 then Some([])
    else
      var init :- ElseIfsText(cs[..|cs| - 1], d);
      var last :- ElseIfText(cs[|cs| - 1], d);
      Some(init + last)
  }

  /** A `switch` case: the condition followed by its block. */
  function CaseText(c: Clause, d: int): Option<string>
    decreases c, 0
  {
    var condition :- Render(c.condition, d);
    var body :- BlockText(c.body, d);
    Some(condition + body)
  }

  function CaseTexts(cs: seq<Clause>, d: int): (r: Option<seq<string>>)
    ensures r.Some? ==> |r.value| == |cs|
    decreases cs, 0
  {
    if cs == [] then Some([])
    else
      var init :- CaseTexts(cs[..|cs| - 1], d);
      var last :- CaseText(cs[|cs| - 1], d);
      Some(init + [last])
  }

  function IfText(n: Node, d: int): Option<string>
    requires n.IfStatement?
    decreases n, 2
  {
    if n.clauses == [] then None
    else
      var condition :- Render(n.clauses[0].condition, d);
      var body :- BlockText(n.clauses[0].body, d);
      var elseIfs :- ElseIfsText(n.clauses, d);
      var elseText :- ElseText(n, d);
      Some("if (" + condition + ")" + body + elseIfs + elseText)
  }

  /** The `else` clause of an `if` statement, on a line of its own; nothing when there is none. */
  function ElseText(n: Node, d: int): Option<string>
    requires n.IfStatement?
    decreases n, 1
  {
    if n.elseClause.None? then Some([])
    else
      var b :- BlockText(n.elseClause.value, d);
      Some(NL(d) + "else" + b)
  }

  function SwitchText(n: Node, d: int): Option<string>
    requires n.SwitchStatement?
    decreases n, 2
  {
    var labelText := if n.switchLabel.Some? then ":" + n.switchLabel.value + " " else [];
    var condition :- Render(n.condition, d);
    var cases :- CaseTexts(n.switchClauses, d + 1);
    var defaultText :- DefaultClauseText(n, d + 1);
    Some(labelText + "switch (" + condition + ")" + Open(d) + Interleave(cases, NLs(2, d + 1)) + defaultText + Close(d))
  }

  /** The `default` clause of a `switch`, written inside its braces at depth `d`. */
  function DefaultClauseText(n: Node, d: int): Option<string>
    requires n.SwitchStatement?
    decreases n, 1
  {
    if n.defaultClause.None? then Some([])
    else
      var b :- BlockText(n.defaultClause.value, d);
      Some((if n.switchClauses != [] then NLs(2, d) else []) + "default" + b)
  }

  function TryText(n: Node, d: int): Option<string>
    requires n.TryStatement?
    decreases n, 2
  {
    var body :- BlockText(n.body, d);
    var catches :- Each(n.catchClauses, NL(d), [], d);
    var finallyText :- FinallyText(n, d);
    Some("try" + body + catches + finallyText)
  }

  /** The `finally` clause of a `try` statement, on a line of its own; nothing when there is none. */
  function FinallyText(n: Node, d: int): Option<string>
    requires n.TryStatement?
    decreases n, 1
  {
    if n.finallyBlock.None? then Some([])
    else
      var b :- BlockText(n.finallyBlock.value, d);
      Some(NL(d) + "finally" + b)
  }

  function TypeDefinitionText(n: Node, d: int): Option<string>
    requires n.TypeDefinition?
    decreases n, 2
  {
    var head := TypeHead(n);
    if n.members == [] then Some(head + NL(d) + "{" + NL(d) + "}")
    else
      var members :- MembersText(n, d + 1);
      Some(head + Open(d) + members + Close(d))
  }

  /** The head of a type definition: its keyword, its name and its base types after ` : `, separated by `, `. */
  function TypeHead(n: Node): string
    requires n.TypeDefinition?
  {
    var keyword := match n.typeKind
      case ClassType => "class "
      case InterfaceType => "interface "
      case EnumType => "enum ";
    keyword + n.name + (if n.baseTypes == [] then [] else " : " + Interleave(TypeNameTexts(n.baseTypes), ", "))
  }

  /**
   * The members of a type definition at depth `d`: an enum's separated by a
   * comma and a line break, a class's by a blank line; an interface's are
   * not written.
   */
  function MembersText(n: Node, d: int): Option<string>
    requires n.TypeDefinition?
    decreases n, 1
  {
    match n.typeKind
    case EnumType => Joined(n.members, "," + NL(d), d)
    case ClassType => Joined(n.members, NLs(2, d), d)
    case InterfaceType => Some([])
  }

  /** A module specification of a `using module` statement: its entries between `@{ ` and ` }`, separated by `; `. */
  function SpecificationText(spec: ModuleSpecification, d: int): Option<string>
    decreases spec, 1
  {
    var entries :- EntryTexts(spec.keyValuePairs, d);
    Some("@{ " + Interleave(entries, "; ") + " }")
  }

  function UsingStatementText(n: Node, d: int): Option<string>
    requires n.UsingStatement?
    decreases n, 2
  {
    var target :- UsingTargetText(n, d);
    Some("using " + UsingKindText(n.usingStatementKind) + target + "\n")
  }

  /** The keyword naming what a `using` statement imports, followed by a space. */
  function UsingKindText(k: UsingKind): string {
    match k
    case UsingAssembly => "assembly "
    case UsingCommand => "command "
    case UsingModule => "module "
    case UsingNamespace => "namespace "
    case UsingType => "type "
  }

  /** What a `using` statement imports: its module specification when it has one, otherwise its name and its alias after ` = `. */
  function UsingTargetText(n: Node, d: int): Option<string>
    requires n.UsingStatement?
    decreases n, 1
  {
    if n.moduleSpecification.Some? then SpecificationText(n.moduleSpecification.value, d)
    else
      var name :- Optional(n.usingName, [], d);
      var alias :- Optional(n.alias, " = ", d);
      Some(name + alias)
  }

  /**
   * The first statement of a constructor's body, which the parser puts there
   * as the call to the base constructor; `None` when it is missing or has
   * another shape (the casts in the printer would throw).
   */
  function BaseCall(statements: seq<Node>): Option<Node> {
    if statements == [] then None
    else if statements[0].CommandExpression? && statements[0].expression.BaseCtorInvokeMemberExpression? then
      Some(statements[0].expression)
    else None
  }

  /**
   * `VisitFunctionMember`. A method writes its modifiers and return type; a
   * constructor instead drops the first statement of its body, the base
   * call, and writes ` : base(...)` when that call has arguments.
   */
  function FunctionMemberText(n: Node, d: int): Option<string>
    requires n.FunctionMember?
    decreases n, 2
  {
    var signature :- SignatureText(n, d);
    var end :- n.functionBody.endBlock;
    var baseText :- BaseText(n, d);
    var skip := if n.isConstructor then 1 else 0;
    var body :- FunctionBodyText(end.block, skip, d);
    Some(signature + baseText + body)
  }

  /** The part of a function member up to its closing parenthesis: modifiers and return type (not for a constructor), name and parameters. */
  function SignatureText(n: Node, d: int): Option<string>
    requires n.FunctionMember?
    decreases n, 1
  {
    var modifiers :- ModifiersText(n, d);
    var parameters :- InlineParametersText(n.parameters, d);
    Some(modifiers + n.name + "(" + parameters + ")")
  }

  /** What precedes a function member's name: nothing for a constructor; for a method its modifiers, then its return type when it has one. */
  function ModifiersText(n: Node, d: int): Option<string>
    requires n.FunctionMember?
    decreases n, 0
  {
    if n.isConstructor then Some([])
    else
      var returnType :- Optional(n.returnType, [], d);
      Some(MemberModifiers(n.isStatic, n.isHidden) + returnType)
  }

  /**
   * The base-constructor call of a constructor: nothing for a method; for a
   * constructor whose body does not start with a base call, a failure; the
   * call after " : " only when it has arguments.
   */
  function BaseText(n: Node, d: int): (r: Option<string>)
    requires n.FunctionMember? && n.functionBody.endBlock.Some?
    ensures r.Some? && n.isConstructor ==> n.functionBody.endBlock.value.block.statements != []
    decreases n, 1
  {
    if !n.isConstructor then Some([])
    else
      var call :- BaseCall(n.functionBody.endBlock.value.block.statements);
      if call.arguments == [] then Some([])
      else
        var t :- Render(call, d);
        Some(" : " + t)
  }

  /** A function member's body after skipping `skip` statements: an empty pair of braces on their own lines, or the statements in a block. */
  function FunctionBodyText(b: StatementBlock, skip: nat, d: int): Option<string>
    requires skip <= |b.statements|
    decreases b, 3
  {
    if |b.statements| == skip && b.traps == [] then
      Some(NL(d) + "{" + NL(d) + "}")
    else
      var body :- StatementBlockText(b, skip, d + 1);
      Some(Open(d) + body + Close(d))
  }

  // ---------------------------------------------------------------------
  // Expressions
  // ---------------------------------------------------------------------

  function ArrayExpressionText(n: Node, d: int): Option<string>
    requires n.ArrayExpression?
    decreases n, 2
  {
    var body :- StatementBlockText(n.subExpression, 0, d);
    Some("@(" + body + ")")
  }

  function SubExpressionText(n: Node, d: int): Option<string>
    requires n.SubExpression?
    decreases n, 2
  {
    var body :- StatementBlockText(n.subExpression, 0, d);
    Some("$(" + body + ")")
  }

  /** An attributed expression or a conversion: the attribute, then the child. */
  function AttributedText(n: Node, d: int): Option<string>
    requires n.AttributedExpression? || n.ConvertExpression?
    decreases n, 2
  {
    var a :- Render(n.attribute, d);
    var c :- Render(n.child, d);
    Some(a + c)
  }

  /** A call to the base constructor: nothing at all when it has no arguments. */
  function BaseCtorText(n: Node, d: int): Option<string>
    requires n.BaseCtorInvokeMemberExpression?
    decreases n, 2
  {
    if n.arguments == [] then Some([])
    else
      var args :- Joined(n.arguments, ", ", d);
      Some("base(" + args + ")")
  }

  /** A binary expression or an assignment: the operands on either side of the spaced operator. */
  function BinaryText(n: Node, d: int): Option<string>
    requires n.BinaryExpression? || n.AssignmentStatement?
    decreases n, 2
  {
    var l :- Render(n.left, d);
    var op :- TokenSpelling(n.operator);
    var r :- Render(n.right, d);
    Some(l + " " + op + " " + r)
  }

  function ConstantText(c: Constant): string {
    match c
    case NullConstant => "$null"
    case BoolConstant(b) => if b then "$true" else "$false"
    case OtherConstant(text) => text
  }

  function HashtableText(n: Node, d: int): Option<string>
    requires n.HashtableExpression?
    decreases n, 2
  {
    if n.keyValuePairs == [] then Some("@{}")
    else
      var entries :- EntryTexts(n.keyValuePairs, d + 1);
      Some("@{" + NL(d + 1) + Interleave(entries, NL(d + 1)) + NL(d) + "}")
  }

  function IndexText(n: Node, d: int): Option<string>
    requires n.IndexExpression?
    decreases n, 2
  {
    var t :- Render(n.target, d);
    var i :- Render(n.index, d);
    Some(t + "[" + i + "]")
  }

  function InvokeMemberText(n: Node, d: int): Option<string>
    requires n.InvokeMemberExpression?
    decreases n, 2
  {
    var e :- Render(n.expression, d);
    var m :- Render(n.member, d);
    var args :- Joined(n.arguments, ", ", d);
    Some(e + (if n.isStatic then "::" else ".") + m + "(" + args + ")")
  }

  function MemberText(n: Node, d: int): Option<string>
    requires n.MemberExpression?
    decreases n, 2
  {
    var e :- Render(n.expression, d);
    var m :- Render(n.member, d);
    Some(e + (if n.isStatic then "::" else ".") + m)
  }

  function ParenText(n: Node, d: int): Option<string>
    requires n.ParenExpression?
    decreases n, 2
  {
    var p :- Render(n.parenPipeline, d);
    Some("(" + p + ")")
  }

  /** `++` and `--` are written against their operand, before or after it; any other operator is spelled and followed by a space. */
  function UnaryText(n: Node, d: int): Option<string>
    requires n.UnaryExpression?
    decreases n, 2
  {
    var child :- Render(n.child, d);
    if n.tokenKind == PlusPlus then Some("++" + child)
    else if n.tokenKind == MinusMinus then Some("--" + child)
    else if n.tokenKind == PostfixPlusPlus then Some(child + "++")
    else if n.tokenKind == PostfixMinusMinus then Some(child + "--")
    else
      var op :- TokenSpelling(n.tokenKind);
      Some(op + " " + child)
  }

  /** `$using:` and the variable's path; the cast to a variable throws for any other target. */
  function UsingExpressionText(n: Node): Option<string>
    requires n.UsingExpression?
  {
    if n.usingTarget.VariableExpression? then Some("$using:" + n.usingTarget.userPath) else None
  }

  // ---------------------------------------------------------------------
  // Attributes, commands and redirections
  // ---------------------------------------------------------------------

  function AttributeText(n: Node, d: int): Option<string>
    requires n.Attribute?
    decreases n, 2
  {
    var arguments :- AttributeArgumentsText(n, d);
    Some("[" + n.attributeTypeName + "(" + arguments + ")]")
  }

  /** The arguments of an attribute: the positional ones, then the named ones, with `, ` between all neighbours. */
  function AttributeArgumentsText(n: Node, d: int): Option<string>
    requires n.Attribute?
    decreases n, 1
  {
    var positional :- Joined(n.positionalArguments, ", ", d);
    var named :- Joined(n.namedArguments, ", ", d);
    var comma := if n.positionalArguments != [] && n.namedArguments != [] then ", " else [];
    Some(positional + comma + named)
  }

  /** The argument's name, then ` = ` and its value unless the value is omitted or missing. */
  function NamedAttributeArgumentText(n: Node, d: int): Option<string>
    requires n.NamedAttributeArgument?
    decreases n, 2
  {
    var a :- if n.expressionOmitted then Some([]) else Optional(n.argument, " = ", d);
    Some(n.argumentName + a)
  }

  function CommandText(n: Node, d: int): Option<string>
    requires n.Command?
    decreases n, 2
  {
    var invocation :-
      if n.invocationOperator == Unknown then Some([])
      else
        var op :- TokenSpelling(n.invocationOperator);
        Some(op + " ");
    var elements :- Joined(n.commandElements, " ", d);
    var redirections :-
      if n.redirections == [] then Some([])
      else
        var rs :- Joined(n.redirections, " ", d);
        Some(" " + rs);
    Some(invocation + elements + redirections)
  }

  function CommandParameterText(n: Node, d: int): Option<string>
    requires n.CommandParameter?
    decreases n, 2
  {
    var a :- Optional(n.argument, ":", d);
    Some("-" + n.parameterName + a)
  }

  /** A file redirection: the source stream's digit (left out for the output stream), `>`, and the target. */
  function FileRedirectionText(n: Node, d: int): Option<string>
    requires n.FileRedirection?
    decreases n, 2
  {
    var l :- Render(n.location, d);
    Some((if n.fromStream != Output then [StreamIndicator(n.fromStream)] else []) + ">" + l)
  }

  function MergingRedirectionText(from: RedirectionStream, to: RedirectionStream): string {
    [StreamIndicator(from)] + ">&" + [StreamIndicator(to)]
  }

  // ---------------------------------------------------------------------
  // Statements
  // ---------------------------------------------------------------------

  /** `WriteControlFlowStatement`: the keyword, then a space and the child when there is one. */
  function ControlFlowText(keyword: string, child: Option<Node>, d: int): Option<string>
    decreases child, 1
  {
    var c :- Optional(child, " ", d);
    Some(keyword + c)
  }

  function CatchClauseText(n: Node, d: int): Option<string>
    requires n.CatchClause?
    decreases n, 2
  {
    var ts :- Each(n.catchTypes, " ", [], d);
    var b :- BlockText(n.body, d);
    Some("catch" + ts + b)
  }

  /** A `do ... until (...)` or `do ... while (...)` loop, ended by a line feed. */
  function DoLoopText(n: Node, d: int): Option<string>
    requires n.DoUntilStatement? || n.DoWhileStatement?
    decreases n, 2
  {
    var b :- BlockText(n.body, d);
    var c :- Render(n.condition, d);
    Some("do" + b + (if n.DoUntilStatement? then " until (" else " while (") + c + ")" + "\n")
  }

  function ForEachText(n: Node, d: int): Option<string>
    requires n.ForEachStatement?
    decreases n, 2
  {
    var v :- Render(n.variable, d);
    var c :- Render(n.condition, d);
    var b :- BlockText(n.body, d);
    Some("foreach (" + v + " in " + c + ")" + b + "\n")
  }

  /** A `for` loop; the printer visits all three header parts, so a missing one makes it throw. */
  function ForText(n: Node, d: int): Option<string>
    requires n.ForStatement?
    decreases n, 2
  {
    var i0 :- n.initializer;
    var i :- Render(i0, d);
    var c0 :- n.forCondition;
    var c :- Render(c0, d);
    var s0 :- n.forIterator;
    var s :- Render(s0, d);
    var b :- BlockText(n.body, d);
    Some("for (" + i + "; " + c + "; " + s + ")" + b + "\n")
  }

  function FunctionDefinitionText(n: Node, d: int): Option<string>
    requires n.FunctionDefinition?
    decreases n, 2
  {
    var b :- ScriptBlockText(n.functionBody, d, true);
    Some((if n.isFilter then "filter " else "function ") + n.name + NL(d) + b + "\n")
  }

  function TrapText(n: Node, d: int): Option<string>
    requires n.TrapStatement?
    decreases n, 2
  {
    var t :- Optional(n.trapType, " ", d);
    var b :- BlockText(n.body, d);
    Some("trap" + t + b)
  }

  /** A `while` loop; unlike the other loops, no line feed follows it. */
  function WhileText(n: Node, d: int): Option<string>
    requires n.WhileStatement?
    decreases n, 2
  {
    var c :- Render(n.condition, d);
    var b :- BlockText(n.body, d);
    Some("while (" + c + ")" + b)
  }

  function MemberModifiers(isStatic: bool, isHidden: bool): string {
    (if isStatic then "static " else []) + (if isHidden then "hidden " else [])
  }

  /** A property: modifiers, type, `$` and the name, and an initial value. */
  function PropertyMemberText(n: Node, d: int): Option<string>
    requires n.PropertyMember?
    decreases n, 2
  {
    var t :- Optional(n.propertyType, [], d);
    var init :- Optional(n.initialValue, " = ", d);
    Some(MemberModifiers(n.isStatic, n.isHidden) + t + "$" + n.name + init)
  }

  // ---------------------------------------------------------------------
  // Every node
  // ---------------------------------------------------------------------

  /**
   * The text of one node visited at depth `d`: the text of the visit method
   * for its kind. The kinds the printer does not support throw.
   */
  function Render(n: Node, d: int): Option<string>
    decreases n, 3
  {
    match n
    case ArrayExpression(_) => ArrayExpressionText(n, d)
    case ArrayLiteral(elements) => Joined(elements, ", ", d)
    case AttributedExpression(_, _) => AttributedText(n, d)
    case BaseCtorInvokeMemberExpression(_) => BaseCtorText(n, d)
    case BinaryExpression(_, _, _) => BinaryText(n, d)
    case ConstantExpression(value) => Some(ConstantText(value))
    case ConvertExpression(_, _) => AttributedText(n, d)
    case ErrorExpression => None
    case ExpandableStringExpression(text) => Some("\"" + text + "\"")
    case HashtableExpression(_) => HashtableText(n, d)
    case IndexExpression(_, _) => IndexText(n, d)
    case InvokeMemberExpression(_, _, _, _) => InvokeMemberText(n, d)
    case MemberExpression(_, _, _) => MemberText(n, d)
    case ParenExpression(_) => ParenText(n, d)
    case ScriptBlockExpression(s) => ScriptBlockText(s, d, true)
    case StringConstantExpression(kind, text) => Some(StringConstantText(kind, text))
    case SubExpression(_) => SubExpressionText(n, d)
    case TypeExpression(t) => Some("[" + TypeNameText(t) + "]")
    case UnaryExpression(_, _) => UnaryText(n, d)
    case UsingExpression(_) => UsingExpressionText(n)
    case VariableExpression(splatted, userPath) => Some([if splatted then '@' else '$'] + userPath)
    case Attribute(_, _, _) => AttributeText(n, d)
    case NamedAttributeArgument(_, _, _) => NamedAttributeArgumentText(n, d)
    case TypeConstraint(t) => Some("[" + TypeNameText(t) + "]")
    case Command(_, _, _) => CommandText(n, d)
    case CommandExpression(expression, _) => Render(expression, d)
    case CommandParameter(_, _) => CommandParameterText(n, d)
    case FileRedirection(_, _) => FileRedirectionText(n, d)
    case MergingRedirection(from, to) => Some(MergingRedirectionText(from, to))
    case Pipeline(elements) => Joined(elements, " | ", d)
    case AssignmentStatement(_, _, _) => BinaryText(n, d)
    case BlockStatement => None
    case BreakStatement(target) => ControlFlowText("break", target, d)
    case CatchClause(_, _) => CatchClauseText(n, d)
    case ConfigurationDefinition => None
    case ContinueStatement(target) => ControlFlowText("continue", target, d)
    case DataStatement => None
    case DoUntilStatement(_, _) => DoLoopText(n, d)
    case DoWhileStatement(_, _) => DoLoopText(n, d)
    case DynamicKeywordStatement => None
    case ErrorStatement => None
    case ExitStatement(pipeline) => ControlFlowText("exit", pipeline, d)
    case ForEachStatement(_, _, _) => ForEachText(n, d)
    case ForStatement(_, _, _, _) => ForText(n, d)
    case FunctionDefinition(_, _, _) => FunctionDefinitionText(n, d)
    case IfStatement(_, _) => IfText(n, d)
    case ReturnStatement(pipeline) => ControlFlowText("return", pipeline, d)
    case SwitchStatement(_, _, _, _) => SwitchText(n, d)
    case ThrowStatement(pipeline) => ControlFlowText("throw", pipeline, d)
    case TrapStatement(_, _) => TrapText(n, d)
    case TryStatement(_, _, _) => TryText(n, d)
    case TypeDefinition(_, _, _, _) => TypeDefinitionText(n, d)
    case UsingStatement(_, _, _, _) => UsingStatementText(n, d)
    case WhileStatement(_, _) => WhileText(n, d)
    case FunctionMember(_, _, _, _, _, _, _) => FunctionMemberText(n, d)
    case PropertyMember(_, _, _, _, _) => PropertyMemberText(n, d)
  }

  /** What `Run` returns for a whole script, starting at depth `d`. */
  function ScriptText(root: ScriptBlock, d: int): Option<string> {
    ScriptBlockText(root, d, false)
  }
}
