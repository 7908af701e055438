/**
 * The syntax tree the printer walks: one constructor per node class it
 * visits. A reference that may be null is an `Option`; a list that may be
 * null or empty is a (possibly empty) sequence.
 */
module Ast {
  import opened Wrappers
  import opened Tokens
  import opened Streams
  import opened Escaping

  datatype TypeName =
    | SimpleTypeName(fullName: string)
    | ArrayTypeName(elementType: TypeName, rank: int)
    | GenericTypeName(fullName: string, genericArguments: seq<TypeName>)

  /** The value of a constant expression; any value other than null or a boolean is its .NET text. */
  datatype Constant = NullConstant | BoolConstant(b: bool) | OtherConstant(text: string)

  datatype TypeKind = ClassType | InterfaceType | EnumType

  datatype UsingKind = UsingAssembly | UsingCommand | UsingModule | UsingNamespace | UsingType

  /** A hashtable entry: a key expression and a value statement. */
  datatype KeyValue = KeyValue(key: Node, value: Node)

  /** A condition with the block it guards: an `if`/`elseif` clause or a `switch` case. */
  datatype Clause = Clause(condition: Node, body: StatementBlock)

  /** The hashtable of a `using module @{ ... }` statement. */
  datatype ModuleSpecification = ModuleSpecification(keyValuePairs: seq<KeyValue>)

  datatype StatementBlock = StatementBlock(statements: seq<Node>, traps: seq<Node>)

  /** A `dynamicparam`, `begin`, `process` or `end` block, or the unnamed body of a script. */
  datatype NamedBlock = NamedBlock(unnamed: bool, blockKind: TokenKind, block: StatementBlock)

  datatype ParamBlock = ParamBlock(attributes: seq<Node>, parameters: seq<Parameter>)

  datatype Parameter = Parameter(attributes: seq<Node>, name: Node, defaultValue: Option<Node>)

  datatype ScriptBlock = ScriptBlock(
    paramBlock: Option<ParamBlock>,
    usingStatements: seq<Node>,
    dynamicParamBlock: Option<NamedBlock>,
    beginBlock: Option<NamedBlock>,
    processBlock: Option<NamedBlock>,
    endBlock: Option<NamedBlock>)

  datatype Node =
    // expressions
    | ArrayExpression(subExpression: StatementBlock)
    | ArrayLiteral(elements: seq<Node>)
    | AttributedExpression(attribute: Node, child: Node)
    | BaseCtorInvokeMemberExpression(arguments: seq<Node>)
    | BinaryExpression(left: Node, operator: TokenKind, right: Node)
    | ConstantExpression(value: Constant)
    | ConvertExpression(attribute: Node, child: Node)
    | ErrorExpression
    | ExpandableStringExpression(text: string)
    | HashtableExpression(keyValuePairs: seq<KeyValue>)
    | IndexExpression(target: Node, index: Node)
    | InvokeMemberExpression(expression: Node, isStatic: bool, member: Node, arguments: seq<Node>)
    | MemberExpression(expression: Node, isStatic: bool, member: Node)
    | ParenExpression(parenPipeline: Node)
    | ScriptBlockExpression(scriptBlock: ScriptBlock)
    | StringConstantExpression(stringConstantType: StringConstantType, text: string)
    | SubExpression(subExpression: StatementBlock)
    | TypeExpression(typeName: TypeName)
    | UnaryExpression(tokenKind: TokenKind, child: Node)
    | UsingExpression(usingTarget: Node)
    | VariableExpression(splatted: bool, userPath: string)
    // attributes
    | Attribute(attributeTypeName: string, positionalArguments: seq<Node>, namedArguments: seq<Node>)
    | NamedAttributeArgument(argumentName: string, expressionOmitted: bool, argument: Option<Node>)
    | TypeConstraint(typeName: TypeName)
    // commands and pipelines
    | Command(invocationOperator: TokenKind, commandElements: seq<Node>, redirections: seq<Node>)
    | CommandExpression(expression: Node, redirections: seq<Node>)
    | CommandParameter(parameterName: string, argument: Option<Node>)
    | FileRedirection(fromStream: RedirectionStream, location: Node)
    | MergingRedirection(fromStream: RedirectionStream, toStream: RedirectionStream)
    | Pipeline(pipelineElements: seq<Node>)
    // statements
    | AssignmentStatement(left: Node, operator: TokenKind, right: Node)
    | BlockStatement
    | BreakStatement(jumpLabel: Option<Node>)
    | CatchClause(catchTypes: seq<Node>, body: StatementBlock)
    | ConfigurationDefinition
    | ContinueStatement(jumpLabel: Option<Node>)
    | DataStatement
    | DoUntilStatement(body: StatementBlock, condition: Node)
    | DoWhileStatement(body: StatementBlock, condition: Node)
    | DynamicKeywordStatement
    | ErrorStatement
    | ExitStatement(pipeline: Option<Node>)
    | ForEachStatement(variable: Node, condition: Node, body: StatementBlock)
    | ForStatement(initializer: Option<Node>, forCondition: Option<Node>, forIterator: Option<Node>, body: StatementBlock)
    | FunctionDefinition(isFilter: bool, name: string, functionBody: ScriptBlock)
    | IfStatement(clauses: seq<Clause>, elseClause: Option<StatementBlock>)
    | ReturnStatement(pipeline: Option<Node>)
    | SwitchStatement(switchLabel: Option<string>, condition: Node, switchClauses: seq<Clause>, defaultClause: Option<StatementBlock>)
    | ThrowStatement(pipeline: Option<Node>)
    | TrapStatement(trapType: Option<Node>, body: StatementBlock)
    | TryStatement(body: StatementBlock, catchClauses: seq<Node>, finallyBlock: Option<StatementBlock>)
    | TypeDefinition(typeKind: TypeKind, name: string, baseTypes: seq<TypeName>, members: seq<Node>)
    | UsingStatement(usingStatementKind: UsingKind, moduleSpecification: Option<ModuleSpecification>, usingName: Option<Node>, alias: Option<Node>)
    | WhileStatement(condition: Node, body: StatementBlock)
    // type members
    | FunctionMember(isConstructor: bool, isStatic: bool, isHidden: bool, returnType: Option<Node>, name: string, parameters: seq<Parameter>, functionBody: ScriptBlock)
    | PropertyMember(isStatic: bool, isHidden: bool, propertyType: Option<Node>, name: string, initialValue: Option<Node>)

  /** The expression nodes, listed first in `Node`. */
  predicate IsExpression(n: Node) {
    n.ArrayExpression? || n.ArrayLiteral? || n.AttributedExpression? || n.BaseCtorInvokeMemberExpression?
    || n.BinaryExpression? || n.ConstantExpression? || n.ConvertExpression? || n.ErrorExpression?
    || n.ExpandableStringExpression? || n.HashtableExpression? || n.IndexExpression?
    || n.InvokeMemberExpression? || n.MemberExpression? || n.ParenExpression? || n.ScriptBlockExpression?
    || n.StringConstantExpression? || n.SubExpression? || n.TypeExpression? || n.UnaryExpression?
    || n.UsingExpression? || n.VariableExpression?
  }

  /** The statement nodes, from `AssignmentStatement` to `WhileStatement` in `Node`. */
  predicate IsStatement(n: Node) {
    n.AssignmentStatement? || n.BlockStatement? || n.BreakStatement? || n.CatchClause?
    || n.ConfigurationDefinition? || n.ContinueStatement? || n.DataStatement? || n.DoUntilStatement?
    || n.DoWhileStatement? || n.DynamicKeywordStatement? || n.ErrorStatement? || n.ExitStatement?
    || n.ForEachStatement? || n.ForStatement? || n.FunctionDefinition? || n.IfStatement?
    || n.ReturnStatement? || n.SwitchStatement? || n.ThrowStatement? || n.TrapStatement?
    || n.TryStatement? || n.TypeDefinition? || n.UsingStatement? || n.WhileStatement?
  }

  /** The operator-like expressions: those built around one or two operand expressions. */
  predicate IsOperatorExpression(n: Node) {
    n.ArrayLiteral? || n.AttributedExpression? || n.BaseCtorInvokeMemberExpression? || n.BinaryExpression?
    || n.ConvertExpression? || n.IndexExpression? || n.InvokeMemberExpression? || n.MemberExpression?
    || n.ParenExpression? || n.UnaryExpression?
  }

  /** The loop statements. */
  predicate IsLoop(n: Node) {
    n.DoUntilStatement? || n.DoWhileStatement? || n.ForEachStatement? || n.ForStatement? || n.WhileStatement?
  }

  /** The statements that leave a loop, a function or a script. */
  predicate IsJump(n: Node) {
    n.BreakStatement? || n.ContinueStatement? || n.ExitStatement? || n.ReturnStatement? || n.ThrowStatement?
  }

  /** The statements made of a keyword and nested blocks, other than loops. */
  predicate IsCompoundStatement(n: Node) {
    n.CatchClause? || n.FunctionDefinition? || n.IfStatement? || n.SwitchStatement?
    || n.TrapStatement? || n.TryStatement? || n.TypeDefinition?
  }

  /**
   * `IsBlockStatement`: every statement except pipelines (a pipeline, an
   * assignment or an error statement) and the five control-flow statements
   * ends in a block, and is followed by a blank line when another statement
   * comes after it.
   */
  predicate IsBlockStatement(n: Node) {
    !(n.Pipeline? || n.AssignmentStatement? || n.ErrorStatement?
      || n.ReturnStatement? || n.ThrowStatement? || n.ExitStatement?
      || n.BreakStatement? || n.ContinueStatement?)
  }
}
