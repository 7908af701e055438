/**
 * The spelling of PowerShell tokens, as the printer writes operators and keywords.
 * `GetTokenString` is the table exactly as the printer has it; `TokenSpelling` is the
 * corrected table the rest of the model uses.
 */
module Tokens {
  import opened Wrappers

  /** The printer writes Environment.NewLine; the model fixes it to a line feed. */
  const EnvironmentNewLine: string := "\n"

  datatype TokenKind =
    | Ampersand
    | And
    | AndAnd
    | As
    | Assembly
    | AtCurly
    | AtParen
    | Band
    | Base
    | Begin
    | Bnot
    | Bor
    | Break
    | Bxor
    | Catch
    | Ccontains
    | Ceq
    | Cge
    | Cgt
    | Cin
    | Class
    | Cle
    | Clike
    | Clt
    | Cmatch
    | Cne
    | Cnotcontains
    | Cnotin
    | Cnotlike
    | Cnotmatch
    | Colon
    | ColonColon
    | Comma
    | Configuration
    | Continue
    | Creplace
    | Csplit
    | Data
    | Define
    | Divide
    | DivideEquals
    | Do
    | DollarParen
    | Dot
    | DotDot
    | Dynamicparam
    | Else
    | ElseIf
    | End
    | Enum
    | Equals
    | Exclaim
    | Exit
    | Filter
    | Finally
    | For
    | Foreach
    | Format
    | From
    | Function
    | Hidden
    | Icontains
    | Ieq
    | If
    | Ige
    | Igt
    | Iin
    | Ile
    | Ilike
    | Ilt
    | Imatch
    | In
    | Ine
    | InlineScript
    | Inotcontains
    | Inotin
    | Inotlike
    | Inotmatch
    | Interface
    | Ireplace
    | Is
    | IsNot
    | Isplit
    | Join
    | LBracket
    | LCurly
    | LParen
    | Minus
    | MinusEquals
    | MinusMinus
    | Module
    | Multiply
    | MultiplyEquals
    | Namespace
    | NewLine
    | Not
    | Or
    | OrOr
    | Parallel
    | Param
    | Pipe
    | Plus
    | PlusEquals
    | PlusPlus
    | PostfixMinusMinus
    | PostfixPlusPlus
    | Private
    | Process
    | Public
    | RBracket
    | RCurly
    | Rem
    | RemainderEquals
    | Return
    | RParen
    | Semi
    | Sequence
    | Shl
    | Shr
    | Static
    | Switch
    | Throw
    | Trap
    | Try
    | Until
    | Using
    | Var
    | While
    | Workflow
    | Xor
    // kinds the spelling table has no entry for
    | Unknown
    | Variable
    | SplattedVariable
    | Parameter
    | Number
    | Label
    | Identifier
    | Generic
    | LineContinuation
    | Comment
    | EndOfInput
    | StringLiteral
    | StringExpandable
    | HereStringLiteral
    | HereStringExpandable
    | Redirection
    | RedirectInStd
    | DynamicKeyword
    | Type
    | Command
    | Default

  function GetTokenString(k: TokenKind): Option<string> {
    match k
    case Ampersand => Some("&")
    case And => Some("-and")
    case AndAnd => Some("&&")
    case As => Some("-as")
    case Assembly => Some("assembly")
    case AtCurly => Some("@{")
    case AtParen => Some("@(")
    case Band => Some("-band")
    case Base => Some("base")
    case Begin => Some("begin")
    case Bnot => Some("-bnot")
    case Bor => Some("-bnor")
    case Break => Some("break")
    case Bxor => Some("-bxor")
    case Catch => Some("catch")
    case Ccontains => Some("-ccontains")
    case Ceq => Some("-ceq")
    case Cge => Some("-cge")
    case Cgt => Some("-cgt")
    case Cin => Some("-cin")
    case Class => Some("class")
    case Cle => Some("-cle")
    case Clike => Some("-clike")
    case Clt => Some("-clt")
    case Cmatch => Some("-cmatch")
    case Cne => Some("-cne")
    case Cnotcontains => Some("-cnotcontains")
    case Cnotin => Some("-cnotin")
    case Cnotlike => Some("-cnotlike")
    case Cnotmatch => Some("-cnotmatch")
    case Colon => Some(":")
    case ColonColon => Some("::")
    case Comma => Some(",")
    case Configuration => Some("configuration")
    case Continue => Some("continue")
    case Creplace => Some("-creplace")
    case Csplit => Some("-csplit")
    case Data => Some("data")
    case Define => Some("define")
    case Divide => Some("/")
    case DivideEquals => Some("/=")
    case Do => Some("do")
    case DollarParen => Some("$(")
    case Dot => Some(".")
    case DotDot => Some("..")
    case Dynamicparam => Some("dynamicparam")
    case Else => Some("else")
    case ElseIf => Some("elseif")
    case End => Some("end")
    case Enum => Some("enum")
    case Equals => Some("=")
    case Exclaim => Some("!")
    case Exit => Some("exit")
    case Filter => Some("filter")
    case Finally => Some("finally")
    case For => Some("for")
    case Foreach => Some("foreach")
    case Format => Some("-f")
    case From => Some("from")
    case Function => Some("function")
    case Hidden => Some("hidden")
    case Icontains => Some("-contains")
    case Ieq => Some("-eq")
    case If => Some("if")
    case Ige => Some("-ge")
    case Igt => Some("-gt")
    case Iin => Some("-in")
    case Ile => Some("-le")
    case Ilike => Some("-like")
    case Ilt => Some("-lt")
    case Imatch => Some("-match")
    case In => Some("-in")
    case Ine => Some("-ne")
    case InlineScript => Some("inlinescript")
    case Inotcontains => Some("-notcontains")
    case Inotin => Some("-notin")
    case Inotlike => Some("-notlike")
    case Inotmatch => Some("-notmatch")
    case Interface => Some("interface")
    case Ireplace => Some("-replace")
    case Is => Some("-is")
    case IsNot => Some("-isnot")
    case Isplit => Some("-split")
    case Join => Some("-join")
    case LBracket => Some("[")
    case LCurly => Some("{")
    case LParen => Some("(")
    case Minus => Some("-")
    case MinusEquals => Some("-=")
    case MinusMinus => Some("--")
    case Module => Some("module")
    case Multiply => Some("*")
    case MultiplyEquals => Some("*=")
    case Namespace => Some("namespace")
    case NewLine => Some(EnvironmentNewLine)
    case Not => Some("-not")
    case Or => Some("-or")
    case OrOr => Some("||")
    case Parallel => Some("parallel")
    case Param => Some("param")
    case Pipe => Some("|")
    case Plus => Some("+")
    case PlusEquals => Some("+=")
    case PlusPlus => Some("++")
    case PostfixMinusMinus => Some("--")
    case PostfixPlusPlus => Some("++")
    case Private => Some("private")
    case Process => Some("process")
    case Public => Some("public")
    case RBracket => Some("]")
    case RCurly => Some("}")
    case Rem => Some("%")
    case RemainderEquals => Some("%=")
    case Return => Some("return")
    case RParen => Some(")")
    case Semi => Some(";")
    case Sequence => Some("sequence")
    case Shl => Some("-shl")
    case Shr => Some("-shr")
    case Static => Some("static")
    case Switch => Some("switch")
    case Throw => Some("throw")
    case Trap => Some("trap")
    case Try => Some("try")
    case Until => Some("until")
    case Using => Some("using")
    case Var => Some("var")
    case While => Some("while")
    case Workflow => Some("workflow")
    case Xor => Some("-xor")
    case _ => None
  }

  /**
   * The corrected spelling table: identical to `GetTokenString` except that the
   * binary-or operator is spelled as PowerShell spells it.
   */
  function TokenSpelling(k: TokenKind): Option<string> {
    if k == Bor then Some("-bor") else GetTokenString(k)
  }

  /**
   * The token a text stands for when PowerShell reads it back, in the lower-case
   * canonical spelling: a dash followed by a letter starts a named operator, any
   * other text is a keyword or punctuation. `++` and `--` read as the prefix
   * operators (only the parser tells the postfix ones apart), and `in` is the
   * keyword of `foreach`, not the `-in` operator.
   */
  function ReadToken(s: string): Option<TokenKind> {
    if |s| >= 2 && s[0] == '-' && 'a' <= s[1] <= 'z' then ReadOperator(s[1..])
    else if |s| >= 1 && 'a' <= s[0] <= 'z' then ReadKeyword(s)
    else ReadPunctuation(s)
  }

  /** The operator named `name` after its dash. */
  function ReadOperator(name: string): Option<TokenKind> {
    match name
    case "and" => Some(And)
    case "as" => Some(As)
    case "band" => Some(Band)
    case "bnot" => Some(Bnot)
    case "bor" => Some(Bor)
    case "bxor" => Some(Bxor)
    case "ccontains" => Some(Ccontains)
    case "ceq" => Some(Ceq)
    case "cge" => Some(Cge)
    case "cgt" => Some(Cgt)
    case "cin" => Some(Cin)
    case "cle" => Some(Cle)
    case "clike" => Some(Clike)
    case "clt" => Some(Clt)
    case "cmatch" => Some(Cmatch)
    case "cne" => Some(Cne)
    case "cnotcontains" => Some(Cnotcontains)
    case "cnotin" => Some(Cnotin)
    case "cnotlike" => Some(Cnotlike)
    case "cnotmatch" => Some(Cnotmatch)
    case "creplace" => Some(Creplace)
    case "csplit" => Some(Csplit)
    case "f" => Some(Format)
    case "contains" => Some(Icontains)
    case "eq" => Some(Ieq)
    case "ge" => Some(Ige)
    case "gt" => Some(Igt)
    case "in" => Some(Iin)
    case "le" => Some(Ile)
    case "like" => Some(Ilike)
    case "lt" => Some(Ilt)
    case "match" => Some(Imatch)
    case "ne" => Some(Ine)
    case "notcontains" => Some(Inotcontains)
    case "notin" => Some(Inotin)
    case "notlike" => Some(Inotlike)
    case "notmatch" => Some(Inotmatch)
    case "replace" => Some(Ireplace)
    case "is" => Some(Is)
    case "isnot" => Some(IsNot)
    case "split" => Some(Isplit)
    case "join" => Some(Join)
    case "not" => Some(Not)
    case "or" => Some(Or)
    case "shl" => Some(Shl)
    case "shr" => Some(Shr)
    case "xor" => Some(Xor)
    case _ => None
  }

  function ReadKeyword(s: string): Option<TokenKind> {
    match s
    case "assembly" => Some(Assembly)
    case "base" => Some(Base)
    case "begin" => Some(Begin)
    case "break" => Some(Break)
    case "catch" => Some(Catch)
    case "class" => Some(Class)
    case "configuration" => Some(Configuration)
    case "continue" => Some(Continue)
    case "data" => Some(Data)
    case "define" => Some(Define)
    case "do" => Some(Do)
    case "dynamicparam" => Some(Dynamicparam)
    case "else" => Some(Else)
    case "elseif" => Some(ElseIf)
    case "end" => Some(End)
    case "enum" => Some(Enum)
    case "exit" => Some(Exit)
    case "filter" => Some(Filter)
    case "finally" => Some(Finally)
    case "for" => Some(For)
    case "foreach" => Some(Foreach)
    case "from" => Some(From)
    case "function" => Some(Function)
    case "hidden" => Some(Hidden)
    case "if" => Some(If)
    case "in" => Some(In)
    case "inlinescript" => Some(InlineScript)
    case "interface" => Some(Interface)
    case "module" => Some(Module)
    case "namespace" => Some(Namespace)
    case "parallel" => Some(Parallel)
    case "param" => Some(Param)
    case "private" => Some(Private)
    case "process" => Some(Process)
    case "public" => Some(Public)
    case "return" => Some(Return)
    case "sequence" => Some(Sequence)
    case "static" => Some(Static)
    case "switch" => Some(Switch)
    case "throw" => Some(Throw)
    case "trap" => Some(Trap)
    case "try" => Some(Try)
    case "until" => Some(Until)
    case "using" => Some(Using)
    case "var" => Some(Var)
    case "while" => Some(While)
    case "workflow" => Some(Workflow)
    case _ => None
  }

  function ReadPunctuation(s: string): Option<TokenKind> {
    match s
    case "&" => Some(Ampersand)
    case "&&" => Some(AndAnd)
    case "@{" => Some(AtCurly)
    case "@(" => Some(AtParen)
    case ":" => Some(Colon)
    case "::" => Some(ColonColon)
    case "," => Some(Comma)
    case "/" => Some(Divide)
    case "/=" => Some(DivideEquals)
    case "$(" => Some(DollarParen)
    case "." => Some(Dot)
    case ".." => Some(DotDot)
    case "=" => Some(Equals)
    case "!" => Some(Exclaim)
    case "[" => Some(LBracket)
    case "{" => Some(LCurly)
    case "(" => Some(LParen)
    case "-" => Some(Minus)
    case "-=" => Some(MinusEquals)
    case "--" => Some(MinusMinus)
    case "*" => Some(Multiply)
    case "*=" => Some(MultiplyEquals)
    case "\n" => Some(NewLine)
    case "||" => Some(OrOr)
    case "|" => Some(Pipe)
    case "+" => Some(Plus)
    case "+=" => Some(PlusEquals)
    case "++" => Some(PlusPlus)
    case "]" => Some(RBracket)
    case "}" => Some(RCurly)
    case "%" => Some(Rem)
    case "%=" => Some(RemainderEquals)
    case ")" => Some(RParen)
    case ";" => Some(Semi)
    case _ => None
  }

  /**
   * The kind the reader takes a spelling for: the prefix `++` and `--` for their
   * postfix twins, the `-in` operator for `In`, and the kind itself otherwise.
   */
  function CanonicalKind(k: TokenKind): TokenKind {
    match k
    case PostfixPlusPlus => PlusPlus
    case PostfixMinusMinus => MinusMinus
    case In => Iin
    case _ => k
  }

  /** The spelling of `k` exists and the reader takes it for the canonical kind of `k`. */
  predicate ReadsAsCanonical(k: TokenKind) {
    TokenSpelling(k).Some? && ReadToken(TokenSpelling(k).value) == Some(CanonicalKind(k))
  }

  /**
   * Every spelling of the corrected table reads back as its own kind, except the
   * three kinds that share their text with another: the postfix `++` and `--`,
   * and `In`, which the table spells as the `-in` operator.
   */
  lemma SpellingReadsBack(k: TokenKind)
    requires TokenSpelling(k).Some? && !k.PostfixPlusPlus? && !k.PostfixMinusMinus? && !k.In?
    ensures ReadToken(TokenSpelling(k).value) == Some(k)
  {
    SpellingReadsAsCanonical(k);
  }

  /** Two kinds share a spelling only in the three pairs the table really has. */
  lemma SharedSpellings(j: TokenKind, k: TokenKind)
    requires TokenSpelling(j).Some? && TokenSpelling(j) == TokenSpelling(k) && j != k
    ensures || (j.PlusPlus? && k.PostfixPlusPlus?) || (j.PostfixPlusPlus? && k.PlusPlus?)
            || (j.MinusMinus? && k.PostfixMinusMinus?) || (j.PostfixMinusMinus? && k.MinusMinus?)
            || (j.Iin? && k.In?) || (j.In? && k.Iin?)
  {
    SpellingReadsAsCanonical(j);
    SpellingReadsAsCanonical(k);
    assert CanonicalKind(j) == CanonicalKind(k);
    CanonicalTwins(j, k);
  }

  /** Only the three pairs have the same canonical kind. */
  lemma CanonicalTwins(j: TokenKind, k: TokenKind)
    requires CanonicalKind(j) == CanonicalKind(k) && j != k
    ensures || (j.PlusPlus? && k.PostfixPlusPlus?) || (j.PostfixPlusPlus? && k.PlusPlus?)
            || (j.MinusMinus? && k.PostfixMinusMinus?) || (j.PostfixMinusMinus? && k.MinusMinus?)
            || (j.Iin? && k.In?) || (j.In? && k.Iin?)
  {
    if !j.PostfixPlusPlus? && !j.PostfixMinusMinus? && !j.In? && !k.PostfixPlusPlus? && !k.PostfixMinusMinus? && !k.In? {
      assert false;
    }
  }

  /** Whatever kind has a spelling, the reader takes that spelling for its canonical kind. */
  lemma SpellingReadsAsCanonical(k: TokenKind)
    requires TokenSpelling(k).Some?
    ensures ReadsAsCanonical(k)
  {
    if Unspelled(k) {
      UnspelledHasNoSpelling(k);
      assert false;
    } else {
      SpelledReadsAsCanonical(k);
    }
  }

  /** The kinds whose text comes from the script itself: the table has no entry for them. */
  predicate Unspelled(k: TokenKind) {
    || k.Unknown? || k.Variable? || k.SplattedVariable? || k.Parameter? || k.Number?
    || k.Label? || k.Identifier? || k.Generic? || k.LineContinuation? || k.Comment?
    || k.EndOfInput? || k.StringLiteral? || k.StringExpandable? || k.HereStringLiteral?
    || k.HereStringExpandable? || k.Redirection? || k.RedirectInStd? || k.DynamicKeyword?
    || k.Type? || k.Command? || k.Default?
  }

  lemma UnspelledHasNoSpelling(k: TokenKind)
    requires Unspelled(k)
    ensures TokenSpelling(k) == None
  {
    if k.Unknown? || k.Variable? || k.SplattedVariable? || k.Parameter? || k.Number? || k.Label? || k.Identifier? {
      NoSpellingUnknownToIdentifier(k);
    } else if k.Generic? || k.LineContinuation? || k.Comment? || k.EndOfInput? || k.StringLiteral? || k.StringExpandable? || k.HereStringLiteral? {
      NoSpellingGenericToHereStringLiteral(k);
    } else {
      NoSpellingHereStringExpandableToDefault(k);
    }
  }

  lemma NoSpellingUnknownToIdentifier(k: TokenKind)
    requires k.Unknown? || k.Variable? || k.SplattedVariable? || k.Parameter? || k.Number? || k.Label? || k.Identifier?
    ensures TokenSpelling(k) == None
  {
    match k
    case Unknown =>
    case Variable =>
    case SplattedVariable =>
    case Parameter =>
    case Number =>
    case Label =>
    case Identifier =>
    case _ =>
      assert false;
  }

  lemma NoSpellingGenericToHereStringLiteral(k: TokenKind)
    requires k.Generic? || k.LineContinuation? || k.Comment? || k.EndOfInput? || k.StringLiteral? || k.StringExpandable? || k.HereStringLiteral?
    ensures TokenSpelling(k) == None
  {
    match k
    case Generic =>
    case LineContinuation =>
    case Comment =>
    case EndOfInput =>
    case StringLiteral =>
    case StringExpandable =>
    case HereStringLiteral =>
    case _ =>
      assert false;
  }

  lemma NoSpellingHereStringExpandableToDefault(k: TokenKind)
    requires k.HereStringExpandable? || k.Redirection? || k.RedirectInStd? || k.DynamicKeyword? || k.Type? || k.Command? || k.Default?
    ensures TokenSpelling(k) == None
  {
    match k
    case HereStringExpandable =>
    case Redirection =>
    case RedirectInStd =>
    case DynamicKeyword =>
    case Type =>
    case Command =>
    case Default =>
    case _ =>
      assert false;
  }

  /**
   * Every kind with an entry reads as its canonical kind. The table is checked
   * one entry per lemma, eight entries per block: each entry costs the solver
   * a walk down the whole table.
   */
  lemma SpelledReadsAsCanonical(k: TokenKind)
    requires !Unspelled(k)
    ensures ReadsAsCanonical(k)
  {
    if k.Ampersand? || k.And? || k.AndAnd? || k.As? || k.Assembly? || k.AtCurly? || k.AtParen? || k.Band? {
      SpellingsAmpersandToBand(k);
    } else if k.Base? || k.Begin? || k.Bnot? || k.Bor? || k.Break? || k.Bxor? || k.Catch? || k.Ccontains? {
      SpellingsBaseToCcontains(k);
    } else if k.Ceq? || k.Cge? || k.Cgt? || k.Cin? || k.Class? || k.Cle? || k.Clike? || k.Clt? {
      SpellingsCeqToClt(k);
    } else if k.Cmatch? || k.Cne? || k.Cnotcontains? || k.Cnotin? || k.Cnotlike? || k.Cnotmatch? || k.Colon? || k.ColonColon? {
      SpellingsCmatchToColonColon(k);
    } else if k.Comma? || k.Configuration? || k.Continue? || k.Creplace? || k.Csplit? || k.Data? || k.Define? || k.Divide? {
      SpellingsCommaToDivide(k);
    } else if k.DivideEquals? || k.Do? || k.DollarParen? || k.Dot? || k.DotDot? || k.Dynamicparam? || k.Else? || k.ElseIf? {
      SpellingsDivideEqualsToElseIf(k);
    } else if k.End? || k.Enum? || k.Equals? || k.Exclaim? || k.Exit? || k.Filter? || k.Finally? || k.For? {
      SpellingsEndToFor(k);
    } else if k.Foreach? || k.Format? || k.From? || k.Function? || k.Hidden? || k.Icontains? || k.Ieq? || k.If? {
      SpellingsForeachToIf(k);
    } else if k.Ige? || k.Igt? || k.Iin? || k.Ile? || k.Ilike? || k.Ilt? || k.Imatch? || k.In? {
      SpellingsIgeToIn(k);
    } else if k.Ine? || k.InlineScript? || k.Inotcontains? || k.Inotin? || k.Inotlike? || k.Inotmatch? || k.Interface? || k.Ireplace? {
      SpellingsIneToIreplace(k);
    } else if k.Is? || k.IsNot? || k.Isplit? || k.Join? || k.LBracket? || k.LCurly? || k.LParen? || k.Minus? {
      SpellingsIsToMinus(k);
    } else if k.MinusEquals? || k.MinusMinus? || k.Module? || k.Multiply? || k.MultiplyEquals? || k.Namespace? || k.NewLine? || k.Not? {
      SpellingsMinusEqualsToNot(k);
    } else if k.Or? || k.OrOr? || k.Parallel? || k.Param? || k.Pipe? || k.Plus? || k.PlusEquals? || k.PlusPlus? {
      SpellingsOrToPlusPlus(k);
    } else if k.PostfixMinusMinus? || k.PostfixPlusPlus? || k.Private? || k.Process? || k.Public? || k.RBracket? || k.RCurly? || k.Rem? {
      SpellingsPostfixMinusMinusToRem(k);
    } else if k.RemainderEquals? || k.Return? || k.RParen? || k.Semi? || k.Sequence? || k.Shl? || k.Shr? || k.Static? {
      SpellingsRemainderEqualsToStatic(k);
    } else if k.Switch? || k.Throw? || k.Trap? || k.Try? || k.Until? || k.Using? || k.Var? || k.While? || k.Workflow? || k.Xor? {
      SpellingsSwitchToXor(k);
    } else {
      assert false;
    }
  }

  lemma SpellingsAmpersandToBand(k: TokenKind)
    requires k.Ampersand? || k.And? || k.AndAnd? || k.As? || k.Assembly? || k.AtCurly? || k.AtParen? || k.Band?
    ensures ReadsAsCanonical(k)
  {
    if k == Ampersand {
      ReadsAsAmpersand();
    } else if k == And {
      ReadsAsAnd();
    } else if k == AndAnd {
      ReadsAsAndAnd();
    } else if k == As {
      ReadsAsAs();
    } else if k == Assembly {
      ReadsAsAssembly();
    } else if k == AtCurly {
      ReadsAsAtCurly();
    } else if k == AtParen {
      ReadsAsAtParen();
    } else {
      ReadsAsBand();
    }
  }

  lemma SpellingsBaseToCcontains(k: TokenKind)
    requires k.Base? || k.Begin? || k.Bnot? || k.Bor? || k.Break? || k.Bxor? || k.Catch? || k.Ccontains?
    ensures ReadsAsCanonical(k)
  {
    if k == Base {
      ReadsAsBase();
    } else if k == Begin {
      ReadsAsBegin();
    } else if k == Bnot {
      ReadsAsBnot();
    } else if k == Bor {
      ReadsAsBor();
    } else if k == Break {
      ReadsAsBreak();
    } else if k == Bxor {
      ReadsAsBxor();
    } else if k == Catch {
      ReadsAsCatch();
    } else {
      ReadsAsCcontains();
    }
  }

  lemma SpellingsCeqToClt(k: TokenKind)
    requires k.Ceq? || k.Cge? || k.Cgt? || k.Cin? || k.Class? || k.Cle? || k.Clike? || k.Clt?
    ensures ReadsAsCanonical(k)
  {
    if k == Ceq {
      ReadsAsCeq();
    } else if k == Cge {
      ReadsAsCge();
    } else if k == Cgt {
      ReadsAsCgt();
    } else if k == Cin {
      ReadsAsCin();
    } else if k == Class {
      ReadsAsClass();
    } else if k == Cle {
      ReadsAsCle();
    } else if k == Clike {
      ReadsAsClike();
    } else {
      ReadsAsClt();
    }
  }

  lemma SpellingsCmatchToColonColon(k: TokenKind)
    requires k.Cmatch? || k.Cne? || k.Cnotcontains? || k.Cnotin? || k.Cnotlike? || k.Cnotmatch? || k.Colon? || k.ColonColon?
    ensures ReadsAsCanonical(k)
  {
    if k == Cmatch {
      ReadsAsCmatch();
    } else if k == Cne {
      ReadsAsCne();
    } else if k == Cnotcontains {
      ReadsAsCnotcontains();
    } else if k == Cnotin {
      ReadsAsCnotin();
    } else if k == Cnotlike {
      ReadsAsCnotlike();
    } else if k == Cnotmatch {
      ReadsAsCnotmatch();
    } else if k == Colon {
      ReadsAsColon();
    } else {
      ReadsAsColonColon();
    }
  }

  lemma SpellingsCommaToDivide(k: TokenKind)
    requires k.Comma? || k.Configuration? || k.Continue? || k.Creplace? || k.Csplit? || k.Data? || k.Define? || k.Divide?
    ensures ReadsAsCanonical(k)
  {
    if k == Comma {
      ReadsAsComma();
    } else if k == Configuration {
      ReadsAsConfiguration();
    } else if k == Continue {
      ReadsAsContinue();
    } else if k == Creplace {
      ReadsAsCreplace();
    } else if k == Csplit {
      ReadsAsCsplit();
    } else if k == Data {
      ReadsAsData();
    } else if k == Define {
      ReadsAsDefine();
    } else {
      ReadsAsDivide();
    }
  }

  lemma SpellingsDivideEqualsToElseIf(k: TokenKind)
    requires k.DivideEquals? || k.Do? || k.DollarParen? || k.Dot? || k.DotDot? || k.Dynamicparam? || k.Else? || k.ElseIf?
    ensures ReadsAsCanonical(k)
  {
    if k == DivideEquals {
      ReadsAsDivideEquals();
    } else if k == Do {
      ReadsAsDo();
    } else if k == DollarParen {
      ReadsAsDollarParen();
    } else if k == Dot {
      ReadsAsDot();
    } else if k == DotDot {
      ReadsAsDotDot();
    } else if k == Dynamicparam {
      ReadsAsDynamicparam();
    } else if k == Else {
      ReadsAsElse();
    } else {
      ReadsAsElseIf();
    }
  }

  lemma SpellingsEndToFor(k: TokenKind)
    requires k.End? || k.Enum? || k.Equals? || k.Exclaim? || k.Exit? || k.Filter? || k.Finally? || k.For?
    ensures ReadsAsCanonical(k)
  {
    if k == End {
      ReadsAsEnd();
    } else if k == Enum {
      ReadsAsEnum();
    } else if k == Equals {
      ReadsAsEquals();
    } else if k == Exclaim {
      ReadsAsExclaim();
    } else if k == Exit {
      ReadsAsExit();
    } else if k == Filter {
      ReadsAsFilter();
    } else if k == Finally {
      ReadsAsFinally();
    } else {
      ReadsAsFor();
    }
  }

  lemma SpellingsForeachToIf(k: TokenKind)
    requires k.Foreach? || k.Format? || k.From? || k.Function? || k.Hidden? || k.Icontains? || k.Ieq? || k.If?
    ensures ReadsAsCanonical(k)
  {
    if k == Foreach {
      ReadsAsForeach();
    } else if k == Format {
      ReadsAsFormat();
    } else if k == From {
      ReadsAsFrom();
    } else if k == Function {
      ReadsAsFunction();
    } else if k == Hidden {
      ReadsAsHidden();
    } else if k == Icontains {
      ReadsAsIcontains();
    } else if k == Ieq {
      ReadsAsIeq();
    } else {
      ReadsAsIf();
    }
  }

  lemma SpellingsIgeToIn(k: TokenKind)
    requires k.Ige? || k.Igt? || k.Iin? || k.Ile? || k.Ilike? || k.Ilt? || k.Imatch? || k.In?
    ensures ReadsAsCanonical(k)
  {
    if k == Ige {
      ReadsAsIge();
    } else if k == Igt {
      ReadsAsIgt();
    } else if k == Iin {
      ReadsAsIin();
    } else if k == Ile {
      ReadsAsIle();
    } else if k == Ilike {
      ReadsAsIlike();
    } else if k == Ilt {
      ReadsAsIlt();
    } else if k == Imatch {
      ReadsAsImatch();
    } else {
      ReadsAsIn();
    }
  }

  lemma SpellingsIneToIreplace(k: TokenKind)
    requires k.Ine? || k.InlineScript? || k.Inotcontains? || k.Inotin? || k.Inotlike? || k.Inotmatch? || k.Interface? || k.Ireplace?
    ensures ReadsAsCanonical(k)
  {
    if k == Ine {
      ReadsAsIne();
    } else if k == InlineScript {
      ReadsAsInlineScript();
    } else if k == Inotcontains {
      ReadsAsInotcontains();
    } else if k == Inotin {
      ReadsAsInotin();
    } else if k == Inotlike {
      ReadsAsInotlike();
    } else if k == Inotmatch {
      ReadsAsInotmatch();
    } else if k == Interface {
      ReadsAsInterface();
    } else {
      ReadsAsIreplace();
    }
  }

  lemma SpellingsIsToMinus(k: TokenKind)
    requires k.Is? || k.IsNot? || k.Isplit? || k.Join? || k.LBracket? || k.LCurly? || k.LParen? || k.Minus?
    ensures ReadsAsCanonical(k)
  {
    if k == Is {
      ReadsAsIs();
    } else if k == IsNot {
      ReadsAsIsNot();
    } else if k == Isplit {
      ReadsAsIsplit();
    } else if k == Join {
      ReadsAsJoin();
    } else if k == LBracket {
      ReadsAsLBracket();
    } else if k == LCurly {
      ReadsAsLCurly();
    } else if k == LParen {
      ReadsAsLParen();
    } else {
      ReadsAsMinus();
    }
  }

  lemma SpellingsMinusEqualsToNot(k: TokenKind)
    requires k.MinusEquals? || k.MinusMinus? || k.Module? || k.Multiply? || k.MultiplyEquals? || k.Namespace? || k.NewLine? || k.Not?
    ensures ReadsAsCanonical(k)
  {
    if k == MinusEquals {
      ReadsAsMinusEquals();
    } else if k == MinusMinus {
      ReadsAsMinusMinus();
    } else if k == Module {
      ReadsAsModule();
    } else if k == Multiply {
      ReadsAsMultiply();
    } else if k == MultiplyEquals {
      ReadsAsMultiplyEquals();
    } else if k == Namespace {
      ReadsAsNamespace();
    } else if k == NewLine {
      ReadsAsNewLine();
    } else {
      ReadsAsNot();
    }
  }

  lemma SpellingsOrToPlusPlus(k: TokenKind)
    requires k.Or? || k.OrOr? || k.Parallel? || k.Param? || k.Pipe? || k.Plus? || k.PlusEquals? || k.PlusPlus?
    ensures ReadsAsCanonical(k)
  {
    if k == Or {
      ReadsAsOr();
    } else if k == OrOr {
      ReadsAsOrOr();
    } else if k == Parallel {
      ReadsAsParallel();
    } else if k == Param {
      ReadsAsParam();
    } else if k == Pipe {
      ReadsAsPipe();
    } else if k == Plus {
      ReadsAsPlus();
    } else if k == PlusEquals {
      ReadsAsPlusEquals();
    } else {
      ReadsAsPlusPlus();
    }
  }

  lemma SpellingsPostfixMinusMinusToRem(k: TokenKind)
    requires k.PostfixMinusMinus? || k.PostfixPlusPlus? || k.Private? || k.Process? || k.Public? || k.RBracket? || k.RCurly? || k.Rem?
    ensures ReadsAsCanonical(k)
  {
    if k == PostfixMinusMinus {
      ReadsAsPostfixMinusMinus();
    } else if k == PostfixPlusPlus {
      ReadsAsPostfixPlusPlus();
    } else if k == Private {
      ReadsAsPrivate();
    } else if k == Process {
      ReadsAsProcess();
    } else if k == Public {
      ReadsAsPublic();
    } else if k == RBracket {
      ReadsAsRBracket();
    } else if k == RCurly {
      ReadsAsRCurly();
    } else {
      ReadsAsRem();
    }
  }

  lemma SpellingsRemainderEqualsToStatic(k: TokenKind)
    requires k.RemainderEquals? || k.Return? || k.RParen? || k.Semi? || k.Sequence? || k.Shl? || k.Shr? || k.Static?
    ensures ReadsAsCanonical(k)
  {
    if k == RemainderEquals {
      ReadsAsRemainderEquals();
    } else if k == Return {
      ReadsAsReturn();
    } else if k == RParen {
      ReadsAsRParen();
    } else if k == Semi {
      ReadsAsSemi();
    } else if k == Sequence {
      ReadsAsSequence();
    } else if k == Shl {
      ReadsAsShl();
    } else if k == Shr {
      ReadsAsShr();
    } else {
      ReadsAsStatic();
    }
  }

  lemma SpellingsSwitchToXor(k: TokenKind)
    requires k.Switch? || k.Throw? || k.Trap? || k.Try? || k.Until? || k.Using? || k.Var? || k.While? || k.Workflow? || k.Xor?
    ensures ReadsAsCanonical(k)
  {
    if k == Switch {
      ReadsAsSwitch();
    } else if k == Throw {
      ReadsAsThrow();
    } else if k == Trap {
      ReadsAsTrap();
    } else if k == Try {
      ReadsAsTry();
    } else if k == Until {
      ReadsAsUntil();
    } else if k == Using {
      ReadsAsUsing();
    } else if k == Var {
      ReadsAsVar();
    } else if k == While {
      ReadsAsWhile();
    } else if k == Workflow {
      ReadsAsWorkflow();
    } else {
      ReadsAsXor();
    }
  }

  // One lemma per entry of the table.
  lemma ReadsAsAmpersand() ensures ReadsAsCanonical(Ampersand) {}
  lemma ReadsAsAnd() ensures ReadsAsCanonical(And) {}
  lemma ReadsAsAndAnd() ensures ReadsAsCanonical(AndAnd) {}
  lemma ReadsAsAs() ensures ReadsAsCanonical(As) {}
  lemma ReadsAsAssembly() ensures ReadsAsCanonical(Assembly) {}
  lemma ReadsAsAtCurly() ensures ReadsAsCanonical(AtCurly) {}
  lemma ReadsAsAtParen() ensures ReadsAsCanonical(AtParen) {}
  lemma ReadsAsBand() ensures ReadsAsCanonical(Band) {}
  lemma ReadsAsBase() ensures ReadsAsCanonical(Base) {}
  lemma ReadsAsBegin() ensures ReadsAsCanonical(Begin) {}
  lemma ReadsAsBnot() ensures ReadsAsCanonical(Bnot) {}
  lemma ReadsAsBor() ensures ReadsAsCanonical(Bor) {}
  lemma ReadsAsBreak() ensures ReadsAsCanonical(Break) {}
  lemma ReadsAsBxor() ensures ReadsAsCanonical(Bxor) {}
  lemma ReadsAsCatch() ensures ReadsAsCanonical(Catch) {}
  lemma ReadsAsCcontains() ensures ReadsAsCanonical(Ccontains) {}
  lemma ReadsAsCeq() ensures ReadsAsCanonical(Ceq) {}
  lemma ReadsAsCge() ensures ReadsAsCanonical(Cge) {}
  lemma ReadsAsCgt() ensures ReadsAsCanonical(Cgt) {}
  lemma ReadsAsCin() ensures ReadsAsCanonical(Cin) {}
  lemma ReadsAsClass() ensures ReadsAsCanonical(Class) {}
  lemma ReadsAsCle() ensures ReadsAsCanonical(Cle) {}
  lemma ReadsAsClike() ensures ReadsAsCanonical(Clike) {}
  lemma ReadsAsClt() ensures ReadsAsCanonical(Clt) {}
  lemma ReadsAsCmatch() ensures ReadsAsCanonical(Cmatch) {}
  lemma ReadsAsCne() ensures ReadsAsCanonical(Cne) {}
  lemma ReadsAsCnotcontains() ensures ReadsAsCanonical(Cnotcontains) {}
  lemma ReadsAsCnotin() ensures ReadsAsCanonical(Cnotin) {}
  lemma ReadsAsCnotlike() ensures ReadsAsCanonical(Cnotlike) {}
  lemma ReadsAsCnotmatch() ensures ReadsAsCanonical(Cnotmatch) {}
  lemma ReadsAsColon() ensures ReadsAsCanonical(Colon) {}
  lemma ReadsAsColonColon() ensures ReadsAsCanonical(ColonColon) {}
  lemma ReadsAsComma() ensures ReadsAsCanonical(Comma) {}
  lemma ReadsAsConfiguration() ensures ReadsAsCanonical(Configuration) {}
  lemma ReadsAsContinue() ensures ReadsAsCanonical(Continue) {}
  lemma ReadsAsCreplace() ensures ReadsAsCanonical(Creplace) {}
  lemma ReadsAsCsplit() ensures ReadsAsCanonical(Csplit) {}
  lemma ReadsAsData() ensures ReadsAsCanonical(Data) {}
  lemma ReadsAsDefine() ensures ReadsAsCanonical(Define) {}
  lemma ReadsAsDivide() ensures ReadsAsCanonical(Divide) {}
  lemma ReadsAsDivideEquals() ensures ReadsAsCanonical(DivideEquals) {}
  lemma ReadsAsDo() ensures ReadsAsCanonical(Do) {}
  lemma ReadsAsDollarParen() ensures ReadsAsCanonical(DollarParen) {}
  lemma ReadsAsDot() ensures ReadsAsCanonical(Dot) {}
  lemma ReadsAsDotDot() ensures ReadsAsCanonical(DotDot) {}
  lemma ReadsAsDynamicparam() ensures ReadsAsCanonical(Dynamicparam) {}
  lemma ReadsAsElse() ensures ReadsAsCanonical(Else) {}
  lemma ReadsAsElseIf() ensures ReadsAsCanonical(ElseIf) {}
  lemma ReadsAsEnd() ensures ReadsAsCanonical(End) {}
  lemma ReadsAsEnum() ensures ReadsAsCanonical(Enum) {}
  lemma ReadsAsEquals() ensures ReadsAsCanonical(Equals) {}
  lemma ReadsAsExclaim() ensures ReadsAsCanonical(Exclaim) {}
  lemma ReadsAsExit() ensures ReadsAsCanonical(Exit) {}
  lemma ReadsAsFilter() ensures ReadsAsCanonical(Filter) {}
  lemma ReadsAsFinally() ensures ReadsAsCanonical(Finally) {}
  lemma ReadsAsFor() ensures ReadsAsCanonical(For) {}
  lemma ReadsAsForeach() ensures ReadsAsCanonical(Foreach) {}
  lemma ReadsAsFormat() ensures ReadsAsCanonical(Format) {}
  lemma ReadsAsFrom() ensures ReadsAsCanonical(From) {}
  lemma ReadsAsFunction() ensures ReadsAsCanonical(Function) {}
  lemma ReadsAsHidden() ensures ReadsAsCanonical(Hidden) {}
  lemma ReadsAsIcontains() ensures ReadsAsCanonical(Icontains) {}
  lemma ReadsAsIeq() ensures ReadsAsCanonical(Ieq) {}
  lemma ReadsAsIf() ensures ReadsAsCanonical(If) {}
  lemma ReadsAsIge() ensures ReadsAsCanonical(Ige) {}
  lemma ReadsAsIgt() ensures ReadsAsCanonical(Igt) {}
  lemma ReadsAsIin() ensures ReadsAsCanonical(Iin) {}
  lemma ReadsAsIle() ensures ReadsAsCanonical(Ile) {}
  lemma ReadsAsIlike() ensures ReadsAsCanonical(Ilike) {}
  lemma ReadsAsIlt() ensures ReadsAsCanonical(Ilt) {}
  lemma ReadsAsImatch() ensures ReadsAsCanonical(Imatch) {}
  lemma ReadsAsIn() ensures ReadsAsCanonical(In) {}
  lemma ReadsAsIne() ensures ReadsAsCanonical(Ine) {}
  lemma ReadsAsInlineScript() ensures ReadsAsCanonical(InlineScript) {}
  lemma ReadsAsInotcontains() ensures ReadsAsCanonical(Inotcontains) {}
  lemma ReadsAsInotin() ensures ReadsAsCanonical(Inotin) {}
  lemma ReadsAsInotlike() ensures ReadsAsCanonical(Inotlike) {}
  lemma ReadsAsInotmatch() ensures ReadsAsCanonical(Inotmatch) {}
  lemma ReadsAsInterface() ensures ReadsAsCanonical(Interface) {}
  lemma ReadsAsIreplace() ensures ReadsAsCanonical(Ireplace) {}
  lemma ReadsAsIs() ensures ReadsAsCanonical(Is) {}
  lemma ReadsAsIsNot() ensures ReadsAsCanonical(IsNot) {}
  lemma ReadsAsIsplit() ensures ReadsAsCanonical(Isplit) {}
  lemma ReadsAsJoin() ensures ReadsAsCanonical(Join) {}
  lemma ReadsAsLBracket() ensures ReadsAsCanonical(LBracket) {}
  lemma ReadsAsLCurly() ensures ReadsAsCanonical(LCurly) {}
  lemma ReadsAsLParen() ensures ReadsAsCanonical(LParen) {}
  lemma ReadsAsMinus() ensures ReadsAsCanonical(Minus) {}
  lemma ReadsAsMinusEquals() ensures ReadsAsCanonical(MinusEquals) {}
  lemma ReadsAsMinusMinus() ensures ReadsAsCanonical(MinusMinus) {}
  lemma ReadsAsModule() ensures ReadsAsCanonical(Module) {}
  lemma ReadsAsMultiply() ensures ReadsAsCanonical(Multiply) {}
  lemma ReadsAsMultiplyEquals() ensures ReadsAsCanonical(MultiplyEquals) {}
  lemma ReadsAsNamespace() ensures ReadsAsCanonical(Namespace) {}
  lemma ReadsAsNewLine() ensures ReadsAsCanonical(NewLine) {}
  lemma ReadsAsNot() ensures ReadsAsCanonical(Not) {}
  lemma ReadsAsOr() ensures ReadsAsCanonical(Or) {}
  lemma ReadsAsOrOr() ensures ReadsAsCanonical(OrOr) {}
  lemma ReadsAsParallel() ensures ReadsAsCanonical(Parallel) {}
  lemma ReadsAsParam() ensures ReadsAsCanonical(Param) {}
  lemma ReadsAsPipe() ensures ReadsAsCanonical(Pipe) {}
  lemma ReadsAsPlus() ensures ReadsAsCanonical(Plus) {}
  lemma ReadsAsPlusEquals() ensures ReadsAsCanonical(PlusEquals) {}
  lemma ReadsAsPlusPlus() ensures ReadsAsCanonical(PlusPlus) {}
  lemma ReadsAsPostfixMinusMinus() ensures ReadsAsCanonical(PostfixMinusMinus) {}
  lemma ReadsAsPostfixPlusPlus() ensures ReadsAsCanonical(PostfixPlusPlus) {}
  lemma ReadsAsPrivate() ensures ReadsAsCanonical(Private) {}
  lemma ReadsAsProcess() ensures ReadsAsCanonical(Process) {}
  lemma ReadsAsPublic() ensures ReadsAsCanonical(Public) {}
  lemma ReadsAsRBracket() ensures ReadsAsCanonical(RBracket) {}
  lemma ReadsAsRCurly() ensures ReadsAsCanonical(RCurly) {}
  lemma ReadsAsRem() ensures ReadsAsCanonical(Rem) {}
  lemma ReadsAsRemainderEquals() ensures ReadsAsCanonical(RemainderEquals) {}
  lemma ReadsAsReturn() ensures ReadsAsCanonical(Return) {}
  lemma ReadsAsRParen() ensures ReadsAsCanonical(RParen) {}
  lemma ReadsAsSemi() ensures ReadsAsCanonical(Semi) {}
  lemma ReadsAsSequence() ensures ReadsAsCanonical(Sequence) {}
  lemma ReadsAsShl() ensures ReadsAsCanonical(Shl) {}
  lemma ReadsAsShr() ensures ReadsAsCanonical(Shr) {}
  lemma ReadsAsStatic() ensures ReadsAsCanonical(Static) {}
  lemma ReadsAsSwitch() ensures ReadsAsCanonical(Switch) {}
  lemma ReadsAsThrow() ensures ReadsAsCanonical(Throw) {}
  lemma ReadsAsTrap() ensures ReadsAsCanonical(Trap) {}
  lemma ReadsAsTry() ensures ReadsAsCanonical(Try) {}
  lemma ReadsAsUntil() ensures ReadsAsCanonical(Until) {}
  lemma ReadsAsUsing() ensures ReadsAsCanonical(Using) {}
  lemma ReadsAsVar() ensures ReadsAsCanonical(Var) {}
  lemma ReadsAsWhile() ensures ReadsAsCanonical(While) {}
  lemma ReadsAsWorkflow() ensures ReadsAsCanonical(Workflow) {}
  lemma ReadsAsXor() ensures ReadsAsCanonical(Xor) {}

  /**
   * The table as written spells binary-or as `-bnor`, a text that reads back as
   * no token at all, while the corrected spelling reads back as binary-or.
   */
  lemma BorSpellingDoesNotReadBack()
    ensures GetTokenString(Bor) == Some("-bnor")
    ensures ReadToken(GetTokenString(Bor).value) == None
    ensures ReadToken(TokenSpelling(Bor).value) == Some(Bor)
  {
  }
}
