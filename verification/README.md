# PowerShell AST pretty-printer, modelled in Dafny

This project models `PrettyPrintingVisitor`, the pretty-printer of the
PowerShell `AstTools` module. It walks a parsed PowerShell syntax tree and
writes it back out as source text into a string builder. Along the way it
tracks an indentation depth of four spaces per level.

Its behaviour is modelled in three layers.

- **Buffer primitives.** `Newline`, `Newline(count)`, `EndStatement`,
  `Indent`, `Dedent`, `BeginBlock` and `EndBlock` are methods of the Dafny
  class `Printer.PrettyPrintingVisitor`. Its fields are `sb` (the builder)
  and `indent` (the depth). Each method states exactly how it extends `sb`
  and moves `indent`.
- **Lookups and encoders**, written as pure functions:
  - the token spelling table `GetTokenString` (`Tokens`);
  - the stream indicators of redirections (`Streams`);
  - backtick escaping of double-quoted strings, quote doubling of
    single-quoted strings, and here-strings (`Escaping`);
  - `IsBlockStatement` (`Ast`).

  Each encoder is paired with a reader, written separately from PowerShell's
  rules for that kind of text: the spellings of operators, keywords and
  punctuation; the stream digits; backtick escapes; doubled quote marks; and
  here-string footers. The readers accept the typographic quote marks
  PowerShell treats as quotes. They read only the shapes the printer writes
  and are not a full tokenizer. The round trips are proved against them.
- **Visit methods.** Each `Visit*` handler and helper of the printer is a
  method of the class. It is proved against a pure function in module
  `Rendering` that gives the text of a node at a depth. `None` stands for a
  visit that throws.
  - Every visit method ensures `Wrote(old(sb), old(indent), Render(n,
    old(indent)), ok)`. On success the buffer grows by exactly that text
    (so what was written before is never changed) and the depth is back
    where it was. The method fails exactly when the text is `None`.
  - Module `Properties` then proves what the printer promises about those
    texts: `Intersperse` layout, statement-block layout, constructor base
    calls, redirections and constants.

The syntax tree (`Ast`) has one datatype constructor per node class the
visitor handles. A reference that may be null is an `Option`. A list that
may be null or empty is a sequence. The visitor's double dispatch
(`ast.Visit(this)`) is the method `Visit`, which hands each node kind to its
handler.

The model follows the code where it is quirky:
- `Iin` and `In` are both spelled `-in`.
- `Dedent` does not stop at zero.
- `Run` clears the builder but not the depth.
- `while` and `if` statements are not followed by a line feed, though
  `do`, `for` and `foreach` loops are.
- A `for` loop with a missing header part throws.
- Attributes of a `param` block are written even when it has no parameters.
- Enum members are visited as properties, so each is written with a leading
  `$` (`$A` where PowerShell expects `A`).
- A command expression writes only its expression; its redirections are
  dropped (`1 > out.txt` prints as `1`).

Three places where the code is wrong are logged under "Findings". Each is
modelled as written, and the rest of the model uses the corrected version.

## Model

| member | source | states |
|---|---|---|
| Text.RepeatLength | Modules/Microsoft.PowerShell.AstTools/src/PrettyPrinter.cs:1347-1355 | `count` repetitions of a text have `count` times its length (none for a non-positive count) |
| Text.RepeatChars | Modules/Microsoft.PowerShell.AstTools/src/PrettyPrinter.cs:1337-1345 | a repetition of a one-character text holds only that character |
| Text.NewlineShape | Modules/Microsoft.PowerShell.AstTools/src/PrettyPrinter.cs:1337-1345 | `Newline()` output is one line feed followed by exactly four spaces per depth level, nothing else |
| Text.NewlinesShape | Modules/Microsoft.PowerShell.AstTools/src/PrettyPrinter.cs:1347-1355 | `Newline(count)` output is `count - 1` bare line feeds followed by one `Newline()` |
| Text.InterleaveCons | Modules/Microsoft.PowerShell.AstTools/src/PrettyPrinter.cs:1406-1420 | read from the front, an interspersed list is the first item, then (only if more follow) one separator and the rest |
| Text.InterleaveLength | Modules/Microsoft.PowerShell.AstTools/src/PrettyPrinter.cs:1406-1420 | `n >= 1` interspersed items hold the items' characters plus exactly `n - 1` separators |
| Text.InterleaveEnds | Modules/Microsoft.PowerShell.AstTools/src/PrettyPrinter.cs:1406-1420 | an interspersed list starts with its first item and ends with its last: no leading or trailing separator |
| Text.InterleaveNoSeparator | Modules/Microsoft.PowerShell.AstTools/src/PrettyPrinter.cs:1406-1420 | interspersing with an empty separator is plain concatenation |
| Text.SurroundNothing | Modules/Microsoft.PowerShell.AstTools/src/PrettyPrinter.cs:1288-1291 | a `foreach` that writes nothing around each item writes the plain concatenation |
| Tokens.GetTokenString | Modules/Microsoft.PowerShell.AstTools/src/PrettyPrinter.cs:1439-1836 | the spelling switch as written, case by case: `None` for the kinds it leaves to `default`, `-bnor` for `Bor`, `-in` for both `Iin` and `In` |
| Tokens.TokenSpelling | Modules/Microsoft.PowerShell.AstTools/src/PrettyPrinter.cs:1439-1836 | the corrected table, used by the rest of the model: `Bor` spelled `-bor`, every other kind as `GetTokenString` spells it |
| Tokens.SpellingReadsBack | Modules/Microsoft.PowerShell.AstTools/src/PrettyPrinter.cs:1439-1836 | every spelled kind except postfix `++`/`--` and `In` reads back as itself through `ReadToken`, a reader written separately from PowerShell's operator, keyword and punctuation spellings |
| Tokens.SpellingReadsAsCanonical | Modules/Microsoft.PowerShell.AstTools/src/PrettyPrinter.cs:1439-1836 | every spelled kind reads back as itself, or as its twin for the three kinds whose spelling another kind shares |
| Tokens.SharedSpellings | Modules/Microsoft.PowerShell.AstTools/src/PrettyPrinter.cs:1439-1836 | two different kinds share a spelling only for `++` (prefix and postfix), `--` (prefix and postfix) and `-in` (`Iin` and `In`) |
| Tokens.BorSpellingDoesNotReadBack | Modules/Microsoft.PowerShell.AstTools/src/PrettyPrinter.cs:1476-1477 | as written, `Bor` is spelled `-bnor`, which the reader does not recognise; the corrected `-bor` reads back as `Bor` |
| Ast.IsBlockStatement | Modules/Microsoft.PowerShell.AstTools/src/PrettyPrinter.cs:1422-1437 | a node is block-shaped, so a blank line follows it among statements, unless it is a pipeline, an assignment, an error statement, or a return, throw, exit, break or continue |
| Streams.StreamIndicator | Modules/Microsoft.PowerShell.AstTools/src/PrettyPrinter.cs:330-358 | the digit `GetStreamIndicator` writes for each redirection stream, `*` for all streams |
| Streams.IndicatorRoundTrip | Modules/Microsoft.PowerShell.AstTools/src/PrettyPrinter.cs:330-358 | each stream's indicator reads back as that stream, and each readable indicator is its stream's |
| Streams.IndicatorInjective | Modules/Microsoft.PowerShell.AstTools/src/PrettyPrinter.cs:330-358 | `GetStreamIndicator` is injective and lands in `*` and `1`..`6` |
| Escaping.EscapeChar | Modules/Microsoft.PowerShell.AstTools/src/PrettyPrinter.cs:1217-1276 | one character as `WriteDoubleQuotedString` writes it: a backtick escape for the twelve specials, other ASCII unchanged, `` `u{X} `` for each UTF-16 unit of anything else |
| Escaping.Escaped | Modules/Microsoft.PowerShell.AstTools/src/PrettyPrinter.cs:1215-1276 | the body of a double-quoted string: each character's escape, in order |
| Escaping.DoubleQuoted | Modules/Microsoft.PowerShell.AstTools/src/PrettyPrinter.cs:1211-1280 | the escaped body between two `"` |
| Escaping.EscapedSnoc | Modules/Microsoft.PowerShell.AstTools/src/PrettyPrinter.cs:1215-1276 | escaping one more character appends that character's escape |
| Escaping.Utf16 | Modules/Microsoft.PowerShell.AstTools/src/PrettyPrinter.cs:1215 | a character is one or two UTF-16 code units below 0x10000; it is a single code unit below 128 exactly when it is ASCII |
| Escaping.DecodeChar | Modules/Microsoft.PowerShell.AstTools/src/PrettyPrinter.cs:1215 | decoding the code units of one character followed by more units yields that character first |
| Escaping.DecodeUtf16All | Modules/Microsoft.PowerShell.AstTools/src/PrettyPrinter.cs:1215 | the UTF-16 code units of a string decode back to that string |
| Escaping.HexRoundTrip | Modules/Microsoft.PowerShell.AstTools/src/PrettyPrinter.cs:1274 | `ToString("X")` of a code unit is non-empty, all hex digits, and parses back to the unit |
| Escaping.HexWidth | Modules/Microsoft.PowerShell.AstTools/src/PrettyPrinter.cs:1274 | the hex text of a code unit below 16^k has at most k digits |
| Escaping.EscapedCons | Modules/Microsoft.PowerShell.AstTools/src/PrettyPrinter.cs:1215-1276 | escaping a string escapes its first character, then the rest |
| Escaping.BraceEnd | Modules/Microsoft.PowerShell.AstTools/src/PrettyPrinter.cs:1274 | the closing brace search returns a position holding `}` |
| Escaping.BraceEndAfterHex | Modules/Microsoft.PowerShell.AstTools/src/PrettyPrinter.cs:1274 | in `` `u{HEX} `` the first `}` is the one right after the hex digits |
| Escaping.BraceEndSkip | Modules/Microsoft.PowerShell.AstTools/src/PrettyPrinter.cs:1274 | a brace-free prefix is skipped by the brace search |
| Escaping.ReadUnicodeEscape | Modules/Microsoft.PowerShell.AstTools/src/PrettyPrinter.cs:1274 | reading a `` `u{...} `` escape yields its code unit and continues after it |
| Escaping.UnicodeEscapesTwo | Modules/Microsoft.PowerShell.AstTools/src/PrettyPrinter.cs:1274 | the escapes of two code units are the escape of each, in order |
| Escaping.ReadTwoUnicodeEscapes | Modules/Microsoft.PowerShell.AstTools/src/PrettyPrinter.cs:1274 | two consecutive `` `u{...} `` escapes read back as their two code units |
| Escaping.ReadUnicodeEscapes | Modules/Microsoft.PowerShell.AstTools/src/PrettyPrinter.cs:1274 | the escapes of a character's code units read back as those units |
| Escaping.PrependTwice | Modules/Microsoft.PowerShell.AstTools/src/PrettyPrinter.cs:1215-1276 | prefixing an optional text twice is prefixing once with both |
| Escaping.ReadBacktick | Modules/Microsoft.PowerShell.AstTools/src/PrettyPrinter.cs:1219-1265 | a backtick escape reads back as the character it stands for |
| Escaping.ReadBacktickEscape | Modules/Microsoft.PowerShell.AstTools/src/PrettyPrinter.cs:1219-1265 | each of the twelve characters written as a backtick escape reads back as its own code unit |
| Escaping.ReadPlain | Modules/Microsoft.PowerShell.AstTools/src/PrettyPrinter.cs:1267-1272 | an ASCII character other than the specials is copied and read back unchanged |
| Escaping.ReadEscapeChar | Modules/Microsoft.PowerShell.AstTools/src/PrettyPrinter.cs:1215-1276 | the escape of any character reads back as that character's code units |
| Escaping.ReadEscaped | Modules/Microsoft.PowerShell.AstTools/src/PrettyPrinter.cs:1215-1276 | the escaped body of a string reads back as the string's code units |
| Escaping.DoubleQuotedRoundTrip | Modules/Microsoft.PowerShell.AstTools/src/PrettyPrinter.cs:1211-1280 | a value written by `WriteDoubleQuotedString` reads back, as PowerShell reads a double-quoted string, as that value |
| Escaping.DoubleQuotedInjective | Modules/Microsoft.PowerShell.AstTools/src/PrettyPrinter.cs:1211-1280 | two values with the same double-quoted text are equal |
| Escaping.InertConcat | Modules/Microsoft.PowerShell.AstTools/src/PrettyPrinter.cs:1215-1276 | two bodies without raw `"`, raw `$` or non-ASCII characters concatenate into one |
| Escaping.UnicodeEscapesInert | Modules/Microsoft.PowerShell.AstTools/src/PrettyPrinter.cs:1274 | `` `u{...} `` escapes are ASCII and hold no unescaped `"` or `$` |
| Escaping.EscapeCharInert | Modules/Microsoft.PowerShell.AstTools/src/PrettyPrinter.cs:1217-1276 | each character's escape is ASCII and holds no unescaped `"` or `$` |
| Escaping.EscapedInert | Modules/Microsoft.PowerShell.AstTools/src/PrettyPrinter.cs:1211-1280 | the double-quoted body never holds a raw `"`, a raw `$` or a non-ASCII character |
| Escaping.SingleQuotedAsWritten | Modules/Microsoft.PowerShell.AstTools/src/PrettyPrinter.cs:797-799 | the single-quoted literal as written: the value with only the ASCII apostrophe doubled, between apostrophes |
| Escaping.SingleQuoted | Modules/Microsoft.PowerShell.AstTools/src/PrettyPrinter.cs:797-799 | the corrected single-quoted literal: every quote mark PowerShell recognises doubled |
| Escaping.ReadDoubledMarks | Modules/Microsoft.PowerShell.AstTools/src/PrettyPrinter.cs:797-799 | a body with every quote mark doubled, then a closing quote, reads back as the value |
| Escaping.SingleQuotedRoundTrip | Modules/Microsoft.PowerShell.AstTools/src/PrettyPrinter.cs:797-799 | the corrected single-quoted literal reads back as its value |
| Escaping.DoublingsAgree | Modules/Microsoft.PowerShell.AstTools/src/PrettyPrinter.cs:797-799 | doubling the apostrophe only agrees with doubling every quote mark when the apostrophe is the only quote mark present |
| Escaping.DoublingAgreesOnApostrophes | Modules/Microsoft.PowerShell.AstTools/src/PrettyPrinter.cs:797-799 | the as-written and the corrected single-quoted literals agree on values whose only quote mark is the apostrophe |
| Escaping.SingleQuotedAsWrittenBreaks | Modules/Microsoft.PowerShell.AstTools/src/PrettyPrinter.cs:797-799 | as written, `it’s` prints as a literal PowerShell closes early and cannot read back; the corrected literal reads back |
| Escaping.HereString | Modules/Microsoft.PowerShell.AstTools/src/PrettyPrinter.cs:805-811 | the value verbatim between `@q` and a line feed, and a line feed and `q@` |
| Escaping.FindFooter | Modules/Microsoft.PowerShell.AstTools/src/PrettyPrinter.cs:805-811 | the footer search returns the first position, at or after its start, where a line feed, a quote of the family and `@` follow each other; none when there is none |
| Escaping.NoEarlyFooter | Modules/Microsoft.PowerShell.AstTools/src/PrettyPrinter.cs:805-811 | a value has no line beginning with a quote mark of the family and `@` exactly when its here-string has no footer before the one the printer appends |
| Escaping.FooterOnlyAtEnd | Modules/Microsoft.PowerShell.AstTools/src/PrettyPrinter.cs:805-811 | when no line of the value begins with a quote of the family and `@`, the appended footer is the first one |
| Escaping.FooterLineEndsEarly | Modules/Microsoft.PowerShell.AstTools/src/PrettyPrinter.cs:805-811 | a line of the value beginning with a quote of the family and `@` is a footer before the appended one |
| Escaping.HereStringRoundTrip | Modules/Microsoft.PowerShell.AstTools/src/PrettyPrinter.cs:805-811 | a here-string reads back as its value if and only if no line of the value begins with a quote mark of the family and `@` and, in the expandable form, the value holds no `$` or backtick |
| Escaping.TypographicFooterClosesEarly | Modules/Microsoft.PowerShell.AstTools/src/PrettyPrinter.cs:805-811 | a value with a line beginning `’@` cannot be written as a single-quoted here-string: the reader closes it early |
| Escaping.StringConstantText | Modules/Microsoft.PowerShell.AstTools/src/PrettyPrinter.cs:789-818 | the text of a string constant of each kind: bare, single-quoted (corrected), double-quoted, or a here-string |
| Escaping.StringConstantRoundTrip | Modules/Microsoft.PowerShell.AstTools/src/PrettyPrinter.cs:789-818 | every kind of string constant the printer writes reads back as its value, here-strings within the limits of `HereStringRoundTrip` |
| Rendering.Render | Modules/Microsoft.PowerShell.AstTools/src/PrettyPrinter.cs:74-1127 | the text of one node at a depth: the text its kind's visit method writes; `None` for the kinds the visitor does not support (they throw) |
| Rendering.ScriptText | Modules/Microsoft.PowerShell.AstTools/src/PrettyPrinter.cs:66-72 | what `Run` returns for a whole script: the root node's text |
| Rendering.Joined | Modules/Microsoft.PowerShell.AstTools/src/PrettyPrinter.cs:1374-1388 | what `Intersperse` writes: the nodes' texts in order with the separator between neighbours |
| Rendering.Each | Modules/Microsoft.PowerShell.AstTools/src/PrettyPrinter.cs:1288-1291 | what a `foreach` that writes a prefix, the node and a suffix writes |
| Rendering.StatementSeparator | Modules/Microsoft.PowerShell.AstTools/src/PrettyPrinter.cs:1301-1313 | what follows a statement before the next one: a blank line after a block-shaped statement, otherwise one line break |
| Rendering.StatementsText | Modules/Microsoft.PowerShell.AstTools/src/PrettyPrinter.cs:1294-1314 | the statements of a block, each after the first preceded by the separator its predecessor calls for |
| Rendering.StatementBlockText | Modules/Microsoft.PowerShell.AstTools/src/PrettyPrinter.cs:1282-1315 | the traps, a line break when there are both traps and statements, then the statements |
| Rendering.BlockText | Modules/Microsoft.PowerShell.AstTools/src/PrettyPrinter.cs:781-787 | a block in braces, its statements one level deeper |
| Rendering.NamedBlockText | Modules/Microsoft.PowerShell.AstTools/src/PrettyPrinter.cs:557-571 | the block keyword (unless unnamed), then the block in braces |
| Rendering.ParameterText | Modules/Microsoft.PowerShell.AstTools/src/PrettyPrinter.cs:604-624 | a `param` parameter: each attribute on its own line, the name, and ` = ` with the default value |
| Rendering.ParamBlockText | Modules/Microsoft.PowerShell.AstTools/src/PrettyPrinter.cs:573-602 | the attributes one per line, then `param()` or `param(` with the parameters one level deeper and `)` |
| Rendering.InlineParameterText | Modules/Microsoft.PowerShell.AstTools/src/PrettyPrinter.cs:1142-1155 | a method parameter: attributes, name and default value on one line |
| Rendering.InlineParametersAsWritten | Modules/Microsoft.PowerShell.AstTools/src/PrettyPrinter.cs:1129-1140 | `WriteInlineParameters` as written: the parameters with nothing between them |
| Rendering.InlineParametersText | Modules/Microsoft.PowerShell.AstTools/src/PrettyPrinter.cs:1129-1140 | the corrected `WriteInlineParameters`, used by the rest of the model: parameters separated by `, ` |
| Rendering.BlockAfter | Modules/Microsoft.PowerShell.AstTools/src/PrettyPrinter.cs:719-722 | a blank line, then the named block |
| Rendering.EndBlockHasContent | Modules/Microsoft.PowerShell.AstTools/src/PrettyPrinter.cs:747-764 | whether a script's end block has anything to write |
| Rendering.ScriptBlockText | Modules/Microsoft.PowerShell.AstTools/src/PrettyPrinter.cs:695-773 | a nested script block in braces one level deeper; a root script block bare |
| Rendering.ScriptBodyText | Modules/Microsoft.PowerShell.AstTools/src/PrettyPrinter.cs:703-764 | the script head, the explicit blocks and the end block, in that order |
| Rendering.ScriptHeadText | Modules/Microsoft.PowerShell.AstTools/src/PrettyPrinter.cs:703-710 | the `param` block, then the `using` statements one per line |
| Rendering.HasExplicitBlocks | Modules/Microsoft.PowerShell.AstTools/src/PrettyPrinter.cs:712-745 | whether a script has a `dynamicparam`, `begin` or `process` block |
| Rendering.ExplicitBlocksText | Modules/Microsoft.PowerShell.AstTools/src/PrettyPrinter.cs:712-745 | the `dynamicparam`, `begin` and `process` blocks, in that order, each after a blank line |
| Rendering.EndText | Modules/Microsoft.PowerShell.AstTools/src/PrettyPrinter.cs:747-764 | nothing for a missing or empty end block, a named block after explicit blocks, otherwise its bare statements |
| Rendering.TypeNameText | Modules/Microsoft.PowerShell.AstTools/src/PrettyPrinter.cs:1169-1209 | a type name: array types with `[]` or `[` and `rank - 1` commas `]`, generic types with their arguments in brackets, others by name |
| Rendering.EntryText | Modules/Microsoft.PowerShell.AstTools/src/PrettyPrinter.cs:1317-1322 | a hashtable entry: the key, ` = ` and the value |
| Rendering.ElseIfText | Modules/Microsoft.PowerShell.AstTools/src/PrettyPrinter.cs:488-495 | one `elseif` clause: a line break, the keyword, the condition in parentheses and the block |
| Rendering.ElseIfsText | Modules/Microsoft.PowerShell.AstTools/src/PrettyPrinter.cs:488-495 | every clause of an `if` after the first, written as `elseif` |
| Rendering.CaseText | Modules/Microsoft.PowerShell.AstTools/src/PrettyPrinter.cs:848 | a switch case: the condition followed by its block |
| Rendering.IfText | Modules/Microsoft.PowerShell.AstTools/src/PrettyPrinter.cs:481-505 | `if (` condition `)` block, the `elseif` clauses, then the `else` clause |
| Rendering.ElseText | Modules/Microsoft.PowerShell.AstTools/src/PrettyPrinter.cs:497-502 | nothing without an `else` clause, otherwise a line break, `else` and its block |
| Rendering.SwitchText | Modules/Microsoft.PowerShell.AstTools/src/PrettyPrinter.cs:828-866 | the label, `switch (` condition `)`, then in braces the cases separated by blank lines and the default clause |
| Rendering.DefaultClauseText | Modules/Microsoft.PowerShell.AstTools/src/PrettyPrinter.cs:852-861 | `default` and its block, after a blank line when cases precede it |
| Rendering.TryText | Modules/Microsoft.PowerShell.AstTools/src/PrettyPrinter.cs:902-924 | `try`, the block, each catch on its own line, then the `finally` clause |
| Rendering.FinallyText | Modules/Microsoft.PowerShell.AstTools/src/PrettyPrinter.cs:915-920 | nothing without a `finally` block, otherwise a line break, `finally` and its block |
| Rendering.TypeDefinitionText | Modules/Microsoft.PowerShell.AstTools/src/PrettyPrinter.cs:935-1000 | the type head, then empty braces or the members one level deeper |
| Rendering.TypeHead | Modules/Microsoft.PowerShell.AstTools/src/PrettyPrinter.cs:937-964 | the keyword, the name and the base types after ` : ` separated by `, ` |
| Rendering.MembersText | Modules/Microsoft.PowerShell.AstTools/src/PrettyPrinter.cs:978-995 | an enum's members separated by `,` and a line break, a class's by a blank line, an interface's not written |
| Rendering.SpecificationText | Modules/Microsoft.PowerShell.AstTools/src/PrettyPrinter.cs:1082-1106 | a module specification as `@{ ` entries separated by `; ` and ` }` |
| Rendering.UsingStatementText | Modules/Microsoft.PowerShell.AstTools/src/PrettyPrinter.cs:1052-1111 | `using`, the kind, then the module specification or the name and alias |
| Rendering.UsingKindText | Modules/Microsoft.PowerShell.AstTools/src/PrettyPrinter.cs:1056-1080 | the keyword of the using kind followed by one space |
| Rendering.UsingTargetText | Modules/Microsoft.PowerShell.AstTools/src/PrettyPrinter.cs:1082-1106 | the module specification when there is one, otherwise the name and the alias after ` = ` |
| Rendering.BaseCall | Modules/Microsoft.PowerShell.AstTools/src/PrettyPrinter.cs:424-433 | the base-constructor call at the head of a constructor's body; `None` when missing or of another shape (the casts throw) |
| Rendering.FunctionMemberText | Modules/Microsoft.PowerShell.AstTools/src/PrettyPrinter.cs:398-456 | the signature, the base-call text, and the body without the base call |
| Rendering.SignatureText | Modules/Microsoft.PowerShell.AstTools/src/PrettyPrinter.cs:400-420 | the modifiers and return type (not for a constructor), the name and the parameters in parentheses |
| Rendering.ModifiersText | Modules/Microsoft.PowerShell.AstTools/src/PrettyPrinter.cs:400-416 | nothing for a constructor; otherwise the modifiers and the return type |
| Rendering.FunctionBodyText | Modules/Microsoft.PowerShell.AstTools/src/PrettyPrinter.cs:442-455 | an empty brace pair on its own lines when nothing remains, else the statements in a block |
| Rendering.ArrayExpressionText | Modules/Microsoft.PowerShell.AstTools/src/PrettyPrinter.cs:74-83 | `@(`, the statement block, `)` |
| Rendering.SubExpressionText | Modules/Microsoft.PowerShell.AstTools/src/PrettyPrinter.cs:820-826 | `$(`, the statement block, `)` |
| Rendering.AttributedText | Modules/Microsoft.PowerShell.AstTools/src/PrettyPrinter.cs:128-133 | the attribute, then the child |
| Rendering.BaseCtorText | Modules/Microsoft.PowerShell.AstTools/src/PrettyPrinter.cs:135-145 | nothing without arguments, else `base(` and the arguments separated by `, ` and `)` |
| Rendering.BinaryText | Modules/Microsoft.PowerShell.AstTools/src/PrettyPrinter.cs:147-156 | the left operand, the operator's spelling between spaces, the right operand |
| Rendering.ConstantText | Modules/Microsoft.PowerShell.AstTools/src/PrettyPrinter.cs:229-245 | `$null`, `$true`, `$false`, or the constant's own text |
| Rendering.HashtableText | Modules/Microsoft.PowerShell.AstTools/src/PrettyPrinter.cs:458-479 | `@{}` when empty, else the entries one per line one level deeper between `@{` and `}` |
| Rendering.IndexText | Modules/Microsoft.PowerShell.AstTools/src/PrettyPrinter.cs:507-514 | the target, `[`, the index, `]` |
| Rendering.InvokeMemberText | Modules/Microsoft.PowerShell.AstTools/src/PrettyPrinter.cs:516-525 | the expression, `::` or `.`, the member, and the arguments in parentheses |
| Rendering.MemberText | Modules/Microsoft.PowerShell.AstTools/src/PrettyPrinter.cs:527-533 | the expression, `::` or `.`, and the member |
| Rendering.ParenText | Modules/Microsoft.PowerShell.AstTools/src/PrettyPrinter.cs:626-633 | the pipeline in parentheses |
| Rendering.UnaryText | Modules/Microsoft.PowerShell.AstTools/src/PrettyPrinter.cs:1011-1044 | `++`/`--` against the operand before or after it; any other operator spelled and followed by a space |
| Rendering.UsingExpressionText | Modules/Microsoft.PowerShell.AstTools/src/PrettyPrinter.cs:1046-1050 | `$using:` and the variable path; `None` for a target that is not a variable |
| Rendering.AttributeText | Modules/Microsoft.PowerShell.AstTools/src/PrettyPrinter.cs:103-126 | `[`, the type name, the arguments in parentheses, `]` |
| Rendering.AttributeArgumentsText | Modules/Microsoft.PowerShell.AstTools/src/PrettyPrinter.cs:107-122 | the positional arguments, then the named ones, with `, ` between all neighbours |
| Rendering.NamedAttributeArgumentText | Modules/Microsoft.PowerShell.AstTools/src/PrettyPrinter.cs:544-555 | the name, then ` = ` and the value unless it is omitted |
| Rendering.CommandText | Modules/Microsoft.PowerShell.AstTools/src/PrettyPrinter.cs:186-202 | the invocation operator and a space (unless none), the elements and the redirections, separated by spaces |
| Rendering.CommandParameterText | Modules/Microsoft.PowerShell.AstTools/src/PrettyPrinter.cs:210-222 | `-`, the name, and `:` with the argument when there is one |
| Rendering.FileRedirectionText | Modules/Microsoft.PowerShell.AstTools/src/PrettyPrinter.cs:316-328 | the stream indicator unless it is output, `>`, the target |
| Rendering.MergingRedirectionText | Modules/Microsoft.PowerShell.AstTools/src/PrettyPrinter.cs:535-542 | the source indicator, `>&`, the target indicator |
| Rendering.ControlFlowText | Modules/Microsoft.PowerShell.AstTools/src/PrettyPrinter.cs:1158-1167 | the keyword, then a space and the child when there is one |
| Rendering.CatchClauseText | Modules/Microsoft.PowerShell.AstTools/src/PrettyPrinter.cs:169-184 | `catch`, each type after a space, the block |
| Rendering.DoLoopText | Modules/Microsoft.PowerShell.AstTools/src/PrettyPrinter.cs:265-287 | `do`, the block, ` until (` or ` while (`, the condition, `)`, a line feed |
| Rendering.ForEachText | Modules/Microsoft.PowerShell.AstTools/src/PrettyPrinter.cs:360-371 | `foreach (`, the variable, ` in `, the collection, `)`, the block, a line feed |
| Rendering.ForText | Modules/Microsoft.PowerShell.AstTools/src/PrettyPrinter.cs:373-385 | `for (`, the three header parts separated by `; `, `)`, the block, a line feed; `None` when a part is missing |
| Rendering.FunctionDefinitionText | Modules/Microsoft.PowerShell.AstTools/src/PrettyPrinter.cs:387-396 | `function` or `filter`, the name, a line break, the body script block |
| Rendering.TrapText | Modules/Microsoft.PowerShell.AstTools/src/PrettyPrinter.cs:887-900 | `trap`, the type after a space when present, the block |
| Rendering.WhileText | Modules/Microsoft.PowerShell.AstTools/src/PrettyPrinter.cs:1119-1127 | `while (` condition `)` and the block, with no line feed after it |
| Rendering.MemberModifiers | Modules/Microsoft.PowerShell.AstTools/src/PrettyPrinter.cs:402-410 | `static ` and `hidden ` as set |
| Rendering.PropertyMemberText | Modules/Microsoft.PowerShell.AstTools/src/PrettyPrinter.cs:661-687 | the modifiers, the type, `$` and the name, and ` = ` with the initial value |
| Rendering.RenderAll | Modules/Microsoft.PowerShell.AstTools/src/PrettyPrinter.cs:1374-1420 | the rendered list has one text per element |
| Rendering.ParameterTexts | Modules/Microsoft.PowerShell.AstTools/src/PrettyPrinter.cs:573-624 | one text per parameter of a `param` block |
| Rendering.InlineParameterTexts | Modules/Microsoft.PowerShell.AstTools/src/PrettyPrinter.cs:1129-1155 | one text per inline parameter |
| Rendering.TypeNameTexts | Modules/Microsoft.PowerShell.AstTools/src/PrettyPrinter.cs:1194-1197 | one text per generic type argument |
| Rendering.EntryTexts | Modules/Microsoft.PowerShell.AstTools/src/PrettyPrinter.cs:458-479 | one text per hashtable entry |
| Rendering.CaseTexts | Modules/Microsoft.PowerShell.AstTools/src/PrettyPrinter.cs:828-866 | one text per switch case |
| Rendering.BaseText | Modules/Microsoft.PowerShell.AstTools/src/PrettyPrinter.cs:424-433 | a constructor's base-call text exists only when its body has a first statement |
| RenderLists.RenderAllFails | Modules/Microsoft.PowerShell.AstTools/src/PrettyPrinter.cs:1374-1420 | a list fails to render when an element fails, whatever follows |
| RenderLists.StatementsFail | Modules/Microsoft.PowerShell.AstTools/src/PrettyPrinter.cs:1282-1315 | a statement list fails when one of its statements fails |
| RenderLists.ParametersFail | Modules/Microsoft.PowerShell.AstTools/src/PrettyPrinter.cs:573-602 | a `param` block's parameter list fails when one parameter fails |
| RenderLists.InlineParametersFail | Modules/Microsoft.PowerShell.AstTools/src/PrettyPrinter.cs:1129-1140 | an inline parameter list fails when one parameter fails |
| RenderLists.EntriesFail | Modules/Microsoft.PowerShell.AstTools/src/PrettyPrinter.cs:458-479 | a hashtable entry list fails when one entry fails |
| RenderLists.CasesFail | Modules/Microsoft.PowerShell.AstTools/src/PrettyPrinter.cs:828-866 | a switch case list fails when one case fails |
| RenderLists.ElseIfsFail | Modules/Microsoft.PowerShell.AstTools/src/PrettyPrinter.cs:481-505 | the `elseif` clauses fail when one clause fails |
| RenderLists.RenderAllGrows | Modules/Microsoft.PowerShell.AstTools/src/PrettyPrinter.cs:1374-1420 | rendering one more element extends the rendered list by that element's text |
| RenderLists.ParametersGrow | Modules/Microsoft.PowerShell.AstTools/src/PrettyPrinter.cs:573-602 | one more parameter extends the parameter texts by its text |
| RenderLists.InlineParametersGrow | Modules/Microsoft.PowerShell.AstTools/src/PrettyPrinter.cs:1129-1140 | one more inline parameter extends the texts by its text |
| RenderLists.EntriesGrow | Modules/Microsoft.PowerShell.AstTools/src/PrettyPrinter.cs:458-479 | one more hashtable entry extends the entry texts by its text |
| RenderLists.CasesGrow | Modules/Microsoft.PowerShell.AstTools/src/PrettyPrinter.cs:828-866 | one more switch case extends the case texts by its text |
| RenderLists.StatementsGrow | Modules/Microsoft.PowerShell.AstTools/src/PrettyPrinter.cs:1282-1315 | one more statement extends the text by its predecessor's separator and the statement |
| RenderLists.ElseIfsGrow | Modules/Microsoft.PowerShell.AstTools/src/PrettyPrinter.cs:481-505 | one more clause extends the `elseif` text by that clause |
| Properties.RenderAllSucceeds | Modules/Microsoft.PowerShell.AstTools/src/PrettyPrinter.cs:1374-1420 | a list renders exactly when every element renders, and then element by element |
| Properties.JoinedFails | Modules/Microsoft.PowerShell.AstTools/src/PrettyPrinter.cs:1374-1388 | `Intersperse` throws exactly when visiting some element throws |
| Properties.JoinedCons | Modules/Microsoft.PowerShell.AstTools/src/PrettyPrinter.cs:1374-1388 | `Intersperse` writes the first element, then one separator and the rest only when more follow |
| Properties.RenderAllCons | Modules/Microsoft.PowerShell.AstTools/src/PrettyPrinter.cs:1374-1388 | visiting a list read from the front: the first element's text, then the texts of the rest, in order |
| Properties.JoinedLayout | Modules/Microsoft.PowerShell.AstTools/src/PrettyPrinter.cs:1374-1420 | an empty list writes nothing; `k >= 1` elements start with the first, end with the last, and add exactly `k - 1` separators |
| Properties.SeparatorAfter | Modules/Microsoft.PowerShell.AstTools/src/PrettyPrinter.cs:1422-1437 | one line break follows a pipeline, return, throw, exit, break or continue; a blank line and a line break follow any other statement (both directions) |
| Properties.StatementsCons | Modules/Microsoft.PowerShell.AstTools/src/PrettyPrinter.cs:1301-1313 | read from the front, a statement list is its first statement, then its separator and the rest |
| Properties.StatementsUnfold | Modules/Microsoft.PowerShell.AstTools/src/PrettyPrinter.cs:1301-1313 | a list of two or more statements is written exactly when the list without its last statement and that statement are, as the former, the separator the second-to-last statement calls for, then the last |
| Properties.TrapsThenStatements | Modules/Microsoft.PowerShell.AstTools/src/PrettyPrinter.cs:1284-1299 | traps come first, then a line break only when both traps and statements exist, then the statements |
| Properties.SkipFirstStatement | Modules/Microsoft.PowerShell.AstTools/src/PrettyPrinter.cs:435-440 | writing a block from its second statement on writes the block with its first statement removed |
| Properties.ConstructorLayout | Modules/Microsoft.PowerShell.AstTools/src/PrettyPrinter.cs:424-455 | a constructor writes its signature, ` : ` and the base call only when the call has arguments, then a body of the remaining statements in order |
| Properties.EmptyConstructor | Modules/Microsoft.PowerShell.AstTools/src/PrettyPrinter.cs:442-449 | a constructor whose body is only the base call and has no traps writes a line break, `{`, a line break, `}` |
| Properties.ConstructorWithoutBaseCall | Modules/Microsoft.PowerShell.AstTools/src/PrettyPrinter.cs:426 | a constructor whose body does not start with a base call throws |
| Properties.FileRedirectionLayout | Modules/Microsoft.PowerShell.AstTools/src/PrettyPrinter.cs:316-328 | a file redirection omits the indicator exactly for the output stream; otherwise its indicator reads back as its stream; then `>` and the target |
| Properties.MergingRedirectionReadsBack | Modules/Microsoft.PowerShell.AstTools/src/PrettyPrinter.cs:535-542 | a merging redirection is four characters that read back as its two streams around `>&` |
| Properties.ConstantsReadBack | Modules/Microsoft.PowerShell.AstTools/src/PrettyPrinter.cs:229-245 | `$null`, `$true` and `$false` read back as the constants they print |
| Properties.ArrayTypeNameLayout | Modules/Microsoft.PowerShell.AstTools/src/PrettyPrinter.cs:1173-1189 | an array type of rank `r` is its element type, `[`, exactly `r - 1` commas, `]` |
| Properties.InlineParametersRunTogether | Modules/Microsoft.PowerShell.AstTools/src/PrettyPrinter.cs:1129-1140 | as written, parameters `$a` and `$b` print as `$a$b`; corrected, as `$a, $b` |
| Properties.InlineParametersAsWrittenConcatenates | Modules/Microsoft.PowerShell.AstTools/src/PrettyPrinter.cs:1129-1140 | as written, two rendered parameters are written with nothing between them |
| Printer.PrettyPrintingVisitor.constructor | Modules/Microsoft.PowerShell.AstTools/src/PrettyPrinter.cs:57-64 | a fresh visitor has an empty buffer at depth 0 |
| Printer.PrettyPrintingVisitor.Newline | Modules/Microsoft.PowerShell.AstTools/src/PrettyPrinter.cs:1337-1345 | appends a line feed and four spaces per depth level; depth unchanged |
| Printer.PrettyPrintingVisitor.Newlines | Modules/Microsoft.PowerShell.AstTools/src/PrettyPrinter.cs:1347-1355 | appends `count - 1` line feeds, then `Newline()`; depth unchanged |
| Printer.PrettyPrintingVisitor.EndStatement | Modules/Microsoft.PowerShell.AstTools/src/PrettyPrinter.cs:1357-1360 | appends one line feed; depth unchanged |
| Printer.PrettyPrintingVisitor.Indent | Modules/Microsoft.PowerShell.AstTools/src/PrettyPrinter.cs:1362-1366 | raises the depth by one, then writes a line break at the new depth |
| Printer.PrettyPrintingVisitor.Dedent | Modules/Microsoft.PowerShell.AstTools/src/PrettyPrinter.cs:1368-1372 | lowers the depth by one with no guard against going negative, then writes a line break at the new depth |
| Printer.PrettyPrintingVisitor.BeginBlock | Modules/Microsoft.PowerShell.AstTools/src/PrettyPrinter.cs:1324-1329 | appends a line break, `{`, and a line break one level deeper; depth raised by one |
| Printer.PrettyPrintingVisitor.EndBlock | Modules/Microsoft.PowerShell.AstTools/src/PrettyPrinter.cs:1331-1335 | lowers the depth by one, appends a line break at it and `}` |
| Printer.PrettyPrintingVisitor.WriteSeparator | Modules/Microsoft.PowerShell.AstTools/src/PrettyPrinter.cs:1390-1404 | appends the separator action's text; depth unchanged |
| Printer.PrettyPrintingVisitor.Intersperse | Modules/Microsoft.PowerShell.AstTools/src/PrettyPrinter.cs:1374-1420 | writes the nodes in order with the separator between neighbours only; fails exactly when a node fails |
| Printer.PrettyPrintingVisitor.WriteEach | Modules/Microsoft.PowerShell.AstTools/src/PrettyPrinter.cs:1288-1291 | a `foreach` over nodes writes each between its prefix and suffix; fails exactly when a node fails |
| Printer.PrettyPrintingVisitor.IntersperseEntries | Modules/Microsoft.PowerShell.AstTools/src/PrettyPrinter.cs:468-475 | writes hashtable entries with the separator between neighbours; fails exactly when an entry fails |
| Printer.PrettyPrintingVisitor.IntersperseCases | Modules/Microsoft.PowerShell.AstTools/src/PrettyPrinter.cs:846-849 | writes switch cases with the separator between neighbours; fails exactly when a case fails |
| Printer.PrettyPrintingVisitor.IntersperseParameters | Modules/Microsoft.PowerShell.AstTools/src/PrettyPrinter.cs:592-598 | writes a `param` block's parameters with `,` and a blank line between neighbours; fails exactly when one fails |
| Printer.PrettyPrintingVisitor.WriteInlineParameters | Modules/Microsoft.PowerShell.AstTools/src/PrettyPrinter.cs:1129-1140 | writes method parameters with `, ` between neighbours (corrected); fails exactly when one fails |
| Printer.PrettyPrintingVisitor.WriteInlineParameter | Modules/Microsoft.PowerShell.AstTools/src/PrettyPrinter.cs:1142-1155 | writes the attributes, the name and ` = ` with the default value on one line |
| Printer.PrettyPrintingVisitor.WriteHashtableEntry | Modules/Microsoft.PowerShell.AstTools/src/PrettyPrinter.cs:1317-1322 | writes the key, ` = ` and the value |
| Printer.PrettyPrintingVisitor.WriteCase | Modules/Microsoft.PowerShell.AstTools/src/PrettyPrinter.cs:848 | writes a switch case's condition and its block |
| Printer.PrettyPrintingVisitor.WriteStatementBlock | Modules/Microsoft.PowerShell.AstTools/src/PrettyPrinter.cs:1282-1315 | writes the traps, a line break only when there are traps and statements, then the statements; fails exactly when one fails |
| Printer.PrettyPrintingVisitor.WriteStatements | Modules/Microsoft.PowerShell.AstTools/src/PrettyPrinter.cs:1294-1314 | writes the statements with one line break between neighbours, after an extra line feed when the previous one is block-shaped |
| Printer.PrettyPrintingVisitor.VisitStatementBlock | Modules/Microsoft.PowerShell.AstTools/src/PrettyPrinter.cs:781-787 | writes the block between `BeginBlock` and `EndBlock`, statements one level deeper |
| Printer.PrettyPrintingVisitor.VisitNamedBlock | Modules/Microsoft.PowerShell.AstTools/src/PrettyPrinter.cs:557-571 | writes the block keyword (unless unnamed), then the block in braces |
| Printer.PrettyPrintingVisitor.VisitParamBlock | Modules/Microsoft.PowerShell.AstTools/src/PrettyPrinter.cs:573-602 | writes attributes one per line, then `param()` or `param(` with the parameters one level deeper and `)` |
| Printer.PrettyPrintingVisitor.WriteParamBlockAttributes | Modules/Microsoft.PowerShell.AstTools/src/PrettyPrinter.cs:575-582 | writes each attribute of the `param` block followed by a line break |
| Printer.PrettyPrintingVisitor.VisitParameter | Modules/Microsoft.PowerShell.AstTools/src/PrettyPrinter.cs:604-624 | writes each attribute on its own line, the name, and ` = ` with the default value |
| Printer.PrettyPrintingVisitor.WriteBlockAfter | Modules/Microsoft.PowerShell.AstTools/src/PrettyPrinter.cs:719-722 | writes a blank line, then the named block |
| Printer.PrettyPrintingVisitor.VisitScriptBlock | Modules/Microsoft.PowerShell.AstTools/src/PrettyPrinter.cs:695-773 | writes a nested script block in braces one level deeper, and a root script block bare; on success appends exactly `Render` of the node at the entry depth and restores the depth; returns false exactly when that text is undefined (the visit throws) |
| Printer.PrettyPrintingVisitor.WriteScriptBody | Modules/Microsoft.PowerShell.AstTools/src/PrettyPrinter.cs:703-764 | writes the script head, the explicit blocks and the end block in that order |
| Printer.PrettyPrintingVisitor.WriteScriptHead | Modules/Microsoft.PowerShell.AstTools/src/PrettyPrinter.cs:703-710 | writes the `param` block, then the `using` statements one per line; reports whether a `param` block was written |
| Printer.PrettyPrintingVisitor.WriteExplicitBlocks | Modules/Microsoft.PowerShell.AstTools/src/PrettyPrinter.cs:712-745 | writes the `dynamicparam`, `begin` and `process` blocks each after a blank line; reports whether any exists |
| Printer.PrettyPrintingVisitor.WriteEnd | Modules/Microsoft.PowerShell.AstTools/src/PrettyPrinter.cs:747-764 | writes nothing for an empty end block, a named end block after explicit blocks, otherwise its bare statements (after a blank line when a `param` block came first) |
| Printer.PrettyPrintingVisitor.WriteTypeName | Modules/Microsoft.PowerShell.AstTools/src/PrettyPrinter.cs:1169-1209 | appends the type name: array types with `[]` or `[` and `rank - 1` commas `]`, generics with arguments separated by `, ` |
| Printer.PrettyPrintingVisitor.WriteTypeNames | Modules/Microsoft.PowerShell.AstTools/src/PrettyPrinter.cs:1194-1197 | appends generic arguments with `, ` between neighbours |
| Printer.PrettyPrintingVisitor.WriteDoubleQuotedString | Modules/Microsoft.PowerShell.AstTools/src/PrettyPrinter.cs:1211-1280 | appends `"`, each character escaped, `"`: the text `DoubleQuotedRoundTrip` reads back |
| Printer.PrettyPrintingVisitor.WriteEscapedChar | Modules/Microsoft.PowerShell.AstTools/src/PrettyPrinter.cs:1217-1276 | appends one character's escape: backtick escapes for the twelve specials, ASCII as is, `` `u{HEX} `` per code unit otherwise |
| Printer.PrettyPrintingVisitor.Visit | Modules/Microsoft.PowerShell.AstTools/src/PrettyPrinter.cs:74-1127 | on success appends exactly `Render` of the node at the entry depth and restores the depth; returns false exactly when that text is undefined (the visit throws) |
| Printer.PrettyPrintingVisitor.VisitExpression | Modules/Microsoft.PowerShell.AstTools/src/PrettyPrinter.cs:74-1117 | on success appends exactly `Render` of the node at the entry depth and restores the depth; returns false exactly when that text is undefined (the visit throws) |
| Printer.PrettyPrintingVisitor.VisitOperatorExpression | Modules/Microsoft.PowerShell.AstTools/src/PrettyPrinter.cs:85-633 | on success appends exactly `Render` of the node at the entry depth and restores the depth; returns false exactly when that text is undefined (the visit throws) |
| Printer.PrettyPrintingVisitor.VisitPrimaryExpression | Modules/Microsoft.PowerShell.AstTools/src/PrettyPrinter.cs:74-1117 | on success appends exactly `Render` of the node at the entry depth and restores the depth; returns false exactly when that text is undefined (the visit throws) |
| Printer.PrettyPrintingVisitor.VisitStatement | Modules/Microsoft.PowerShell.AstTools/src/PrettyPrinter.cs:92-1127 | on success appends exactly `Render` of the node at the entry depth and restores the depth; returns false exactly when that text is undefined (the visit throws) |
| Printer.PrettyPrintingVisitor.VisitLoop | Modules/Microsoft.PowerShell.AstTools/src/PrettyPrinter.cs:265-385 | on success appends exactly `Render` of the node at the entry depth and restores the depth; returns false exactly when that text is undefined (the visit throws) |
| Printer.PrettyPrintingVisitor.VisitJump | Modules/Microsoft.PowerShell.AstTools/src/PrettyPrinter.cs:163-884 | on success appends exactly `Render` of the node at the entry depth and restores the depth; returns false exactly when that text is undefined (the visit throws) |
| Printer.PrettyPrintingVisitor.VisitCompoundStatement | Modules/Microsoft.PowerShell.AstTools/src/PrettyPrinter.cs:169-1000 | on success appends exactly `Render` of the node at the entry depth and restores the depth; returns false exactly when that text is undefined (the visit throws) |
| Printer.PrettyPrintingVisitor.VisitSimpleStatement | Modules/Microsoft.PowerShell.AstTools/src/PrettyPrinter.cs:92-302 | assignment as a binary expression; block, configuration, data, dynamic keyword and error statements fail; on success appends exactly `Render` of the node at the entry depth and restores the depth; returns false exactly when that text is undefined (the visit throws) |
| Printer.PrettyPrintingVisitor.VisitOther | Modules/Microsoft.PowerShell.AstTools/src/PrettyPrinter.cs:103-687 | on success appends exactly `Render` of the node at the entry depth and restores the depth; returns false exactly when that text is undefined (the visit throws) |
| Printer.PrettyPrintingVisitor.VisitArrayExpression | Modules/Microsoft.PowerShell.AstTools/src/PrettyPrinter.cs:74-83 | writes `@(`, the statement block, `)` |
| Printer.PrettyPrintingVisitor.VisitSubExpression | Modules/Microsoft.PowerShell.AstTools/src/PrettyPrinter.cs:820-826 | writes `$(`, the statement block, `)` |
| Printer.PrettyPrintingVisitor.VisitAttributedExpression | Modules/Microsoft.PowerShell.AstTools/src/PrettyPrinter.cs:128-133 | writes the attribute, then the child (also used for conversions) |
| Printer.PrettyPrintingVisitor.VisitBaseCtorInvokeMemberExpression | Modules/Microsoft.PowerShell.AstTools/src/PrettyPrinter.cs:135-145 | writes nothing without arguments, else `base(` and the arguments with `, `, `)` |
| Printer.PrettyPrintingVisitor.VisitBinaryExpression | Modules/Microsoft.PowerShell.AstTools/src/PrettyPrinter.cs:147-156 | writes the left operand, the spaced operator spelling and the right operand; fails for an unspelled operator |
| Printer.PrettyPrintingVisitor.VisitConstantExpression | Modules/Microsoft.PowerShell.AstTools/src/PrettyPrinter.cs:229-245 | writes `$null`, `$true`, `$false`, or the constant's own text |
| Printer.PrettyPrintingVisitor.VisitHashtable | Modules/Microsoft.PowerShell.AstTools/src/PrettyPrinter.cs:458-479 | writes `@{}` when empty, else entries one per line one level deeper between `@{` and `}` |
| Printer.PrettyPrintingVisitor.VisitIndexExpression | Modules/Microsoft.PowerShell.AstTools/src/PrettyPrinter.cs:507-514 | writes the target, `[`, the index, `]` |
| Printer.PrettyPrintingVisitor.VisitInvokeMemberExpression | Modules/Microsoft.PowerShell.AstTools/src/PrettyPrinter.cs:516-525 | writes the expression, `::` or `.`, the member and the arguments in parentheses |
| Printer.PrettyPrintingVisitor.VisitMemberExpression | Modules/Microsoft.PowerShell.AstTools/src/PrettyPrinter.cs:527-533 | writes the expression, `::` or `.`, and the member |
| Printer.PrettyPrintingVisitor.VisitParenExpression | Modules/Microsoft.PowerShell.AstTools/src/PrettyPrinter.cs:626-633 | writes the pipeline in parentheses |
| Printer.PrettyPrintingVisitor.VisitStringConstantExpression | Modules/Microsoft.PowerShell.AstTools/src/PrettyPrinter.cs:789-818 | writes the constant in its kind's quoting (single quotes corrected) |
| Printer.PrettyPrintingVisitor.VisitTypeExpression | Modules/Microsoft.PowerShell.AstTools/src/PrettyPrinter.cs:1002-1009 | writes the type name in brackets |
| Printer.PrettyPrintingVisitor.VisitUnaryExpression | Modules/Microsoft.PowerShell.AstTools/src/PrettyPrinter.cs:1011-1044 | writes `++`/`--` against the operand before or after it, any other operator spelled and followed by a space |
| Printer.PrettyPrintingVisitor.VisitUsingExpression | Modules/Microsoft.PowerShell.AstTools/src/PrettyPrinter.cs:1046-1050 | writes `$using:` and the variable path; fails for a target that is not a variable |
| Printer.PrettyPrintingVisitor.VisitAttribute | Modules/Microsoft.PowerShell.AstTools/src/PrettyPrinter.cs:103-126 | writes `[`, the type name, positional then named arguments with `, ` between, `)]` |
| Printer.PrettyPrintingVisitor.WriteAttributeArguments | Modules/Microsoft.PowerShell.AstTools/src/PrettyPrinter.cs:107-122 | writes the positional arguments, `, ` only when both kinds are present, then the named arguments |
| Printer.PrettyPrintingVisitor.VisitNamedAttributeArgument | Modules/Microsoft.PowerShell.AstTools/src/PrettyPrinter.cs:544-555 | writes the name, then ` = ` and the value unless it is omitted |
| Printer.PrettyPrintingVisitor.VisitCommand | Modules/Microsoft.PowerShell.AstTools/src/PrettyPrinter.cs:186-202 | writes the invocation operator and a space (unless none), the elements with spaces, the redirections |
| Printer.PrettyPrintingVisitor.VisitCommandParameter | Modules/Microsoft.PowerShell.AstTools/src/PrettyPrinter.cs:210-222 | writes `-`, the name, and `:` with the argument when there is one |
| Printer.PrettyPrintingVisitor.VisitFileRedirection | Modules/Microsoft.PowerShell.AstTools/src/PrettyPrinter.cs:316-328 | writes the stream indicator unless it is output, `>`, the target |
| Printer.PrettyPrintingVisitor.WriteControlFlowStatement | Modules/Microsoft.PowerShell.AstTools/src/PrettyPrinter.cs:1158-1167 | writes the keyword, then a space and the child when there is one |
| Printer.PrettyPrintingVisitor.VisitCatchClause | Modules/Microsoft.PowerShell.AstTools/src/PrettyPrinter.cs:169-184 | writes `catch`, each type after a space, the block |
| Printer.PrettyPrintingVisitor.VisitDoLoop | Modules/Microsoft.PowerShell.AstTools/src/PrettyPrinter.cs:265-287 | writes `do`, the block, ` until (` or ` while (`, the condition, `)`, a line feed |
| Printer.PrettyPrintingVisitor.VisitForEachStatement | Modules/Microsoft.PowerShell.AstTools/src/PrettyPrinter.cs:360-371 | writes `foreach (`, the variable, ` in `, the collection, `)`, the block, a line feed |
| Printer.PrettyPrintingVisitor.VisitForStatement | Modules/Microsoft.PowerShell.AstTools/src/PrettyPrinter.cs:373-385 | writes `for (` and the three header parts separated by `; `, `)`, the block, a line feed; fails when a header part is missing |
| Printer.PrettyPrintingVisitor.VisitFunctionDefinition | Modules/Microsoft.PowerShell.AstTools/src/PrettyPrinter.cs:387-396 | writes `function` or `filter`, the name, a line break, the body script block, a line feed |
| Printer.PrettyPrintingVisitor.VisitIfStatement | Modules/Microsoft.PowerShell.AstTools/src/PrettyPrinter.cs:481-505 | writes `if (` condition `)` block, each further clause as `elseif`, then `else` and its block; no trailing line feed |
| Printer.PrettyPrintingVisitor.WriteElseIfs | Modules/Microsoft.PowerShell.AstTools/src/PrettyPrinter.cs:488-495 | writes every clause after the first as `elseif`, in order; fails as soon as one of them fails |
| Printer.PrettyPrintingVisitor.WriteElseClause | Modules/Microsoft.PowerShell.AstTools/src/PrettyPrinter.cs:497-502 | writes nothing without an `else` clause, otherwise a line break, `else` and its block |
| Printer.PrettyPrintingVisitor.WriteElseIf | Modules/Microsoft.PowerShell.AstTools/src/PrettyPrinter.cs:488-495 | writes a line break, `elseif (`, the condition, `)` and the block |
| Printer.PrettyPrintingVisitor.VisitSwitchStatement | Modules/Microsoft.PowerShell.AstTools/src/PrettyPrinter.cs:828-866 | writes the label, `switch (` condition `)`, then in braces the cases separated by blank lines and the `default` clause |
| Printer.PrettyPrintingVisitor.WriteSwitchClauses | Modules/Microsoft.PowerShell.AstTools/src/PrettyPrinter.cs:841-850 | writes the case clauses separated by blank lines, and reports whether there were any |
| Printer.PrettyPrintingVisitor.WriteDefaultClause | Modules/Microsoft.PowerShell.AstTools/src/PrettyPrinter.cs:852-861 | writes `default` and its block, after a blank line when cases precede it |
| Printer.PrettyPrintingVisitor.VisitTrap | Modules/Microsoft.PowerShell.AstTools/src/PrettyPrinter.cs:887-900 | writes `trap`, the type after a space when present, the block |
| Printer.PrettyPrintingVisitor.VisitTryStatement | Modules/Microsoft.PowerShell.AstTools/src/PrettyPrinter.cs:902-924 | writes `try`, the block, each catch on its own line, then `finally` and its block |
| Printer.PrettyPrintingVisitor.WriteCatchClauses | Modules/Microsoft.PowerShell.AstTools/src/PrettyPrinter.cs:906-913 | writes each catch clause after a line break, nothing when there are none |
| Printer.PrettyPrintingVisitor.WriteFinally | Modules/Microsoft.PowerShell.AstTools/src/PrettyPrinter.cs:915-920 | writes nothing without a `finally` block, otherwise a line break, `finally` and its block |
| Printer.PrettyPrintingVisitor.VisitTypeDefinition | Modules/Microsoft.PowerShell.AstTools/src/PrettyPrinter.cs:935-1000 | writes the type head, then empty braces or the members one level deeper (enum: `,` and a line break; class: a blank line; interface: nothing) |
| Printer.PrettyPrintingVisitor.WriteTypeHead | Modules/Microsoft.PowerShell.AstTools/src/PrettyPrinter.cs:937-964 | writes the keyword, the name and the base types after ` : ` separated by `, ` |
| Printer.PrettyPrintingVisitor.WriteMembers | Modules/Microsoft.PowerShell.AstTools/src/PrettyPrinter.cs:978-995 | writes the members with the separator their type kind calls for |
| Printer.PrettyPrintingVisitor.VisitUsingStatement | Modules/Microsoft.PowerShell.AstTools/src/PrettyPrinter.cs:1052-1111 | writes `using`, the kind, the module specification or the name and alias, a line feed |
| Printer.PrettyPrintingVisitor.WriteUsingKind | Modules/Microsoft.PowerShell.AstTools/src/PrettyPrinter.cs:1056-1080 | writes the keyword of the using kind followed by one space |
| Printer.PrettyPrintingVisitor.WriteUsingTarget | Modules/Microsoft.PowerShell.AstTools/src/PrettyPrinter.cs:1082-1106 | writes the module specification as `@{ ` entries separated by `; ` ` }`, or else the name and ` = ` alias when present |
| Printer.PrettyPrintingVisitor.VisitWhileStatement | Modules/Microsoft.PowerShell.AstTools/src/PrettyPrinter.cs:1119-1127 | writes `while (` condition `)` and the block, with no trailing line feed |
| Printer.PrettyPrintingVisitor.VisitPropertyMember | Modules/Microsoft.PowerShell.AstTools/src/PrettyPrinter.cs:661-687 | writes the modifiers, the type, `$` and the name, and ` = ` with the initial value |
| Printer.PrettyPrintingVisitor.VisitFunctionMember | Modules/Microsoft.PowerShell.AstTools/src/PrettyPrinter.cs:398-456 | writes the signature, the base-call text, and the body without the base call for a constructor; fails when there is no end block or no base call |
| Printer.PrettyPrintingVisitor.WriteSignature | Modules/Microsoft.PowerShell.AstTools/src/PrettyPrinter.cs:400-420 | writes the modifiers, the name and the parameters in parentheses |
| Printer.PrettyPrintingVisitor.WriteMemberModifiers | Modules/Microsoft.PowerShell.AstTools/src/PrettyPrinter.cs:402-410 | appends `static ` and `hidden ` as set; depth unchanged |
| Printer.PrettyPrintingVisitor.WriteModifiers | Modules/Microsoft.PowerShell.AstTools/src/PrettyPrinter.cs:400-416 | writes nothing for a constructor; otherwise the modifiers and the return type |
| Printer.PrettyPrintingVisitor.WriteBaseCall | Modules/Microsoft.PowerShell.AstTools/src/PrettyPrinter.cs:424-433 | for a constructor, fails unless the first statement is a base call, and writes ` : ` and the call only when it has arguments |
| Printer.PrettyPrintingVisitor.WithoutFirst | Modules/Microsoft.PowerShell.AstTools/src/PrettyPrinter.cs:435-440 | the copy loop returns exactly the statements after the first, in order |
| Printer.PrettyPrintingVisitor.WriteFunctionBody | Modules/Microsoft.PowerShell.AstTools/src/PrettyPrinter.cs:442-455 | writes an empty brace pair on its own lines when nothing remains, else the statements in a block |
| Printer.PrettyPrintingVisitor.WriteBracedStatements | Modules/Microsoft.PowerShell.AstTools/src/PrettyPrinter.cs:451-453 | writes the remaining statements one level deeper between braces and restores the depth |
| Printer.PrettyPrintingVisitor.Run | Modules/Microsoft.PowerShell.AstTools/src/PrettyPrinter.cs:66-72 | clears the buffer and returns exactly `ScriptText` of the root at the current depth (not reset); on success the depth is back where it was |

## Left out

- `PrettyPrinter.PrettyPrintInput`, `PrettyPrinter.PrettyPrintFile` and `ParseException` call the PowerShell parser and read files. The model takes the syntax tree as its input. The text of a parse error is not modelled.
- The `System.Management.Automation.Language` class hierarchy and `AstVisitor2` are not part of this model. They are replaced by the `Ast.Node` datatype and the `Visit` dispatcher.
- `VisitPipelineChain`, `VisitTernaryExpression` and a pipeline's trailing ` &` are compiled only for PowerShell 7. They are left out.
- A constant that is neither null nor a boolean is written with .NET `ToString` formatting, including floating point. The model carries that text in the tree as an opaque string.
- `TokenKind.NewLine` is spelled `Environment.NewLine`, which depends on the platform. The model fixes it to a line feed, and likewise the printer's own `_newline`.
- The `_tokens` field is stored by `Run` and never read. It is left out.
- Re-parsing the printed text into the same tree needs the real parser and is not stated. The round trips are proved only for string constants, stream indicators, token spellings and the `$null`, `$true` and `$false` constants.
- A .NET string can hold a lone surrogate, which a Dafny `char` cannot. The escaping model covers strings of Unicode scalar values, each written as its UTF-16 code units.
- The depth is an unbounded integer. The 32-bit `_indent` would overflow only at a nesting depth no syntax tree reaches.
- Printer.PrettyPrintingVisitor.Run: proves that a successful run restores the depth it started at, so a fresh visitor ends at depth 0. It does not state that the depth never goes negative during a run.
- Printer.PrettyPrintingVisitor.Visit: when a visit throws, the contract says only that it failed. It does not say what the builder holds at that point, nor what the exception message says.
- The `default` branches that throw for an unknown string-constant kind, type-name kind or type-definition kind cannot be reached. The datatypes have only the kinds PowerShell defines.

## Findings

| source | as written | input that shows it | evidently intended | confidence | as-written member | corrected member |
|---|---|---|---|---|---|---|
| Modules/Microsoft.PowerShell.AstTools/src/PrettyPrinter.cs:1476-1477 | `TokenKind.Bor` is spelled `-bnor` | `$a -bor $b` prints as `$a -bnor $b`, which does not read back as binary-or | `-bor` | high, not executed | Tokens.BorSpellingDoesNotReadBack | Tokens.SpellingReadsBack |
| Modules/Microsoft.PowerShell.AstTools/src/PrettyPrinter.cs:1129-1140 | `WriteInlineParameters` writes the parameters with nothing between them | method `f($a, $b)` prints as `f($a$b)` | `, ` between neighbouring parameters | high, not executed | Properties.InlineParametersRunTogether | Printer.PrettyPrintingVisitor.WriteInlineParameters |
| Modules/Microsoft.PowerShell.AstTools/src/PrettyPrinter.cs:797-799 | single-quoted strings double only the ASCII apostrophe | the value `it’s` (U+2019) prints as `'it’s'`, which PowerShell closes after `it` | double every character PowerShell treats as a single quote (U+0027, U+2018 to U+201B) | medium, not executed | Escaping.SingleQuotedAsWrittenBreaks | Escaping.SingleQuotedRoundTrip |
