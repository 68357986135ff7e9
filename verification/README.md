# sysmlc, modelled in Dafny

`sysmlc` is a hand-written compiler front end for SysML v2. This project models its
scanner, its Pratt expression parser, its recursive-descent declaration parser with
panic-mode recovery, its canonical printer, its name resolver and the checkers that
run over the resolved graph, and proves what each of them promises over all inputs.

Code that works by side effects is modelled by classes and methods (`Scanner`, `Parser`,
`Printer`, `Resolver`, `RedefChecker`, `TypeChecker`, `ConnectionChecker`), each proved against a
specification written as functions; theorems are lemmas about those functions. The tables and rules
inside these functions are pinned by laws that do not use them (`*Rule`, `*Exactly`), in modules of
their own: what a rule means is said again in terms of literal keywords, of characters, or of the
elements and their references alone.

* **Text.** `Tokens`, `Lexical`: what the scanner returns, by position in the source;
  `Scanning`: the cursor; `Tiling`: maximal munch and tiling against an independent
  definition of a lexeme; `LexicalRules`: letters, trivia, comments and scanner errors by characters.
* **Expressions.** `Pratt`: the grammar as functions on tokens; `PrattTheory`: its
  results are exactly the fitting trees; `BindingOrder`: which operator binds tighter, and how chains
  of any length are grouped; `Printing`, `Emitter`: the printer; `Rereading`,
  `Settling`, `TextLexing`, `RoundTrip`: what printing and reading do to a tree.
* **Declarations.** `Outline`: the syntax tree; `DeclGrammar`: the grammar of every declaration,
  with one node `Other` for the forms whose nodes are not modelled; `ParserCommon`, `ExprParser`,
  `ClauseParser`, `DeclParser`: the parser, total on every input and agreeing with the grammar both
  ways; `DeclSpelling`, `DeclReading`, `DeclPrinting`, `DeclEmitter`, `DeclLexing`,
  `ProgramRoundTrip`, `Canonical`: the round trip; `ClauseOrder`: the order of clauses; `Beginnings`:
  what can begin a declaration, and where recovery resumes; `KeywordForms`, `PassedOver`: what each keyword
  allows, how paths, values and prefixes may be written, and what leaves no trace; `Layout`: the lines and
  the indentation of printed programs.
* **The resolved graph.** `Elements`: elements as numbers, references as bindings between
  them, so cycles are expressible; `Walks`: paths; `Subtyping`, `Lookup`, `Redefinition`,
  `RedefinitionTheory`, `ChainLimits`, `Connections`; `Inheritance`, `Acceptance`, `FlowRules`: what the
  lookup finds and which programs the two checkers accept, told without their functions.
* **Types.** `Typing`: the rules and the gradual guarantee; `TypeRules`: every rule on subtype paths and
  on the built-in types; `Narrowing`: exactly when types may be
  replaced by subtypes; `Declarations`: both as changes to the declarations of a program.
* **Names.** `Naming`: one name in a given state; `Resolver`: the run, state by state; `Runs`: what a
  run may change; `Handling`: which references it hands to the name resolution, and in which scopes;
  `Settlement`: what a run without errors leaves behind; `NameRules`, `Obligations`, `Success`: what a name
  is bound to, which references a run answers for, and when it succeeds; `FirmPaths`, `Denotation`: what a run makes of a
  reference, told from the state in which it begins; `Reordering`, `OrderFreedom`, `TwoRuns`: two runs
  over one program in two orders; `Timing`: paths whose hops are bound earlier in the same run;
  `OrderMatters`: where the order is seen; `Idle`: programs on which a run has nothing to do.

The source's comments and documentation and its code disagree in four places; the model follows the code:

* `include/codegen_sysml.h:3-6` calls the printed text re-parseable to an equivalent tree. For
  expressions that is so exactly when no unary node is directly a left operand of `**`, a callee
  or a dot target (`Settling.RereadIdentity`, `Canonical.CanonicalIsFixed`); a named transition
  needs a part before its `then` (`DeclReading.TransitionRoundTrip`); an `allocation` with ends prints
  `connect`, which no allocation is read with (`DeclReading.EndsRoundTrip`).
* `src/parser_expr.c:52` calls `**` right-associative; lines 181-182 make it left-associative
  (`PrattTheory.TwoOperators`).
* `src/codegen_sysml.c:72-81` prints a name bare when it is spelled like an identifier, also
  when that is a keyword, which is then scanned as the keyword (`TextLexing.NameRoundTrip`).
* `src/resolver.c:13-14` says sibling references work regardless of source order; that is so for
  references that are firm, and not for all (second point below).

Four properties one would expect do not hold in general; each comes with its failing input and its
condition:

* `specializesType` is transitive exactly when no two definitions are just one link further apart than
  its bound of 32 (`Subtyping.TransitiveExactly`, `Subtyping.NotTransitive`).
* The order in which a container lists its members is not seen by a reference that is firm where the run
  begins: neither its path nor the imports its head is searched through go through a reference that is
  still to be bound (`TwoRuns.OrderIsFree`). Of imports only those on the name's own search count, up to the
  one that hands it over, and none where a scope declares the name: a declared name of one segment that is
  no alias is free of any order (`TwoRuns.DeclaredNamesAreFree`). A path whose hops are all bound when the
  run comes to it, in both orders, is free of them too (`Timing.PathsInTimeAreFree`). The order is seen by a
  dotted path through a feature whose type is bound later (`OrderMatters.PathsDependOnOrder`), and even by
  a single name below an import that goes through an alias (`OrderMatters.NamesDependOnOrder`).
* Expressions stay accepted when the types of names are replaced by subtypes exactly when types below
  related types are related (`Narrowing.NarrowingExactly`). The library types alone are such a set; a
  user type right below `Real` ends it (`Narrowing.NarrowingNeedsBuiltinTypes`).
* A chain of two accepted redefinitions narrows the type from end to end for certain exactly when the
  attribute in the middle is typed and no redefinition is a path of more than two segments
  (`ChainLimits.ChainsNarrowExactly`); the failing programs pass name resolution without an error.

To check the project: `dafny verify dfyconfig.toml`.

## Model

| member | source | states |
|---|---|---|
| `Scanning.Scanner.constructor` | src/scanner.c:23-28 | scanning starts at line 1 with no saved comment |
| `Scanning.Scanner.SkipWhitespace` | src/scanner.c:84-139 | the cursor stops after exactly the trivia; the saved comment is the last block comment in it, or none; the line is one plus the newlines passed (part of `Valid`) |
| `Scanning.Scanner.SkipBlockComment` | src/scanner.c:104-130 | an unterminated comment runs to the end and leaves an empty saved body |
| `Scanning.Scanner.TakeLastBlockComment` | src/scanner.c:30-34 | returns the saved comment and clears it |
| `Scanning.Scanner.Identifier` | src/scanner.c:148-254 | takes the whole word; the token is the keyword spelled by it, if any |
| `Scanning.Scanner.NumberLiteral` | src/scanner.c:267-274 | digits, and a fraction only when a digit follows the point |
| `Scanning.Scanner.StringLiteral` | src/scanner.c:282-290 | up to the closing quote, delimiters kept; an error at the end of input |
| `Scanning.Scanner.QuotedName` | src/scanner.c:297-314 | up to the closing apostrophe, delimiters dropped; an error at the end of input |
| `Scanning.Scanner.CaptureCommentInterior` | src/scanner.c:328-349 | the text before the first closing delimiter, or an error at the end |
| `Scanning.Scanner.ScanDocBody` | src/scanner.c:351-372 | the entry after `doc`: skips blanks and line comments but no block comment, accepts both openings |
| `Scanning.Scanner.ColonToken` | src/scanner.c:416-428 | `:`, `::`, `:>`, `:>>`, and `::>` read as `:>` |
| `Scanning.Scanner.ScanToken` | src/scanner.c:376-441 | trivia, then one token with its end, start, saved comment and line; the end token only at the end |
| `Tiling.TokenIsLongest` | src/scanner.c:376-441 | maximal munch: no longer stretch from here is a lexeme, and what was taken is one unless the token is an error |
| `Tiling.TokenIsWritten` | src/scanner.c:148-441 | the token says what its lexeme spells: keyword, operator, name without quotes, comment without delimiters |
| `Tiling.KeywordRule` | src/scanner.c:148-252 | the keywords, listed again by their length: the scanner takes exactly these words for them |
| `LexicalRules.BareNameRule` | src/scanner.c:53-56 | a bare name consists of the 53 letters and the ten digits, no digit first |
| `LexicalRules.TriviaRule` | src/scanner.c:84-139 | trivia are consecutive blanks, line comments and closed or unclosed block comments that are no documentation, as many as there are |
| `LexicalRules.SavedRule` | src/scanner.c:104-130 | the saved comment is the text inside the last block comment of the trivia |
| `LexicalRules.LeadRule` | src/scanner.c:351-366 | after `doc` the scanner passes blanks and line comments, and nothing else |
| `LexicalRules.DocBodyRule` | src/scanner.c:328-372 | what follows is the text of a comment of either form up to its first closing delimiter, or an error |
| `LexicalRules.BadExactly` | src/scanner.c:376-441 | the scanner reports an error if and only if no lexeme starts there, or a documentation comment that is never closed |
| `Tiling.RunTilesTheSource` | src/scanner.c:84-441 | trivia and lexemes of a whole run, concatenated, give back the source text, and only trivia is left over |
| `Tiling.RunTokens` | src/parser_common.c:43-64 | the run's tokens are exactly those the parser receives, the entry after `doc` included |
| `TextLexing.NameRoundTrip` | src/codegen_sysml.c:56-81 | a printed apostrophe-free name is scanned back to itself if and only if it is non-empty and, when spelled like an identifier, not a keyword |
| `TextLexing.LexWhole` | src/codegen_sysml.c:210-251 | the characters of a printed expression are scanned to exactly its tokens |
| `DeclLexing.DocScans` | src/codegen_sysml.c:524-529 | a printed comment is scanned to its own body if and only if the body does not begin with `/` and does not contain the closing delimiter |
| `PrattTheory.LevelCharacterised` | src/parser_expr.c:226-301 | the parser answers a tree if and only if the tree fits the precedence table, whose tiers `BindingOrder` lists, spells the consumed tokens and could not take the next token |
| `PrattTheory.ReadsBack` | src/parser_expr.c:267-301 | every fitting tree is what is read from its own tokens, whatever harmless token follows |
| `PrattTheory.Unambiguous` | src/parser_expr.c:267-301 | one token sequence starts with at most one fitting tree |
| `PrattTheory.TwoOperators` | src/parser_expr.c:176-188 | of two operators in a row the first is applied first unless the second binds tighter: every level leans left, `**` included; which one binds tighter is `BindingOrder.SecondFirst` |
| `BindingOrder.ChainIsGrouped` | src/parser_expr.c:226-301 | a chain of operands and operators of any length is read as a tree if and only if that tree applies the last of the loosest operators last, and so on in both parts; the tiers are listed as sets of operators |
| `BindingOrder.SecondFirst` | src/parser_expr.c:176-188 | of two operators the second is applied first if and only if it stands in a later tier |
| `BindingOrder.PrefixBeforeOperator` | src/parser_expr.c:163-172 | `-` and `!` capture the operand alone, except before `**`, which they capture whole |
| `BindingOrder.PrefixesAre` | src/parser_expr.c:226-265 | no other operator stands before an operand |
| `BindingOrder.AccessFirst` | src/parser_expr.c:192-216 | calls and member access bind tighter than every operator |
| `PassedOver.LiteralRule` | src/parser_expr.c:75-121 | a number is a real exactly if it holds a point; texts, `true` and `false` keep their words |
| `PassedOver.UnitRule` | src/parser_expr.c:285-293 | a unit in brackets after a literal or name leaves no trace, whatever it contains |
| `ExprParser.ParsePrecedence` | src/parser_expr.c:267-301 | on every input: terminates, uses up a token unless none is left, and agrees both ways with the grammar, whose binding order `BindingOrder.ChainIsGrouped` fixes |
| `ExprParser.PrefixPart` | src/parser_expr.c:75-172 | the prefix rules agree with the grammar's operand |
| `ExprParser.InfixPart` | src/parser_expr.c:176-216 | the infix rules agree with one step of the grammar |
| `ExprParser.Grouping` | src/parser_expr.c:144-160 | one item in parentheses is that item, more are a tuple |
| `ExprParser.CallExpr` | src/parser_expr.c:192-203 | argument lists agree with the grammar |
| `ExprParser.DotAccess` | src/parser_expr.c:209-216 | a member access needs a name |
| `ExprParser.IdentifierExpr` | src/parser_expr.c:123-136 | `::`-separated names form one path |
| `ExprParser.SkipUnits` | src/parser_expr.c:285-293 | unit brackets are skipped with their nesting, and skipping ends at the end of input |
| `ExprParser.Expression` | src/parser_expr.c:303-305 | an expression is read at the lowest level |
| `Emitter.Printer.EmitToken` | src/codegen_sysml.c:72-81 | appends the name, quoted when it is not spelled like an identifier |
| `Emitter.Printer.EmitPath` | src/codegen_sysml.c:126-133 | appends the parts joined by `::` |
| `Emitter.Printer.EmitExpression` | src/codegen_sysml.c:210-251 | appends the canonical text, binary nodes in parentheses and unary ones not |
| `Rereading.SpellReadsBack` | src/codegen_sysml.c:210-251 | the tokens of a printed tree are read as the tree `Reread` computes, in which unary operators have swallowed what follows |
| `Settling.RereadIdentity` | src/codegen_sysml.c:219-229 | the tree survives if and only if no unary node is directly a left operand of `**`, a callee or a dot target |
| `Settling.RereadProgress` | src/parser_expr.c:163-172 | a reading that changes the tree removes at least one pair of a unary node and an operator that would capture it |
| `Settling.RoundsSettle` | src/codegen_sysml.c:210-251 | after as many rounds as there are such pairs the tree no longer changes |
| `Settling.PowerOfNegation` | src/codegen_sysml.c:219-229 | `(-a) ** b` comes back as `-(a ** b)` |
| `RoundTrip.PrintAndParse` | src/codegen_sysml.c:210-251 | printer, scanner and parser together: no error, nothing left over, the reread tree, equal to the printed one if and only if it is stable |
| `RoundTrip.SpellClean` | src/codegen_sysml.c:210-251 | printing an expression never produces a scanner error, nor, for a tree the parser can build, the keyword `comment` |
| `ParserCommon.Parser.constructor` | src/parser_decl.c:1866-1870 | one token of lookahead is read; a clean source starts without panic |
| `ParserCommon.Parser.ErrorAtCurrent` | src/parser_common.c:25-36 | one message per entry into panic |
| `ParserCommon.Parser.NextToken` | src/parser_common.c:54-63 | scanner errors are reported and passed over; panic begins here only if one was |
| `ParserCommon.Parser.Advance` | src/parser_common.c:43-64 | exactly one token is used up unless scanner errors follow it |
| `ParserCommon.Parser.Match` | src/parser_common.c:68-72 | uses up the token if it is the one asked for, else changes nothing |
| `ParserCommon.Parser.Consume` | src/parser_common.c:74-77 | the token is taken, or the parser is in panic at the same place |
| `ParserCommon.Parser.Synchronize` | src/parser_common.c:85-158 | stops at the end, after a `;` or at a restart token, at the first such place; the error stays on record; panic is left unless the skipped text held a scanner error |
| `Beginnings.BeginningsAre` | src/parser_decl.c:1297-1862 | a keyword or operator can begin a declaration if and only if it is on the list given: 26 features, 33 other constructs, six prefixes, four modifiers, six marks |
| `Beginnings.RecoveryRule` | src/parser_common.c:85-158 | recovery resumes at `}` and at exactly what can begin a declaration, except `analysis`, visibilities, directions, metadata and the clauses of nameless attributes |
| `Beginnings.ResumesFirst` | src/parser_common.c:85-158 | it skips to the first place after a `;` or before such a token, and no further |
| `Beginnings.UsageRule` | src/parser_decl.c:396-593 | each of the 26 keywords, a name and a semicolon are a usage of that kind |
| `Beginnings.DefinitionRule` | src/parser_decl.c:278-387 | with `def` between them a definition, for all of them but `end`, and for `attribute`; for no other token |
| `KeywordForms.DirectionRule` | src/parser_decl.c:628-664 | a direction may stand before parts, ports and items, and before no other keyword of a feature |
| `KeywordForms.NamedDirection` | src/parser_decl.c:1775-1830 | a direction before a name alone declares a feature without a keyword |
| `KeywordForms.ItemRule` | src/parser_decl.c:471-498 | the item of an `of` clause is a type of a flow or message, and no other usage has one |
| `KeywordForms.TailRule` | src/parser_decl.c:540-565 | only actions and states have a skipped tail, behind one of three words and up to a brace or semicolon |
| `KeywordForms.ReturnRule` | src/parser_decl.c:1656-1668 | the five keywords that `return` passes over |
| `KeywordForms.EndsRule` | src/parser_decl.c:500-529 | which word introduces the two ends of which feature; any other word is left alone |
| `KeywordForms.AnonymousRule` | src/parser_decl.c:433-467 | what can stand where the name of a usage is missing |
| `KeywordForms.VariantRule` | src/parser_decl.c:1434-1445 | behind `variant` exactly five keywords declare their own kind of usage |
| `KeywordForms.ParameterRule` | src/parser_decl.c:350-378 | which tokens begin a declaration in the body of a constraint, and that nothing else follows its expression |
| `PassedOver.ClosedRule` | src/parser_decl.c:1229-1240 | a skipped block ends right after its matching bracket |
| `PassedOver.UnclosedRule` | src/parser_decl.c:1229-1240 | and with the input where there is none |
| `PassedOver.QualifiedRule` | src/parser_common.c:217-238 | a path of any length may mix dots and `::`, and `~` before it conjugates it |
| `PassedOver.ReferenceRule` | src/parser_decl.c:221-258 | a bracket before a reference leaves no trace, whatever it contains |
| `PassedOver.RefinementRule` | src/parser_decl.c:221-258 | nor does one of five words with a path after it |
| `PassedOver.FlowSourceRule` | src/parser_decl.c:413-432 | before `to` the name of a flow or message is its source, and of no other usage |
| `PassedOver.DefaultRule` | src/parser_decl.c:104-153 | attributes take `default` for `=` |
| `PassedOver.BoundRule` | src/parser_common.c:164-171 | a bound is the number its leading digits write, of any length, saturating at the largest number of 63 bits; a fraction is ignored |
| `PassedOver.ShortNameRule` | src/parser_decl.c:281-285 | a short name in angle brackets is passed over in definitions and usages |
| `PassedOver.ImportAllRule` | src/parser_decl.c:61-90 | `::*` and `::**` mean the same |
| `PassedOver.DefinitionPrefixes` | src/parser_decl.c:633-654 | of directions and modifiers a definition takes only `abstract` |
| `PassedOver.MetadataStatementRule` | src/parser_decl.c:1297-1306 | with a semicolon metadata may also stand alone at the end of a body |
| `PassedOver.MetadataRule` | src/parser_decl.c:1258-1305 | metadata before a declaration leaves no trace |
| `PassedOver.StatementPrefixes` | src/parser_decl.c:1316-1862 | which constructs refuse directions and modifiers |
| `PassedOver.AcceptRule` | src/parser_decl.c:980-1072 | the event a transition accepts is read with or without its type and its port |
| `PassedOver.TriggerRule` | src/parser_decl.c:980-1072 | other triggers are passed over up to the first of four tokens |
| `PassedOver.SendRule` | src/parser_decl.c:1055-1066 | an effect that sends is passed over |
| `PassedOver.TargetRule` | src/parser_decl.c:834-885 | the built-in steps, and forks and joins with and without a name |
| `ClauseParser.ParseQualifiedName` | src/parser_common.c:217-238 | reads a conjugated or plain path wherever the grammar has one |
| `ClauseParser.ParseNameList` | src/parser_common.c:205-210 | a comma list of names, never empty |
| `ClauseParser.ParseMultiplicity` | src/parser_common.c:164-202 | bounds, with `strtol`'s reading of leading digits and its saturation |
| `ClauseParser.ParseRelationships` | src/parser_decl.c:30-58 | each clause at most once, in any order; a clause always uses up a token |
| `ClauseParser.DottedReference` | src/parser_decl.c:221-258 | a path of dots or `::`; a bracket before it, nesting included, and a trailing `:>`, `:>>`, `redefines`, `subsets` or `specializes` with its path are passed over and leave no trace |
| `ClauseOrder.ReadClauses` | src/parser_decl.c:30-58 | written clauses of different sorts are all recorded, and a repeated sort is refused |
| `ClauseOrder.ClauseOrderIsFree` | src/parser_decl.c:30-58 | any rearrangement of the clauses gives the same features, or is refused too |
| `DeclParser.ParseUsage` | src/parser_decl.c:396-593 | agrees with the grammar both ways: where the grammar reads a usage the parser returns it without panic, and what the parser returns without panic or recovery is what the grammar reads; leading metadata and a short name passed over, the item of an `of` clause among the types, the name of a flow taken as its source when a path or `to` follows, ends of every kind, skipped tails of actions and states, the body of a constraint an expression; on any input it terminates |
| `DeclParser.ParseDefinition` | src/parser_decl.c:278-387 | the same for definitions, a short name passed over; a constraint has parameters and at most one expression |
| `DeclParser.ParseSuccession` | src/parser_decl.c:897-936 | the same for the three forms of a succession |
| `DeclParser.ParseThenTarget` | src/parser_decl.c:834-885 | the same for references and inline actions after `then` |
| `DeclParser.ParseTransition` | src/parser_decl.c:980-1072 | the same for transitions: an unlabelled first name read as the source state; `accept at`, `accept when`, unknown triggers and a `send` effect passed over, and so are the type and port of an accepted event |
| `DeclParser.ParsePackage` | src/parser_decl.c:1075-1091 | the same for packages, whose members recover one by one |
| `DeclParser.ParseMembers` | src/parser_decl.c:1075-1091 | the same for member lists |
| `DeclParser.ParseAttributeOrDef` | src/parser_decl.c:104-153 | the same for attributes, also with a body, which is passed over with its nesting |
| `DeclParser.ParseAssertion` | src/parser_decl.c:736-792 | the same for `assert`, `assume` and `require`: a requirement has no body and is not assumed |
| `DeclParser.ParsePerform` | src/parser_decl.c:1556-1636 | the same for `perform`: a name or a path, types, clauses and a body |
| `DeclParser.ParseReturn` | src/parser_decl.c:1637-1686 | the same for `return`, whose specializations come before its redefinitions |
| `DeclParser.ParseUnmodelled` | src/parser_decl.c:1297-1862 | the same for all constructs whose nodes are not modelled, after any prefixes: each is accepted with exactly the prefixes and the form the grammar gives it, and `variant` hands over to the declaration behind it |
| `DeclParser.Recover` | src/parser_common.c:85-158 | recovery happens only in panic, and on clean input always ends it |
| `DeclParser.ParseDeclaration` | src/parser_decl.c:1297-1862 | every call before the end of input uses up at least one token, well-formed or not, even when recovery does not move; it agrees with the grammar both ways, leading metadata passed over |
| `DeclParser.Parse` | src/parser_decl.c:1866-1878 | terminates on every source at the end of input; a run without error returns exactly the program the grammar reads, and a source the grammar reads has no error unless it holds a `comment`; a run without error never recovered |
| `DeclReading.ReadDecimal` | src/codegen_sysml.c:147-159 | a printed bound is read back as the same number |
| `DeclReading.ReadFeatures` | src/codegen_sysml.c:137-159 | printed clauses and multiplicity are read back |
| `DeclReading.ReadImport` | src/codegen_sysml.c:515-522 | a printed import is read back, wildcard included |
| `DeclReading.ReadAlias` | src/codegen_sysml.c:531-539 | a printed alias is read back |
| `DeclReading.ReadDependency` | src/codegen_sysml.c:563-582 | a printed dependency is read back |
| `DeclReading.ReadAttribute` | src/codegen_sysml.c:484-513 | a printed attribute is read back with its value reread |
| `DeclReading.ReadDefinition` | src/codegen_sysml.c:301-331 | a printed definition is read back, enumerations with their values |
| `DeclReading.ReadUsage` | src/codegen_sysml.c:365-482 | a printed usage is read back, also without keyword |
| `DeclReading.EndsRoundTrip` | src/codegen_sysml.c:166-181 | two printed ends are read back if and only if the kind is a connection, interface, flow or message |
| `DeclReading.ReadSuccession` | src/codegen_sysml.c:617-659 | each of the three printed shapes is read back as the same node |
| `DeclReading.TransitionRoundTrip` | src/codegen_sysml.c:661-690 | a printed transition is read back if and only if it is unnamed or has a part before `then`; else its name is read as the source state |
| `DeclReading.ReadPackage` | src/codegen_sysml.c:705-723 | a printed package is read back with all its members |
| `DeclReading.ReadDeclaration` | src/codegen_sysml.c:756-795 | every printable declaration is read back with its expressions reread, whatever follows |
| `DeclEmitter.EmitUsage` | src/codegen_sysml.c:365-482 | appends the canonical text and restores the depth |
| `DeclEmitter.EmitSuccession` | src/codegen_sysml.c:617-659 | appends one of the three shapes |
| `DeclEmitter.EmitDecl` | src/codegen_sysml.c:756-795 | appends the canonical text of any modelled node at the current depth |
| `DeclEmitter.EmitProgram` | src/codegen_sysml.c:725-802 | writes the canonical text of a program |
| `Layout.ProgramLaid` | src/codegen_sysml.c:39-41 | a printed program whose names and literals hold no newline consists of whole lines, each indented by four blanks for every brace open there, and all braces are closed in the end |
| `DeclLexing.LexProgram` | src/codegen_sysml.c:756-802 | the characters of a printed program are scanned to exactly its tokens, indentation and nesting included |
| `ProgramRoundTrip.DeclClean` | src/codegen_sysml.c:756-795 | printing a declaration never produces a scanner error, and printing a printable one no `comment` |
| `ProgramRoundTrip.PrintAndParseProgram` | src/codegen_sysml.c:799-802 | printer, scanner and parser together: any printable program comes back without error, its expressions reread |
| `Canonical.CanonicalIsFixed` | src/codegen_sysml.c:756-795 | a declaration survives if and only if all expressions anywhere in it do |
| `Canonical.PrintableKeeps` | src/codegen_sysml.c:756-795 | what comes back is printable again |
| `Canonical.ProgramSettles` | src/codegen_sysml.c:799-802 | rounds of printing and parsing reach a fixed, canonical program within a number of rounds counted on the first one |
| `Canonical.RoundTripExactly` | src/codegen_sysml.c:799-802 | the program comes back as it was if and only if it is canonical |
| `Subtyping.SpecializesDepth` | src/typechecker.c:83-95 | the depth-first search finds exactly the paths within the remaining depth, on cyclic graphs too |
| `Subtyping.SpecializesType` | src/typechecker.c:97-99 | true if and only if at most 32 resolved links join the two |
| `Subtyping.ExactOnSmallModels` | src/typechecker.c:83-99 | with at most 33 definitions it is exactly the reflexive transitive closure |
| `Subtyping.TransitiveOnSmallModels` | src/typechecker.c:83-99 | and so transitive |
| `Subtyping.TransitiveExactly` | src/typechecker.c:83-99 | on any graph, cyclic or deep: it is transitive if and only if it is the closure, if and only if no two elements are exactly 33 links apart |
| `Subtyping.NotTransitive` | src/typechecker.c:85 | on a chain of 40 links it is not |
| `Subtyping.BoundIsTight` | src/typechecker.c:85 | 33 links are not found |
| `Lookup.DerefAlias` | src/resolver_scope.c:130-141 | follows at most 32 aliases and gives up on longer chains and cycles |
| `Lookup.SearchInheritedMembers` | src/resolver_scope.c:162-173 | the first hit of the parents in order |
| `Lookup.LookupMemberDepth` | src/resolver_scope.c:175-221 | the first hit of the bounded preorder walk: own members, then types, then supertypes; what that finds is `Inheritance.FoundExactly` |
| `Lookup.LookupMember` | src/resolver_scope.c:223-225 | the walk from depth 0 |
| `Inheritance.FoundExactly` | src/resolver_scope.c:175-225 | something is found if and only if a program, package, definition or usage that has a member of the name is at most 31 links above, a link being a bound type or specialization behind at most 32 aliases |
| `Inheritance.FoundIsMember` | src/resolver_scope.c:175-225 | what is found bears the name and is the first to do so among the members of such a container |
| `Inheritance.OwnMemberFound` | src/resolver_scope.c:187-204 | the first own member of the name comes before everything inherited |
| `Lookup.MemberIffReachable` | src/resolver_scope.c:162-225 | something is found if and only if a container with a direct member of the name, as `Inheritance.DirectIs` has it, is at most 31 links away |
| `Lookup.MemberIsFirstInPreorder` | src/resolver_scope.c:175-221 | on an acyclic graph of height at most 31 it is the first hit of the unbounded preorder |
| `Redefinition.FindInSupertypes` | src/redefchecker.c:68-99 | the first hit above the owner, the owner's own members left out |
| `Redefinition.AgreesWithLookup` | src/redefchecker.c:68-99 | the same as the member lookup of the resolver when the owner has no such member, on an acyclic graph below the bound |
| `Redefinition.AgreesExactly` | src/redefchecker.c:68-99 | on any graph: the two agree if and only if the first hit does not lie on the last level, which only this search reaches, or the first nearer hit is the same member |
| `Redefinition.WalkAndMatchQualifier` | src/redefchecker.c:129-159 | finds a qualifying ancestor if and only if one is within the depth |
| `Redefinition.QualifierMatches` | src/redefchecker.c:163-177 | the same from the owner's supertypes |
| `Redefinition.RedefChecker.CheckOneRedef` | src/redefchecker.c:180-271 | counts exactly the errors of one entry and stamps its target when there is one; an entry is free of errors as `Acceptance.JudgeIs` says |
| `Redefinition.RedefChecker.Walk` | src/redefchecker.c:283-314 | every entry of the tree is judged once, in order, with its enclosing owner |
| `Redefinition.RedefChecker.CheckRedefinitions` | src/redefchecker.c:318-327 | accepts if and only if no entry has an error, which is `Acceptance.AllRedefineWell`; all stamps are those of the entries |
| `Acceptance.AcceptedExactly` | src/redefchecker.c:180-327 | a program is accepted if and only if every redefinition of an attribute of a definition or usage anywhere in it, whose path is not empty, redefines an attribute well: found through the owner's types and supertypes in order, qualified as written, narrowing the type unless the path is long, keeping constancy |
| `Acceptance.AcceptedIsStamped` | src/redefchecker.c:180-271 | and then each of them is bound: none is skipped |
| `RedefinitionTheory.AcceptedLink` | src/redefchecker.c:180-271 | in an accepted program a stamped link joins attributes, goes to a member of a container above the owner, keeps constancy and, when short and typed, narrows the type |
| `RedefinitionTheory.LinkClimbs` | src/redefchecker.c:68-99 | on an acyclic graph every link goes to a strictly higher container |
| `RedefinitionTheory.ChainsAreFinite` | src/redefchecker.c:180-271 | so the length of a chain is bounded by the drop in height |
| `RedefinitionTheory.NoRedefinitionCycle` | src/redefchecker.c:180-271 | and nothing redefines itself through a chain |
| `RedefinitionTheory.ChainKeepsConstant` | src/redefchecker.c:256-270 | a constant root makes every attribute of the chain constant |
| `RedefinitionTheory.ChainNarrows` | src/redefchecker.c:237-254 | along a chain of typed short links the first type reaches the last through `:>` |
| `RedefinitionTheory.ChainSpecializes` | src/redefchecker.c:237-254 | and the checker's own bounded test agrees on small models |
| `ChainLimits.LayersBreak` | src/redefchecker.c:237-254 | an untyped link, and a link written as a longer path on either side, breaks this in a program that passes name resolution without an error and that the checker accepts; the longer path begins with a package that is not loaded |
| `ChainLimits.ChainsNarrowExactly` | src/redefchecker.c:237-254 | for chains of two links: some resolved and accepted program breaks it if and only if the middle attribute is untyped or a path has more than two segments |
| `Typing.TypeChecker.IdentifierType` | src/typechecker.c:141-165 | the type of a name is what the first type reference of its declaration is bound to; unknown for anything but attributes and usages |
| `Typing.TypeChecker.Join` | src/typechecker.c:113-119 | the join the arithmetic rules use |
| `Typing.TypeChecker.BinaryType` | src/typechecker.c:167-234 | type and errors of each operator's rule, which `TypeRules` states by operator |
| `Typing.TypeChecker.ExpressionType` | src/typechecker.c:260-269 | type and number of errors of a whole expression, rule by rule as in `TypeRules` |
| `Typing.TypeChecker.CheckAttribute` | src/typechecker.c:327-388 | the errors of one attribute: default value, multiplicity, enumeration |
| `Typing.TypeChecker.CheckConstraintBody` | src/typechecker.c:276-284 | the errors of a constraint body: those of the expression, and one when it is known not to be Boolean |
| `TypeRules.LeafRules` | src/typechecker.c:141-165 | the four literals have their four types, and a name the type its declaration writes first |
| `TypeRules.ArithmeticRule` | src/typechecker.c:113-119 | arithmetic has one error if and only if a known operand is not below Number; the type is the wider one |
| `TypeRules.OrderRule` | src/typechecker.c:190-200 | orderings want numbers and are Boolean |
| `TypeRules.EqualityRule` | src/typechecker.c:201-212 | equality has an error if and only if both types are known and neither is below the other |
| `TypeRules.ConnectiveRule` | src/typechecker.c:213-230 | `and` and `or` report each operand known not to be Boolean, and are Boolean |
| `TypeRules.PrefixRules` | src/typechecker.c:236-258 | `-` wants a number and keeps its type, `!` wants a Boolean |
| `TypeRules.UntypedRules` | src/typechecker.c:231-269 | the other operators, calls, lists and member access have no type |
| `TypeRules.FeatureRule` | src/typechecker.c:327-388 | the errors of an attribute by its value, declared type, enumeration and modifiers |
| `TypeRules.BodyRule` | src/typechecker.c:276-284 | a constraint body has an error of its own if and only if it is known not to be Boolean |
| `TypeRules.BuiltinTable` | src/builtin.c:67-74 | the whole table of types and errors for operands of built-in or unknown type, operator by operator |
| `TypeRules.BuiltinPrefixTable` | src/typechecker.c:236-258 | and for the two operators before an operand |
| `Typing.ErasureKeepsTyping` | src/typechecker.c:141-269 | gradual guarantee: erasing leaf types keeps an expression error-free, its type the same or unknown |
| `Typing.ErasureKeepsFeature` | src/typechecker.c:327-388 | and keeps an attribute error-free |
| `Typing.ErasureKeepsBody` | src/typechecker.c:276-284 | and keeps a constraint body error-free |
| `Typing.BuiltinOrder` | src/builtin.c:67-74 | on the library types the subtype test is exactly the order Integer, Real, Number, with Boolean and String apart |
| `Typing.JoinIsLeastUpperBound` | src/typechecker.c:113-119 | on the numeric chain the join is the least upper bound |
| `Typing.JoinExactly` | src/typechecker.c:113-119 | in general it bounds both arguments if and only if they are related, and does not depend on their order if and only if they are equal or related one way |
| `Narrowing.NarrowingIsSafe` | src/typechecker.c:167-258 | within a transitive and coherent set of types, replacing the types of names by subtypes keeps every accepted expression accepted and its type only goes down |
| `Narrowing.NarrowingExactly` | src/typechecker.c:167-258 | within a transitive set of types this holds for all expressions if and only if types below related types are related |
| `Narrowing.NarrowingKeepsFeature` | src/typechecker.c:327-388 | the same for attributes and their default values |
| `Narrowing.NarrowingKeepsBody` | src/typechecker.c:276-284 | and for constraint bodies |
| `Narrowing.BuiltinsAreCoherent` | src/builtin.c:67-74 | the library types are such a set |
| `Narrowing.PlainIsSafe` | src/typechecker.c:167-258 | an expression without equality and arithmetic survives narrowing whatever the types, where the subtype test is transitive |
| `Narrowing.SumMovesAcross` | src/typechecker.c:113-119 | the sum of unrelated types has the first one, and narrowing that one below both turns it into the second |
| `Narrowing.NarrowingNeedsBuiltinTypes` | src/typechecker.c:167-234 | any user type right below Real makes an accepted comparison for equality fail after narrowing |
| `Narrowing.WithUserTypeBreaks` | src/typechecker.c:167-234 | a program with such a type beside the library types, on which it fails |
| `Declarations.ErasureKeepsDeclarations` | src/typechecker.c:141-165 | the gradual guarantee for programs: removing declared types, and with them bindings, makes no attribute and no constraint wrong |
| `Declarations.NarrowingKeepsDeclarations` | src/typechecker.c:141-165 | narrowing declared types within a coherent set makes no constraint wrong, and no attribute that keeps its own type |
| `Naming.ResolveName` | src/resolver.c:76-148 | the outcome for one path: found with parity, excused, or undefined |
| `Naming.FollowPath` | src/resolver.c:111-128 | the walk along the later segments |
| `Naming.AnyUnresolvedWildcard` | src/resolver_scope.c:253-262 | whether a wildcard import in scope is unresolved |
| `Naming.FindImported` | src/resolver_scope.c:231-248 | the first hit among wildcard imports |
| `NameRules.SymbolRule` | src/resolver.c:51-72 | in a scope a name stands for its first declaration among what is there already and the members, imports left out |
| `NameRules.HeadRule` | src/resolver.c:76-103 | the head of a path is its declaration in the innermost scope that has one, else what the innermost scope with a matching wildcard import exposes first |
| `NameRules.BindingRule` | src/resolver.c:76-148 | a reference is bound to an element with a parity if and only if a trail of members leads there from its head: the end seen through aliases, the parity odd in the conjugated hops and the reference's own mark |
| `NameRules.UndefinedRule` | src/resolver.c:76-148 | it is an error if and only if it is not bound, and either its head is known or it is one segment and every wildcard import in scope is bound |
| `Naming.ParityOfTrail` | src/resolver.c:111-128 | the stored parity is the exclusive or over all hops of a path |
| `Naming.PathsCompose` | src/resolver.c:111-128 | following a concatenated path is following its parts one after the other |
| `Naming.ParityIsMeant` | src/resolver.c:111-139 | the parity is the meant one if and only if an even number of conjugated hops hide behind aliases; always so without such aliases |
| `Resolver.Resolver.ResolveQualifiedName` | src/resolver.c:76-148 | the state after it is the step the outcome of the path prescribes; bindings are only added |
| `Resolver.Resolver.ResolveList` | src/resolver.c:158-180 | every reference of a list once, in order, of redefinitions only the longer paths |
| `Resolver.Resolver.DeclareMembers` | src/resolver.c:51-72 | the scope declared, the import targets bound and the duplicates counted, exactly |
| `Resolver.Resolver.ResolveScopeBody` | src/resolver.c:224-229 | names are declared first, then the members are resolved in the new scope |
| `Resolver.Resolver.Walk` | src/resolver.c:231-380 | the state after a subtree, in source order; bindings are only added, and errors only counted up |
| `Resolver.Resolver.ResolveProgram` | src/resolver.c:384-410 | the state after the run; succeeds if and only if no error is counted; bindings are only added |
| `Resolver.WalkFollows` | src/resolver.c:85 | what a run specifies keeps every binding, every shape and the parity of what was bound |
| `Runs.WalkFrame` | src/resolver.c:231-380 | a walk changes nothing outside its subtree, and the walk of an import nothing |
| `Handling.WalkHandles` | src/resolver.c:231-380 | every reference a subtree hands over is resolved at some moment of the walk in its own scopes, with their imports as they are in the end, and not touched before or after |
| `Obligations.HandsExactly` | src/resolver.c:231-380 | a walk hands over exactly the references it is answerable for, listed by kind of element and list, each in the scopes of the packages, definitions and usages around it |
| `Obligations.DeclaredCounts` | src/resolver.c:51-72 | declaring the members of a scope counts an error if and only if a name is repeated |
| `Success.WalkCountsExactly` | src/resolver.c:231-380 | a walk counts an error if and only if some scope in it declares a name twice or some reference is missing in the end |
| `Success.SucceedsExactly` | src/resolver.c:384-410 | a run succeeds if and only if no scope declares a name twice and in the end every reference is bound or may stay unbound |
| `Settlement.WalkSettles` | src/resolver.c:231-380 | a walk that counts no error leaves every reference it hands over bound or excused, and a one-segment name bound to what its final scopes say |
| `Settlement.ProgramSettles` | src/resolver.c:384-410 | after a run without errors every reference handed over is bound, or its head is unknown and it is a path or under an unresolved wildcard import |
| `OrderFreedom.InnerMatches` | src/resolver.c:51-72 | the scope of a container whose members are rearranged, wildcard imports in order, declares the same names and imports |
| `Reordering.MemberIgnoresOrder` | src/resolver_scope.c:175-221 | with types, specializations and aliases bound alike the order of members changes no inherited lookup |
| `Reordering.FollowIgnoresOrder` | src/resolver.c:111-128 | nor the walk along a path |
| `OrderFreedom.HeadIgnoresOrder` | src/resolver_scope.c:54-67 | with imports bound alike it changes no lookup of a head |
| `FirmPaths.FirmIsStable` | src/resolver.c:111-139 | a path that goes through no reference still to be bound leads to the same end whatever is bound meanwhile |
| `Denotation.Fate` | src/resolver.c:51-380 | what a run makes of a reference that is firm where it begins is what the reference denotes there: its head by the scopes, else by their imports inside out, each import bound to what it denotes outside of its scope |
| `TwoRuns.OrderIsFree` | src/resolver.c:51-380 | two runs over a subtree whose containers list their members in different orders, imports kept in order: a reference that is firm where they begin ends up bound in one if and only if in the other, to the same element with the same parity; of imports only those its own head is searched through need be firm |
| `TwoRuns.DeclaredNamesAreFree` | src/resolver.c:76-103 | a name of one segment that a scope of its chain declares, and that is no alias, is bound to that declaration in both orders, whatever is imported anywhere |
| `TwoRuns.ProgramOrderIsFree` | src/resolver.c:384-410 | the same as for subtrees for two runs over a whole program |
| `TwoRuns.ProgramNamesAreFree` | src/resolver.c:384-410 | so are declared names of one segment in two runs over a whole program |
| `FirmPaths.PackagesAreFirm` | src/resolver.c:111-139 | a path through packages is firm |
| `Timing.EntryFate` | src/resolver.c:231-380 | a reference that is firm when the run comes to its element ends up as what it denotes at that moment |
| `Timing.PathsInTimeAreFree` | src/resolver.c:231-380 | two runs over a subtree in two orders: a path from a declared head whose hops are bound when each run comes to it is bound in both to the same element with the same parity, the references of the elements it passes being bound from the start or firm |
| `Timing.ProgramPathsAreFree` | src/resolver.c:384-410 | the same for two runs over a whole program |
| `OrderMatters.PathsDependOnOrder` | src/resolver.c:111-128 | exchanging a feature and a use of its member: one order resolves without error, the other counts one |
| `OrderMatters.NamesDependOnOrder` | src/resolver.c:51-72 | a name below an import of an alias: found or reported, depending on where the alias is listed |
| `Idle.ProgramIsDone` | src/resolver.c:384-410 | a run over a program without imports, with distinct names in every container and every reference bound or a path with an unknown head, changes nothing and counts no error |
| `Connections.ConnectionChecker.CheckEnd` | src/connectchecker.c:138-175 | the errors of one end: not port-like, or against its direction under conjugation, as in `FlowRules.EndRule` |
| `Connections.ConnectionChecker.CheckConnections` | src/connectchecker.c:223-232 | accepts if and only if no end in the tree has an error, which is `FlowRules.AllConnect` |
| `FlowRules.EndRule` | src/connectchecker.c:138-175 | no error exactly when the end is unbound, is a feature typed by a port, or a port that gives (as a source), receives (as a target) or merely connects; else one |
| `FlowRules.ConnectedExactly` | src/connectchecker.c:177-232 | a program is accepted if and only if every end of every connecting usage anywhere in it is good; the first end of a flow or message is its source and the second its target |
| `Connections.EndDuality` | src/connectchecker.c:123-175 | a conjugated source end has the verdict of a target end, and conversely |
| `Connections.ConjugationDuality` | src/connectchecker.c:138-221 | exchanging and conjugating the ends of every flow leaves the number of errors unchanged |
| `Connections.DualIsInvolution` | src/connectchecker.c:123-129 | doing so twice gives back the model |

## Left out

- `DeclParser.Parse`: that a source the grammar reads has no error is claimed only without the keyword
  `comment`, whose body the scanner passes over and is not among the tokens.
- `DeclParser.ParseDefinition`: the expression in the body of a constraint has no place in the node.
- `DeclParser.ParseUsage`: nor has the expression of a constraint usage.
- `TwoRuns.OrderIsFree`: one direction: a reference that is not firm may still be bound alike.
- Nodes of `comment`, constraint, calculation, use case, `include`, `variant`, `event`, `satisfy`,
  `perform`, `return`, lifecycle actions and the statements `connect`, `bind`, `allocate`, `assert`:
  their forms are parsed exactly where the source accepts them, with its recovery, but all build one node.
- Unit suffixes, metadata, `filter`, `accept at`, `accept when`, `send` and refinements of ends: skipped
  as the source skips them, without a place in the tree.
- A quoted name `'start'` or `'done'` and the keyword of the same spelling, as references of a
  succession, are one value here; the source tells their tokens apart.
- The printed form of one-ended flows, and of usages named `fork` or `join` without a keyword: not
  printable in the sense of the round trip.
- Source lines of tokens and nodes, message texts, and which token a message cites: the scanner's
  line counter is modelled, the fields filled from it are not.
- `strtod` and real values: literals keep their lexemes. Memory: allocation is taken to succeed.
- A NUL character in the source: a C string ends there.
- Statements other than successions have one flat list of used references in the resolver's model,
  in the order the source visits them. The keyword of a `bind` or `allocate` statement stands for
  the flag the source keeps on a connection usage.
- Redefinition stamps are kept beside the model, not written into its references.
- The checks of asserted references and of succession references against the kind of what they
  name, and the tree walk of the type checker: single lookups and a traversal without state.
- `src/referentialchecker.c`, `src/codegen_json.c`, the dump of `src/ast.c`, `main.c` and the tools.
