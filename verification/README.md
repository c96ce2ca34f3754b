# StockVision: verified model of rules, orders, bars and backtests

StockVision lets a user write trading rules in a small language, evaluates them every minute against
market data, turns the results into orders under portfolio limits, builds price bars from ticks and
simulates rules on past bars. This project models these parts in Dafny and proves what they promise.
`dafny verify dfyconfig.toml` checks all of it.

## The parts

- **The rule language** (`sv_core/parsing`). `Syntax.HasText` is the vocabulary. `Lexer` cuts a text into
  tokens; `LexerLaws` says which token begins where, and `LexerProofs` shows that nothing is lost, that positions
  are exact, that kinds and texts go together as in the vocabulary and that written tokens are read back. `Grammar` and
  `ScriptGrammar` say what token lists mean; `RecursiveDescent` is the parser as a class that moves
  an index, one method per level, proved to compute the grammar. `RoundTrip` shows that the parser produces
  exactly the well-formed trees and undoes a printer with minimal parentheses; `SurfaceForms` says what other
  ways of writing mean and `ErrorLaws` which errors are reported where. `ScriptRoundTrip` carries the round trip to whole scripts of both versions, with their
  definitions, rules, actions and blocks; `ScriptSound` shows that version 2 accepts every version 1 script.
- **Evaluation** (`sv_core/parsing/evaluator.py`). `Semantics` says what expressions and scripts evaluate to,
  with the memory of crossovers, divergences, counters and streaks threaded as a value and exceptions as
  results. `RuleEvaluation` is the pair of evaluators as classes over maps they update, proved to compute
  it. `OperatorLaws` says what the operators mean and `CallLaws` what a single call does. `Memory` says which entries of the memory an evaluation can
  touch and `UpdateLog` in which order it updates them. On these stand `Preservation`, that compiling version 1
  to version 2 keeps the meaning over every run, and `StateFunctions`, that crossovers, counters, streaks and
  divergences equal their definitions over the whole history, in every run of every script; `Counters` says
  when that history is the condition's own. `TypeSoundness` shows that accepted scripts never get stuck on
  numeric data.
  `PreservationLimits` and `TypeSoundnessLimits` give inputs that show why the conditions are needed, and
  `Builtins` shows that the language's own tables meet them.
- **The order pipeline** (`local_server/engine`). `OrderModel` is one execution, and runs of executions, date
  checks, kill-switch and unlock commands, loss checks and restarts, as functions on the state of the signal,
  limit, safeguard and log objects; the broker, the price query and late faults are parameters. `OrderClasses`
  holds the objects themselves. `OrderSafety`, `Ledger` and `RateBound` are properties of every run,
  `Selection` of the greedy choice among candidates, and `TradingCycle` of a whole cycle: what was selected is
  not rejected for limits it was selected within.
- **Bars** (`bar_builder.py`, `market_repository.py`, `minute_bar.py`). `Bars` compares the streaming builder
  with the table updated per tick; `Aggregation` proves the tower of resolutions and compares the two
  aggregation algorithms.
- **Backtests** (`cloud_server/services/backtest_runner.py`). `Backtest` is the bar loop over exact numbers
  with an arbitrary strategy; `BacktestProofs` proves that it cannot look ahead, that its cash is accounted
  for, that it stays solvent and that trades follow one another; `Drawdown` when the single pass is the
  maximum over all pairs.

`Common` and `Syntax` hold shared definitions. Built-in tables, the conversion of numerals and the Unicode
character classes are parameters, so that the results hold for all of them that satisfy the stated facts.

## Where the code differs from what it documents or from what one would expect

- The grammar document (`spec/rule-model/grammar.md:184`) promises type checks for function arguments; `sv_core/parsing/parser.py:419-425` makes
  none. `TypeSoundness` therefore assumes number arguments for crossovers and divergences, and
  `TypeSoundnessLimits.TextCrossRaises` shows what happens otherwise.
- Version 1 and the converted script can differ if the sell block stands first and both blocks use one crossover
  pattern (`PreservationLimits.GoldenCrossDiffers`); they do not if the blocks share no entry of the memory
  (`Preservation.MeaningPreserved`).
- An exception after the broker took an order, or a restart, makes the rule free to order again the same day
  (`OrderSafety.FaultAllowsSecondOrder`, `OrderSafety.RestartAllowsSecondOrder`); nothing else does
  (`OrderSafety.AtMostOncePerDay`).
- An accepted sell uses budget that the selection did not reserve (`TradingCycle.BudgetRejection`).
- An order placed between midnight and the date check is dropped from the day's total (`Ledger.LedgerExact`).
- A tick that returns to an earlier minute makes the bar builder overwrite that minute's saved bar
  (`Bars.ReturnLosesVolume`).
- Two counters over one condition share their memory whatever their periods, and so do counters over conditions
  that differ in parentheses only (`Counters.SharedCounters`, `Counters.ParenthesesCollide`).
- A buy may overdraw the cash once the invested share times one plus the commission rate exceeds one
  (`BacktestProofs.Overdraws`).

## Model

| member | source | states |
|---|---|---|
| Lexer.Skip | sv_core/parsing/lexer.py:82-84 | an inner loop runs over exactly the longest stretch of its character class and advances the column by as much |
| Lexer.ScanLong | sv_core/parsing/lexer.py:58-116 | a string, number or word is the token that begins there, with the same failures; which one that is, `LexerLaws.WordAt`, `NumberAt` and `StringAt` state |
| Lexer.Step | sv_core/parsing/lexer.py:23-136 | one pass of the loop appends what stands at the position and moves line and column past it |
| Lexer.Tokenize | sv_core/parsing/lexer.py:12-139 | the loop yields the tokens of the whole text, or the first error with its position, for every text; their kinds are those of the vocabulary by `LexerProofs.ScannedKinds` |
| LexerProofs.AfterTracked | sv_core/parsing/lexer.py:23-134 | line and column stay those of the offset, except that the column lags behind between a comment and its line end |
| LexerProofs.Lossless | sv_core/parsing/lexer.py:12-139 | every accepted text is covered in order and without overlap by its tokens: each stands at its recorded position, and gaps hold only blanks and comments |
| LexerProofs.OneEof | sv_core/parsing/lexer.py:138-139 | an accepted text gives a token list that ends with its only EOF |
| LexerProofs.RoundTrip | sv_core/parsing/lexer.py:12-177 | tokenizing a list of spellable tokens written with single blanks gives these tokens, at the positions where they were written |
| LexerProofs.ScannedSpellable | sv_core/parsing/lexer.py:58-134 | every token of an accepted text has a text that its kind allows |
| LexerProofs.Normalizes | sv_core/parsing/lexer.py:12-139 | rewriting an accepted text as its tokens with single blanks keeps the tokens |
| LexerProofs.ScannedKinds | sv_core/parsing/tokens.py:59-74 | a scanned token that is no string is of a fixed kind exactly if its text is one of that kind in the vocabulary, a name exactly if its text is a word of no kind |
| LexerLaws.WordAt | sv_core/parsing/lexer.py:95-116 | a word is the longest stretch of letters, digits and underscores, a keyword if the vocabulary has it, otherwise a name |
| LexerLaws.NumberAt | sv_core/parsing/lexer.py:74-93 | a number is the longest run of digits, with the longest fraction; a point without a digit behind it is the error, exactly |
| LexerLaws.StringAt | sv_core/parsing/lexer.py:56-72 | a string ends at the next quote of its line; without one it is the error, exactly |
| LexerLaws.SignIs | sv_core/parsing/lexer.py:118-136 | otherwise the longer of the signs that begin there is read, and a character that begins none is the error |
| RecursiveDescent.Parser.ParseExpression | sv_core/parsing/parser.py:246-248 | the expression parser computes the grammar from any position, terminates and stays inside the token list |
| RecursiveDescent.Parser.ParseOr | sv_core/parsing/parser.py:250-259 | OR level: left-associative loop with boolean operands, as in the grammar |
| RecursiveDescent.Parser.ParseAnd | sv_core/parsing/parser.py:261-270 | AND level |
| RecursiveDescent.Parser.ParseNot | sv_core/parsing/parser.py:272-279 | NOT level |
| RecursiveDescent.Parser.ParseComparison | sv_core/parsing/parser.py:281-319 | comparison level: at most one comparison, numeric operands, no comparison of a comparison |
| RecursiveDescent.Parser.ParseBetween | sv_core/parsing/parser.py:281-319 | a range test is read as two comparisons joined by AND |
| RecursiveDescent.Parser.ParseAdditive | sv_core/parsing/parser.py:321-330 | sum level |
| RecursiveDescent.Parser.ParseMultiplicative | sv_core/parsing/parser.py:332-341 | product level |
| RecursiveDescent.Parser.ParseUnary | sv_core/parsing/parser.py:343-350 | negation level |
| RecursiveDescent.Parser.ParsePostfix | sv_core/parsing/parser.py:352-369 | an optional index in 0..60 after a primary |
| RecursiveDescent.Parser.ParsePrimaryNode | sv_core/parsing/parser.py:371-403 | literals, parentheses and identifiers |
| RecursiveDescent.Parser.ParseIdentifier | sv_core/parsing/parser.py:405-539 | compound fields, calls and names, resolved in the same order and with the same errors; argument types are not checked |
| RecursiveDescent.Parser.ParseArguments | sv_core/parsing/parser.py:417-426 | an argument list up to the closing parenthesis |
| RecursiveDescent.Parser.ExpectTerminator | sv_core/parsing/parser.py:232-242 | a statement ends at a line break or at the end |
| RecursiveDescent.Parser.ParseCustomFuncDef | sv_core/parsing/parser.py:207-230 | a function definition is parsed with its own name hidden, then becomes visible |
| RecursiveDescent.Parser.ParseV1Item | sv_core/parsing/parser.py:127-174 | one statement of a version 1 script |
| RecursiveDescent.Parser.ParseV1 | sv_core/parsing/parser.py:127-174 | the version 1 parser accepts what the grammar accepts and returns its script |
| RecursiveDescent.Parser.ParseConstOrFuncDef | sv_core/parsing/parser.py:665-725 | a constant or function definition of version 2 |
| RecursiveDescent.Parser.ParseRuleAction | sv_core/parsing/parser.py:756-785 | an action: side and quantity, as in the grammar; `ScriptRoundTrip.PrintScriptParse` states which |
| RecursiveDescent.Parser.ParseRuleItem | sv_core/parsing/parser.py:739-754 | a rule: boolean condition, arrow, action |
| RecursiveDescent.Parser.ParseV2Item | sv_core/parsing/parser.py:550-596 | one statement of version 2, with blocks of version 1 turned into rules |
| RecursiveDescent.Parser.ParseV2 | sv_core/parsing/parser.py:550-596 | the version 2 parser accepts what the grammar accepts and returns its script; which these are, `ScriptRoundTrip.ExactlyScripts` states |
| RoundTrip.ParserSound | sv_core/parsing/parser.py:246-546 | every tree the parser produces is well-formed: typed operands, resolvable names, arity, index range, no comparison of a comparison |
| RoundTrip.PrintParse | sv_core/parsing/parser.py:246-403 | printing a well-formed tree with minimal parentheses and parsing it gives back exactly that tree and leaves the following tokens |
| RoundTrip.ExactlyWellFormed | sv_core/parsing/parser.py:246-546 | the parser produces exactly the well-formed trees |
| SurfaceForms.Grouping | sv_core/parsing/parser.py:250-341 | of two operators between three operands, the tighter one binds first and equal ones group to the left: products, sums, AND, OR |
| SurfaceForms.OperatorThenComparison | sv_core/parsing/parser.py:281-330 | a comparison takes arithmetic on its left as its operand and is itself the operand of AND and OR |
| SurfaceForms.ComparisonThenOperator | sv_core/parsing/parser.py:281-330 | the same on its right |
| SurfaceForms.PrefixThenOperator | sv_core/parsing/parser.py:272-350 | NOT and the minus sign apply to the operand next to them only |
| SurfaceForms.PrefixThenComparison | sv_core/parsing/parser.py:272-350 | NOT applies to a whole comparison, the minus sign to its left operand |
| SurfaceForms.BetweenParse | sv_core/parsing/parser.py:284-303 | `x BETWEEN low AND high` is read as `x >= low AND x <= high`, for all operands |
| SurfaceForms.SuperfluousParentheses | sv_core/parsing/parser.py:390-394 | parentheses around any expression leave it as it is |
| SurfaceForms.NameAlone | sv_core/parsing/parser.py:462-539 | which field, call or error a name without parentheses is, in both versions |
| ErrorLaws.LeftTypeError | sv_core/parsing/parser.py:250-350 | a left operand of a wrong type is a type error at that operand |
| ErrorLaws.RightTypeError | sv_core/parsing/parser.py:250-350 | so is a right operand |
| ErrorLaws.ComparedTypeError | sv_core/parsing/parser.py:305-310 | and an operand of a comparison |
| ErrorLaws.OperandTypes | sv_core/parsing/parser.py:47-81 | which expressions may be operands of logic, and which of arithmetic and comparisons, by their shape |
| ErrorLaws.DefinitionType | sv_core/parsing/parser.py:207-230 | a definition adds its name with the type of its body and changes no other |
| ErrorLaws.CallResolution | sv_core/parsing/parser.py:417-460 | which calls resolve, by name and number of arguments, and with which error others do not |
| ErrorLaws.ChainedComparison | sv_core/parsing/parser.py:311-317 | a second comparison operator is a syntax error at that operator |
| ErrorLaws.IndexOutOfRange | sv_core/parsing/parser.py:352-369 | an index that is not a whole number from 0 to 60 is a syntax error at the number |
| ErrorLaws.DefinedTwice | sv_core/parsing/parser.py:665-690 | defining a name again is a name error at the name |
| ErrorLaws.WrittenTwice | sv_core/parsing/parser.py:127-215 | a second block of a kind is a syntax error, a second definition a name error, any other statement a syntax error |
| ErrorLaws.NoRules | sv_core/parsing/parser.py:550-596 | a version 2 script without a rule is a syntax error at its end |
| ErrorLaws.MissingBlock | sv_core/parsing/parser.py:127-174 | so is a version 1 script without both blocks |
| ScriptSound.AcceptedScript | sv_core/parsing/parser.py:127-230 | in an accepted version 1 script every definition and block is well-formed over strictly earlier names, so nothing is recursive |
| ScriptSound.AcceptedScriptV2 | sv_core/parsing/parser.py:550-754 | the same for every rule, definition and constant of version 2 |
| ScriptSound.V1AcceptedByV2 | sv_core/parsing/parser.py:550-646 | every token list version 1 accepts, version 2 accepts, with the same functions and the blocks as rules |
| ScriptRoundTrip.PrintScriptParse | sv_core/parsing/parser.py:550-785 | the printed statements of a version 2 script, definitions, rules with side and quantity, version 1 blocks, are parsed back to exactly that script |
| ScriptRoundTrip.ExactlyScripts | sv_core/parsing/parser.py:550-785 | version 2 accepts exactly the scripts that well-formed statements make up |
| ScriptRoundTrip.PrintScriptParseV1 | sv_core/parsing/parser.py:127-230 | the same round trip for version 1 |
| ScriptRoundTrip.ExactlyScriptsV1 | sv_core/parsing/parser.py:127-230 | version 1 accepts exactly the scripts made up of well-formed functions and one block of each kind |
| ScriptRoundTrip.RestIsAll | sv_core/parsing/parser.py:770-775 | the two words for everything mean the same |
| ScriptRoundTrip.PrintedInVocabulary | sv_core/parsing/tokens.py:59-74 | printed scripts use the words and signs of the vocabulary |
| OperatorLaws.NumberComparisons | sv_core/parsing/evaluator.py:300-318 | comparisons of numbers are the mathematical ones |
| OperatorLaws.ArithmeticOperators | sv_core/parsing/evaluator.py:320-349 | addition, subtraction, multiplication, division and negation are the mathematical ones, division by zero is null |
| OperatorLaws.LogicOperators | sv_core/parsing/evaluator.py:320-352 | what counts as true, AND, OR and NOT on all values, and that every operator passes null on |
| OperatorLaws.EqualityExactly | sv_core/parsing/evaluator.py:300-318 | equality on numbers, booleans and texts |
| OperatorLaws.ToIntExactly | sv_core/parsing/evaluator.py:235-262 | the conversions drop the fraction towards zero |
| OperatorLaws.ArithmeticMeaning | sv_core/parsing/evaluator.py:88-119 | over numeric fields an expression of any depth evaluates to the number it stands for, or to null |
| OperatorLaws.ConditionMeaning | sv_core/parsing/evaluator.py:88-114 | so does a condition to what it says |
| OperatorLaws.ArithmeticInverse | sv_core/parsing/evaluator.py:333-342 | addition and subtraction, and multiplication and division, undo each other; division by zero is null |
| OperatorLaws.DeMorgan | sv_core/parsing/evaluator.py:328-350 | negating a conjunction is the disjunction of the negations, on all values and null |
| OperatorLaws.ComparisonRaises | sv_core/parsing/evaluator.py:300-318 | a comparison raises exactly if it orders a text against a number or boolean |
| OperatorLaws.TextTrichotomy | sv_core/parsing/evaluator.py:306-313 | of two different texts exactly one is less than the other |
| OperatorLaws.TextTransitive | sv_core/parsing/evaluator.py:306-313 | and the order of texts is transitive |
| OperatorLaws.TextComparisons | sv_core/parsing/evaluator.py:300-318 | texts are compared by their first difference, a beginning coming before its continuations |
| OperatorLaws.BetweenMeaning | sv_core/parsing/parser.py:284-303 | a range test over any three operands that are numbers is true exactly inside the closed range |
| OperatorLaws.NullStrict | sv_core/parsing/evaluator.py:320-353 | one missing field makes the whole expression null, AND and OR included |
| OperatorLaws.WalkNullStrict | sv_core/parsing/evaluator.py:452-522 | the same for version 2 conditions |
| OperatorLaws.MissingFieldBlocks | sv_core/parsing/evaluator.py:60-86 | a block with a missing field, buy or sell, decides false, whatever custom functions there are |
| RuleEvaluation.RuleState.Cross | sv_core/parsing/evaluator.py:185-216 | the crossover memory is read, then replaced, as the semantics say |
| RuleEvaluation.RuleState.Divergence | sv_core/parsing/evaluator.py:240-267 | the history grows, is cut to the lookback, and is judged from five points on; when that is true, `StateFunctions.DivergenceHistory` states |
| RuleEvaluation.DetectDivergence | sv_core/parsing/evaluator.py:269-298 | finds a divergence between the last two turning points |
| RuleEvaluation.RuleState.Count | sv_core/parsing/evaluator.py:540-557 | the counter history grows, is cut to the period and counted |
| RuleEvaluation.RuleState.Consecutive | sv_core/parsing/evaluator.py:568-579 | the streak grows or restarts |
| RuleEvaluation.Evaluator.EvalNode | sv_core/parsing/evaluator.py:88-114 | evaluating a node updates the memory and yields the value or exception of the semantics |
| RuleEvaluation.Evaluator.EvalFuncCall | sv_core/parsing/evaluator.py:121-161 | custom functions, then patterns, then built-ins, then functions of the context |
| RuleEvaluation.Evaluator.EvalCrossCall | sv_core/parsing/evaluator.py:176-216 | both sides are evaluated; a null side leaves the memory alone |
| RuleEvaluation.Evaluator.EvalDivergenceCall | sv_core/parsing/evaluator.py:225-267 | the divergence calls with their default lookback and the conversions of lookback, price and indicator |
| RuleEvaluation.Evaluator.EvalCustomDefs | sv_core/parsing/evaluator.py:60-79 | custom functions are evaluated in order and cached |
| RuleEvaluation.EvaluateScript | sv_core/parsing/evaluator.py:44-86 | the version 1 evaluator returns the two decisions of the semantics and leaves its memory |
| RuleEvaluation.EvaluatorV2.EvalWithStateFuncs | sv_core/parsing/evaluator.py:452-522 | the condition walker computes the semantics of version 2 conditions |
| RuleEvaluation.EvaluatorV2.EvalCountFunc | sv_core/parsing/evaluator.py:524-557 | counters, with the conversion of the period |
| RuleEvaluation.EvaluatorV2.EvalConsecutiveFunc | sv_core/parsing/evaluator.py:559-579 | streaks |
| RuleEvaluation.EvaluatorV2.WalkConditions | sv_core/parsing/evaluator.py:423-435 | one snapshot per rule, and the triggered rules in order |
| RuleEvaluation.ResolveTriggered | sv_core/parsing/evaluator.py:434-438 | resolving over all results is resolving over the triggered rules |
| RuleEvaluation.ResolvePriority | sv_core/parsing/evaluator.py:581-609 | the first full sell, else the first partial sell, else the first buy |
| OperatorLaws.ResolveBest | sv_core/parsing/evaluator.py:581-609 | the action is that of the first among the most urgent triggered rules, none if nothing is triggered |
| OperatorLaws.ResolveOrder | sv_core/parsing/evaluator.py:581-609 | the action is the first triggered full sell, otherwise the first triggered partial sell, otherwise the first triggered buy |
| OperatorLaws.ConstantsHide | sv_core/parsing/evaluator.py:391-421 | a constant means its last declaration, as a value and never as a function; other names keep their meaning |
| RuleEvaluation.EvaluateScriptV2 | sv_core/parsing/evaluator.py:391-439 | the version 2 evaluator returns the verdict of the semantics and leaves its memory |
| Memory.EvalFrame | sv_core/parsing/evaluator.py:88-267 | an evaluation reads no entry of the memory but those its own calls update: memories that agree on these give the same value |
| UpdateLog.EvalLeaves | sv_core/parsing/evaluator.py:88-267 | and it changes no other entry |
| UpdateLog.RunTracked | sv_core/parsing/evaluator.py:423-439 | in every run of every version 2 script an entry is changed by the listed updates only, each finding what the one before it left |
| Preservation.WalkIsEval | sv_core/parsing/evaluator.py:452-522 | without counters and without memory in arithmetic, the version 2 walker is the version 1 evaluator |
| Preservation.TypedArgsConvert | sv_core/parsing/parser.py:47-81 | conditions the parser accepts, with arguments that are not boolean and no counters, have that property |
| Preservation.CyclePreserved | sv_core/parsing/evaluator.py:44-86 | one cycle of a converted script takes the action the version 1 decisions call for and leaves the same memory |
| Preservation.RunPreserved | sv_core/parsing/evaluator.py:44-86 | every run of cycles takes the actions called for and leaves the same memory |
| Preservation.Commute | sv_core/parsing/evaluator.py:88-267 | expressions that update no common entry of the memory can be evaluated in either order |
| Preservation.CycleSellFirst | sv_core/parsing/parser.py:598-646 | with the sell block first and blocks that update no common entry, a cycle takes the action called for and leaves the same memory, or raises in both versions |
| Preservation.RunSellFirst | sv_core/parsing/parser.py:598-646 | so does every run, up to the first cycle that raises |
| Preservation.RaisedMemory | sv_core/parsing/evaluator.py:44-86 | after a raising cycle the memories are equal exactly if neither block has updated anything where the other raises |
| Preservation.MeaningPreserved | sv_core/parsing/parser.py:598-646 | compiling an accepted version 1 script to version 2 preserves its meaning over every run: always with the buy block first, and with the sell block first if the blocks update no common entry and no cycle but the last raises |
| PreservationLimits.SellFirstDiffers | sv_core/parsing/evaluator.py:163-174 | with the sell block first and any crossover pattern in both blocks, the cycle in which its sides cross makes version 1 buy and the converted script sell |
| PreservationLimits.GoldenCrossDiffers | sv_core/parsing/builtins.py:96-105 | such an input over the language's own tables: the golden cross in both blocks |
| PreservationLimits.StreakDiffers | sv_core/parsing/evaluator.py:459-468 | a streak is null to version 1 and a number to version 2 |
| PreservationLimits.BooleanArgumentDiffers | sv_core/parsing/evaluator.py:508-509 | arithmetic over a call with a crossover argument is evaluated twice by version 2, which then computes with the value for false where version 1 computes with that for true |
| TypeSoundness.EvalTyped | sv_core/parsing/parser.py:47-81 | a well-formed tree over numeric data evaluates, without raising, to null or a value of the inferred type |
| TypeSoundness.WalkTyped | sv_core/parsing/evaluator.py:452-522 | the same for version 2 conditions |
| TypeSoundness.AcceptedScriptRuns | sv_core/parsing/evaluator.py:44-86 | an accepted version 1 script never raises on numeric data |
| TypeSoundness.AcceptedScriptNeverStuck | sv_core/parsing/evaluator.py:44-86 | nor in any cycle of any run |
| TypeSoundness.NumericMeaningPreserved | sv_core/parsing/parser.py:598-646 | on numeric data the conversion keeps the meaning of every run, buy block first or blocks without a common entry |
| TypeSoundness.AcceptedScriptV2Runs | sv_core/parsing/evaluator.py:423-439 | an accepted version 2 script never raises on numeric data |
| TypeSoundnessLimits.TextConstantRaises | sv_core/parsing/parser.py:55-56 | a string constant counts as a number for the parser, and comparing it raises |
| TypeSoundnessLimits.TextCrossRaises | sv_core/parsing/parser.py:419-425 | a text argument of a crossover is accepted and raises in the second cycle |
| TypeSoundnessLimits.ShadowingRaises | sv_core/parsing/evaluator.py:124-126 | a definition that shadows a built-in used earlier changes the type of that use and makes it raise |
| Builtins.BuiltinsOk | sv_core/parsing/builtins.py:14-105 | the language's tables meet what type soundness assumes of them |
| StateFunctions.CallResult | sv_core/parsing/evaluator.py:176-267 | a crossover or divergence call returns the result of its own update, or null or false if it makes none |
| StateFunctions.WalkResult | sv_core/parsing/evaluator.py:524-579 | so do a counter and a streak in a condition |
| CallLaws.IndicatorCall | sv_core/parsing/evaluator.py:143-161 | an indicator is what the function of the context makes of the arguments in order, null if one of them is |
| CallLaws.NamedCall | sv_core/parsing/evaluator.py:121-131 | a custom function is its result of the cycle, a pattern its definition |
| CallLaws.CrossCall | sv_core/parsing/evaluator.py:176-223 | a crossover of two numbers is true exactly if the first was strictly on the other side of the second the last time and is not any more, and remembers the two |
| CallLaws.DivergenceCall | sv_core/parsing/evaluator.py:225-298 | a divergence adds price and first argument to its history, keeps the latest and judges these |
| CallLaws.OtherLookbacks | sv_core/parsing/evaluator.py:260-263 | what a lookback of zero or less keeps |
| CallLaws.CountCall | sv_core/parsing/evaluator.py:524-557 | a counter adds the truth of its first argument and reports how many of the latest are true, as many as the second says |
| CallLaws.StreakCall | sv_core/parsing/evaluator.py:559-579 | a streak grows by one or starts again at zero |
| CallLaws.DefinitionsInOrder | sv_core/parsing/evaluator.py:60-79 | each custom function is evaluated after the earlier ones, with their results |
| CallLaws.RulesInOrder | sv_core/parsing/evaluator.py:423-450 | each rule is evaluated in the memory the one before it left and recorded as true, false or null |
| StateFunctions.OncePerCycle | sv_core/parsing/evaluator.py:185-187 | an entry that one place of the script updates is updated at most once per cycle |
| StateFunctions.CrossMemory | sv_core/parsing/evaluator.py:185-187 | in every run of every script, a crossover finds the pair of values of its previous evaluation |
| StateFunctions.CrossHistory | sv_core/parsing/evaluator.py:176-216 | in every run of every script, a crossover compares with the last time both sides had values |
| StateFunctions.CountLaw | sv_core/parsing/evaluator.py:540-557 | in every run of every script, whichever counters share the key and whatever their periods: a counter reports how many of the latest outcomes under its key are true, as many as the periods have kept |
| Counters.CountHistory | sv_core/parsing/evaluator.py:524-557 | in every run of a script in which no other counter has its key, a counter reports how often its condition held in the last p cycles that got to it, from at most p stored outcomes |
| StateFunctions.StreakLaw | sv_core/parsing/evaluator.py:568-579 | in every run of every script, a streak reports how many of the latest outcomes under its key are true without a break |
| Counters.StreakHistory | sv_core/parsing/evaluator.py:559-579 | in every run of a script in which no other streak has its key, these are the truth of its condition, cycle by cycle |
| Counters.EveryCycle | sv_core/parsing/evaluator.py:423-439 | in a run without exceptions the n-th update of such a counter or streak is that of the n-th cycle |
| StateFunctions.StreakIsLongestSuffix | sv_core/parsing/evaluator.py:571-574 | what the longest true suffix is |
| StateFunctions.CountTrueIsCardinality | sv_core/parsing/evaluator.py:551-553 | counting trues is the cardinality of the set of true positions |
| StateFunctions.CountFullIffStreak | sv_core/parsing/evaluator.py:551-576 | a counter is full exactly if the streak is at least as long |
| Counters.FullCounterIffStreak | sv_core/parsing/evaluator.py:524-579 | in every run without exceptions of a script with one counter and one streak over a condition, the counter is full exactly when the streak has lasted its period |
| StateFunctions.ExtremaAreTurns | sv_core/parsing/evaluator.py:276-292 | the extrema are exactly the points beyond both neighbours, in order |
| StateFunctions.DivergesExactly | sv_core/parsing/evaluator.py:270-298 | a history diverges exactly if its last two turning points do, the turning points given without the scan |
| StateFunctions.DivergenceHistory | sv_core/parsing/evaluator.py:225-298 | in every run of every script, a divergence call is true exactly if among the last lookback prices the last two turning points make a new extreme that the indicator does not confirm; no more points are stored |
| Counters.SharedCounters | sv_core/parsing/evaluator.py:524-557 | of two counters whose conditions have one printed form the second reports two in the first cycle, exactly if both conditions hold |
| Counters.ParenthesesCollide | sv_core/parsing/evaluator.py:617-642 | the printed form drops parentheses, so that different conditions share a key |
| Counters.ComparisonKeys | sv_core/parsing/evaluator.py:612-642 | counters over simple comparisons share a key exactly if the comparisons agree but for their positions |
| UpdateLog.EvalKeepsCounters | sv_core/parsing/evaluator.py:88-161 | expression evaluation leaves counters and streaks alone |
| OrderClasses.SignalManager.CanTrigger | local_server/engine/signal_manager.py:31-35 | a slot is free exactly if idle, after the daily reset |
| OrderClasses.SignalManager.CheckDailyReset | local_server/engine/signal_manager.py:73-80 | all slots return to idle on a later day |
| OrderClasses.SignalManager.Mark | local_server/engine/signal_manager.py:37-59 | marking a slot triggered, filled or failed changes that slot and side only |
| OrderClasses.LimitChecker.CheckBudget | local_server/engine/limit_checker.py:37-52 | an order fits exactly if the total with it is within the share of the cash |
| OrderClasses.LimitChecker.CheckMaxPositions | local_server/engine/limit_checker.py:54-61 | a position fits exactly if fewer than the maximum are held |
| OrderClasses.LimitChecker.RecordExecution | local_server/engine/limit_checker.py:63-65 | the total grows by the amount |
| OrderClasses.LimitChecker.RestoreFromLog | local_server/engine/limit_checker.py:77-81 | the total becomes the amount recomputed from the log |
| OrderClasses.LimitChecker.CheckDateBoundary | local_server/engine/limit_checker.py:83-88 | the total restarts when the date differs |
| OrderClasses.Safeguard.IsTradingEnabled | local_server/engine/safeguard.py:52-58 | trading is on exactly without kill switch and loss lock |
| OrderClasses.Safeguard.CheckOrderSpeed | local_server/engine/safeguard.py:60-68 | the counter restarts after a minute; an order passes exactly below the limit |
| OrderClasses.Safeguard.IncrementOrderCount | local_server/engine/safeguard.py:70-72 | the counter grows by one |
| OrderClasses.Safeguard.CheckMaxLoss | local_server/engine/safeguard.py:74-97 | the check fails and locks trading exactly for a realized loss whose hundredfold exceeds the threshold times the account |
| OrderClasses.Safeguard.SetKillSwitch | local_server/engine/safeguard.py:99-102 | the switch takes the given level and nothing else changes |
| OrderClasses.Safeguard.UnlockLossLock | local_server/engine/safeguard.py:104-107 | the lock is lifted and nothing else changes |
| OrderClasses.LogDB.Write | local_server/storage/log_db.py:66-94 | the log grows by the row |
| OrderClasses.LogDB.TodayExecutedAmount | local_server/storage/log_db.py:184-203 | the loop sums the day's order rows that have price and quantity |
| OrderClasses.OrderExecutor.Check | local_server/engine/executor.py:105-190 | the gates in their order, with the state changes they make on the way |
| OrderClasses.OrderExecutor.Confirm | local_server/engine/executor.py:217-256 | what happens after the broker took the order, up to a fault |
| OrderClasses.OrderExecutor.Fail | local_server/engine/executor.py:255-266 | a failure makes the slot idle and logs an error |
| OrderClasses.OrderExecutor.ExecuteOrder | local_server/engine/executor.py:74-266 | one execution transforms the four objects as the pipeline says, for every broker, price and fault |
| OrderClasses.SystemTrader.ProcessCycle | local_server/engine/system_trader.py:33-92 | the loop selects and drops candidates as the greedy selection says, whose every decision `Selection.DecisionExactly` states |
| OrderClasses.StrategyEngine.Open | local_server/engine/engine.py:193-252 | whether a cycle goes on: running, date check, trading hours, active rules, broker queries, loss check |
| OrderClasses.StrategyEngine.RunBatch | local_server/engine/engine.py:309-343 | the selected orders are executed one after another until an exception outside the executor's own handler ends the cycle |
| OrderClasses.StrategyEngine.EvaluateAll | local_server/engine/engine.py:193-346 | a cycle: its conditions, selection, execution |
| OrderSafety.AtMostOncePerDay | local_server/engine/signal_manager.py:31-59 | two accepted orders of one rule and side on one day imply that something raised late in the first one or that the process was restarted between them, in every run |
| OrderSafety.RestartAllowsSecondOrder | local_server/engine/signal_manager.py:22-29 | a restart between them does let the same order through twice |
| OrderSafety.SlotStaysFilled | local_server/engine/signal_manager.py:43-46 | a slot filled by an order without a late fault stays filled for the day, whatever is executed and raises in other orders, until a restart |
| OrderSafety.AcceptanceKept | local_server/engine/executor.py:217-256 | an accepted order leaves its slot filled exactly if nothing raises afterwards |
| OrderSafety.FaultAllowsSecondOrder | local_server/engine/executor.py:217-256 | after a late fault the same order is accepted again exactly if order counter and budget leave room |
| OrderSafety.SlotsIndependent | local_server/engine/signal_manager.py:31-59 | rules and sides do not interfere |
| OrderSafety.AcceptedExactly | local_server/engine/executor.py:105-206 | the broker takes an order exactly under the listed conditions, whichever gate is tried first |
| OrderSafety.PriceWithinPercent | local_server/engine/price_verifier.py:32-69 | the price gate passes exactly if the price found lies within one percent of the expected one |
| OrderSafety.RefusedHarmless | local_server/engine/executor.py:105-266 | an order that is not accepted books nothing, counts nothing and fills no slot |
| OrderSafety.OffMeansNoOrders | local_server/engine/safeguard.py:52-58 | while trading is off nothing is accepted, in any run |
| OrderSafety.LossStopsTrading | local_server/engine/safeguard.py:74-107 | after a check with a loss above the threshold nothing is accepted until an unlock or a restart, in any run |
| OrderSafety.RestartForgets | local_server/engine/safeguard.py:36-50 | a restart forgets fills, switch, lock and counter |
| OrderSafety.CommandsExactly | local_server/engine/safeguard.py:99-107 | what switch, unlock and date check do, and that each changes nothing else |
| OrderModel.CheckLossExactly | local_server/engine/safeguard.py:74-97 | the loss check in product form, for any account and threshold |
| OrderSafety.RejectedExactly | local_server/engine/executor.py:105-190 | the reason of a rejection is the first of the seven conditions that fails |
| OrderSafety.RejectionLeaves | local_server/engine/executor.py:105-190 | what a rejection leaves: an error row, signals of an earlier day cleared, a new window if the speed check was reached after a minute |
| OrderSafety.ProfitExactly | local_server/engine/executor.py:227-232 | the profit of a sell is price over the average of the first position of its symbol times quantity, none if that is zero or there is no average |
| OrderSafety.FillRow | local_server/engine/executor.py:227-239 | an order without a late fault leaves a fill row with price, quantity and that profit |
| OrderSafety.RowsAppended | local_server/engine/executor.py:192-266 | which rows an execution appends to the log, for every outcome |
| Ledger.PlaceBooks | local_server/engine/executor.py:196-225 | an execution books and logs its amount exactly if the order was accepted |
| Ledger.LedgerAgrees | local_server/engine/limit_checker.py:63-88 | in every run the total, the accepted amounts of the day and the log's sum are equal at every step |
| Ledger.LedgerExact | local_server/engine/limit_checker.py:63-88 | in every run, orders before the date check included, the log's sum exceeds the total by exactly what the date check dropped |
| Ledger.RestartKeepsBudget | local_server/engine/limit_checker.py:77-81 | a restart on the same day restores exactly the limits |
| Ledger.RestartExact | local_server/engine/limit_checker.py:77-81 | and a restart restores the limits exactly if nothing was dropped |
| Ledger.BudgetRespected | local_server/engine/limit_checker.py:37-52 | the orders accepted in a day, up to any accepted buy, stay within that buy's budget, across cycles and restarts |
| Ledger.MidnightOrder | local_server/engine/limit_checker.py:83-88 | an order placed after midnight but before the date check agrees with the log exactly if the old total was zero |
| RateBound.WindowHolds | local_server/engine/safeguard.py:60-72 | what the fixed window knows about every sliding minute, in every run, restarts included |
| RateBound.RateBounded | local_server/engine/safeguard.py:60-72 | no closed minute of a run with r restarts in it holds more than 2 + r times the limit of accepted orders |
| Selection.CandidatesFaithful | local_server/engine/engine.py:352-578 | a candidate's quantity is the quantity the executor orders |
| Selection.SortStable | local_server/engine/system_trader.py:55-56 | candidates are ordered by priority, equal priorities keep their order |
| Selection.SortPermutes | local_server/engine/system_trader.py:55-56 | sorting neither loses nor adds candidates |
| Selection.SelectPartitions | local_server/engine/system_trader.py:53-92 | every candidate is selected or dropped |
| Selection.SelectSafe | local_server/engine/system_trader.py:53-118 | selected buys have distinct unheld symbols, within position count and budget; selected sells are held |
| Selection.SelectMaximal | local_server/engine/system_trader.py:53-118 | a dropped buy has a held or selected symbol, or the selected and held ones use up the positions, or its amount exceeds what the selected ones leave of the day's cap; dropped sells are unheld |
| Selection.CheckBuyExactly | local_server/engine/system_trader.py:94-118 | each reason to drop a buy holds exactly if its condition on what is held and selected so far does and no earlier one |
| Selection.DecisionExactly | local_server/engine/system_trader.py:53-92 | every candidate is selected or dropped, and for which reason, exactly by the candidates selected before it |
| Selection.CandidatesV1Exactly | local_server/engine/engine.py:352-430 | which candidates a version 1 rule gives |
| Selection.PercentQty | local_server/engine/engine.py:555-582 | a percentage sell is that share of what is held, cut to whole shares, at least one if anything is held |
| Selection.SellQty | local_server/engine/engine.py:555-582 | the quantity of every sell |
| Selection.SelectPrefixStable | local_server/engine/system_trader.py:53-92 | later candidates change no earlier decision |
| Selection.CyclePrefixStable | local_server/engine/system_trader.py:33-92 | candidates of no higher priority change no decision of a cycle |
| Selection.SellsIrrelevant | local_server/engine/system_trader.py:53-92 | sells do not influence which buys are selected |
| TradingCycle.SelectionConservative | local_server/engine/engine.py:279-323 | in a batch without sells every selected buy passes the executor's budget and position gates, whichever earlier orders went through |
| TradingCycle.BudgetRejection | local_server/engine/executor.py:129-151 | in any batch, the executor rejects the n-th order, a buy, for the budget exactly if what the earlier orders booked leaves too little |
| TradingCycle.ChoiceExactly | local_server/engine/engine.py:278-285 | against which symbols, maximum and remaining cap a cycle selects |
| TradingCycle.ExecutedExactly | local_server/engine/engine.py:309-345 | orders of a batch are executed up to the first whose announcement raises, or with the first that aborts or whose report raises |
| TradingCycle.SuspendedExactly | local_server/engine/engine.py:208-215 | evaluation rests from 9:00 to 9:02 and from 15:30 to 16:00 |
| TradingCycle.BatchExactly | local_server/engine/engine.py:193-252 | from what a cycle selects, and when it selects nothing |
| TradingCycle.CycleIsRun | local_server/engine/engine.py:193-346 | a cycle is a run of pipeline events, so the run properties hold across cycles |
| Bars.MinuteBarStore.SaveBars | local_server/storage/minute_bar.py:46-61 | saving bars inserts or replaces their rows |
| Bars.BarBuilder.OnTick | local_server/engine/bar_builder.py:43-94 | a tick extends the current bar, or completes and saves it and starts a new one |
| Bars.BarBuilder.GetCurrentBar | local_server/engine/bar_builder.py:100-112 | the bar under construction |
| Bars.MarketRepository.SaveMinuteBar | cloud_server/services/market_repository.py:46-86 | a tick inserts a row or updates high, low, close and volume of the existing one |
| Bars.BuilderKeepsLastStay | local_server/engine/bar_builder.py:43-94 | in every run the bar of a minute summarizes exactly the ticks of the symbol's last stay in it |
| Bars.CompletedBar | local_server/engine/bar_builder.py:68-94 | the completed bar of a symbol summarizes its last stay in the minute before the current one |
| Bars.LatestTick | local_server/engine/bar_builder.py:54-55 | the latest tick of a symbol is its last |
| Bars.MinuteOfTick | local_server/engine/bar_builder.py:52 | a tick belongs to the whole minute it falls in |
| Bars.UnsavedBar | local_server/engine/bar_builder.py:80-92 | a failed save leaves that bar out of the table and changes nothing else |
| Bars.TableKeepsAll | cloud_server/services/market_repository.py:46-86 | in every run the row of a minute summarizes all the symbol's ticks in it |
| Bars.SummaryUnique | local_server/engine/bar_builder.py:64-67 | open, high, low, close and volume are determined by the ticks |
| Bars.ContiguousAgree | cloud_server/services/market_repository.py:46-86 | builder and table agree row by row when no symbol returns to a minute it left |
| Bars.OrderedContiguous | local_server/engine/bar_builder.py:62-68 | ticks with nondecreasing times per symbol are such |
| Bars.ReturnLosesVolume | local_server/engine/bar_builder.py:68-94 | a returning tick makes the builder forget the earlier volume of the minute |
| Bars.AgreeExactly | cloud_server/services/market_repository.py:46-86 | for all ticks, builder and table agree exactly if in no minute the ticks before the last stay add anything: volume, another first price, a price outside the range |
| Bars.AgreeIfPositive | cloud_server/services/market_repository.py:46-86 | with positive volumes that is exactly if no symbol returns to a minute it left |
| Bars.VolumeConserved | cloud_server/services/market_repository.py:68-71 | the volumes of the table's rows add up to the ticks' volumes |
| Aggregation.AggregateBars | local_server/storage/minute_bar.py:106-147 | the bucket loop computes the fold of bars into buckets, skipping unreadable times |
| Aggregation.Tower | local_server/storage/minute_bar.py:106-159 | aggregating through a finer resolution gives the directly aggregated bars, for any order and missing fields |
| Aggregation.AggregateVolume | local_server/storage/minute_bar.py:150-159 | the volume of bars with readable times is kept |
| Aggregation.HighestIsMax | local_server/storage/minute_bar.py:155 | the merged high is the largest of the bucket |
| Aggregation.LowestIsMin | local_server/storage/minute_bar.py:156 | the merged low is the smallest of the bucket, missing and zero lows left out |
| Aggregation.BucketsAlternate | local_server/storage/minute_bar.py:128-138 | neighbouring output bars belong to different buckets and are stamped with bucket starts |
| Aggregation.BucketIs | local_server/storage/minute_bar.py:128-138 | the bucket of a time is the stretch of the resolution's length since midnight that it falls in |
| Aggregation.FoldBuckets | local_server/storage/minute_bar.py:106-159 | the readable bars fall into consecutive groups of one bucket each, and every output bar has open, close, extremes and volume of its group |
| Aggregation.AggregateCandles | cloud_server/services/backtest_runner.py:192-215 | one bar per run of equal keys, for the one way to cut the candles into such runs |
| Aggregation.GroupByGroups | cloud_server/services/backtest_runner.py:199-205 | the groups joined give the candles back, have one key each and neighbours with different keys |
| Aggregation.GroupSummary | cloud_server/services/backtest_runner.py:205-214 | the bar of a group has the time and open of its first candle, the close of its last, the extremes and the total volume |
| Aggregation.GroupingUnique | cloud_server/services/backtest_runner.py:205 | there is no other way to cut the candles so |
| Aggregation.KeyIsBucket | cloud_server/services/backtest_runner.py:199-202 | the backtest's grouping key is the store's bucket |
| Aggregation.GroupingAgrees | cloud_server/services/backtest_runner.py:192-215 | on non-negative lows the two aggregations give the same bars exactly if no low is zero |
| Backtest.PrecomputeIndicators | cloud_server/services/backtest_runner.py:217-232 | the indicators of a bar are computed from the bars up to it |
| Backtest.Simulate | cloud_server/services/backtest_runner.py:234-357 | the loop computes the run of the account over the bars, for every strategy |
| BacktestProofs.BarExactly | cloud_server/services/backtest_runner.py:251-337 | what every bar does to the account: when a position opens, closes or stays, and its equity point |
| BacktestProofs.RatesExactly | cloud_server/services/backtest_runner.py:294-318 | what slippage, commission and tax make of prices and proceeds |
| BacktestProofs.RoundExactly | cloud_server/services/backtest_runner.py:328-333 | rounding is to the nearest whole number, halves to the even one |
| BacktestProofs.ForcedTrade | cloud_server/services/backtest_runner.py:339-357 | a position open at the end is reported as a trade at the last close without costs |
| BacktestProofs.NoLookAhead | cloud_server/services/backtest_runner.py:234-337 | simulating a prefix gives the first equity points and the first trades of the full simulation |
| BacktestProofs.LaterTrades | cloud_server/services/backtest_runner.py:310-337 | the other trades are exactly those closed at later bars |
| BacktestProofs.FutureIrrelevant | cloud_server/services/backtest_runner.py:217-337 | runs that share a prefix share its equity points and trades |
| BacktestProofs.CashIdentity | cloud_server/services/backtest_runner.py:292-337 | in every state cash is initial cash plus the exact profit of the closed trades minus the cost of the open position |
| BacktestProofs.ReportedPnls | cloud_server/services/backtest_runner.py:320-333 | a closed trade reports its exact profit, rounded |
| BacktestProofs.ReportedCosts | cloud_server/services/backtest_runner.py:314-333 | profit, commission and tax of every closed trade account for its price difference, up to rounding |
| BacktestProofs.CashMatchesReport | cloud_server/services/backtest_runner.py:320-337 | without a position cash differs from the reported profits by at most half a unit per trade |
| BacktestProofs.BuyWithin | cloud_server/services/backtest_runner.py:293-297 | the shares bought cost at most the share of cash to be invested |
| BacktestProofs.BuyMaximal | cloud_server/services/backtest_runner.py:293-297 | one share more would cost more |
| BacktestProofs.RunSolvent | cloud_server/services/backtest_runner.py:292-318 | cash and equity never become negative, for rates whose buy cannot exceed the cash |
| BacktestProofs.Overdraws | cloud_server/services/backtest_runner.py:293-299 | above that bound some price overdraws any cash |
| BacktestProofs.TradesApart | cloud_server/services/backtest_runner.py:292-337 | trades never overlap, last at least a bar and carry the prices of their bars |
| Drawdown.MaxDrawdown | cloud_server/services/backtest_runner.py:368-377 | the pass finds the largest loss against the running peak, and fails exactly if some running peak is zero |
| Drawdown.PassIsMaximum | cloud_server/services/backtest_runner.py:368-377 | on a curve that starts positive and is never negative that is the largest loss over all pairs of points |
| Drawdown.PeakPositive | cloud_server/services/backtest_runner.py:371-375 | on a curve that starts positive the pass does not fail |
| Drawdown.NegativePoint | cloud_server/services/backtest_runner.py:371-377 | with a negative point it can be less than the largest loss |
| Drawdown.DrawdownUnique | cloud_server/services/backtest_runner.py:368-377 | that maximum is one number |
| Drawdown.DrawdownRange | cloud_server/services/backtest_runner.py:368-377 | it lies between 0 and 100 |
| Drawdown.CurveSuitable | cloud_server/services/backtest_runner.py:255-260 | the equity curve of a solvent backtest is one the pass can handle |

## Left out

- Preservation.MeaningPreserved: asks that no condition uses counters or streaks and that arithmetic re-evaluated by version 2 touches no crossover or divergence memory; `PreservationLimits` shows by inputs that the results can differ otherwise. With the sell block first it says nothing about blocks that share an entry, where some scripts differ and others do not, and about the cycles after one that raises, whose memories `RaisedMemory` compares.
- TypeSoundness.AcceptedScriptRuns: asks for number arguments to crossovers and divergences, no string constants and no shadowing of built-ins, as the code needs; each is shown necessary by an input in `TypeSoundnessLimits`.
- Ledger.LedgerAgrees: excludes log writes that fail after an accepted order, and orders placed on another day than the latest date check; `LedgerExact` covers the latter.
- Backtest.Simulate: asks that the slippage rate is not minus one, where the loop would divide by zero.
- Bars.BuilderKeepsLastStay: assumes that saving a completed bar succeeds; the code only logs a failure, and the bar is lost (`Bars.UnsavedBar`).
- Floating point: prices, amounts and indicator values are exact numbers, so rounding errors of floats and the conversions between floats and decimals are not modelled.
- Numerals: how the text of a number token becomes a number is a parameter of the tables; digits that only Unicode calls digits and that the conversion would refuse are not treated.
- Texts as operands: concatenation and comparison are modelled, and converting a text to a number is a parameter of the tables; repeating a text by multiplication raises in the model.
- The context of an evaluation is modelled as two maps, values and functions; a function stored under a field's name, and the injection of constants into the caller's own dictionary, are not captured.
- Printed keys of counters and streaks are sequences of symbols, not strings, so two trees whose texts happen to coincide for other reasons than parentheses keep separate keys in the model.
- Compound fields: one field of two words, as in the tables; patterns do not contain patterns, as in the tables.
- The field values and call texts that version 2 records for display with each condition.
- Error messages; an error is its kind and position.
- OrderClasses.SignalManager.Mark: leaves out the callback that deactivates a rule with the ONCE policy.
- Order types, limit prices, order identifiers and what result callbacks do.
- Log rows for selection decisions and their notices; only order, fill and error rows of an execution are modelled.
- OrderClasses.StrategyEngine.Open: leaves out position synchronisation, alerts and the cancelling of open orders after a loss lock.
- Position state after fills, with its average cost: the quantity held is an input of the candidates.
- Interleaving of coroutines inside one execution: each execution is one step.
- Dates: a single day number; the difference between local dates and the log's own is not modelled.
- `sorted` and `groupby` are modelled by functions with proved properties, not by the library's algorithms.
- Bars without a timestamp, which take the current time, and the filling of gaps from a quote.
- Reading bars from a database, returns, Sharpe ratio and other summary figures of a backtest.
- The strategy of a backtest is any function of the bars so far with a memory; that a version 2 script given to the backtest is evaluated as version 1 and its exceptions skipped is not part of it.
- HTTP, WebSocket, broker adapters, storage mechanics, caches, session handling and user interfaces.
