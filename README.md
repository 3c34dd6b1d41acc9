# CPT316 compiler front end, modelled in Dafny

This project models the front end of a small teaching compiler, written in Python in
several iterations:

- **PoliteLang pipeline.**
  - `lexical.py`: a tokenizer with a strict rule order (whitespace, `:)` comments,
    strings, `thanks~`, two-character operators, one-character operators, separators,
    words, numbers, unknown characters).
  - `syntax_temp.py`: a recursive-descent parser for the keyword-led statements `pls`,
    `show`/`whisper`/`shout`, `Check … otherwise`, `During` and `Given … in`. It builds
    its results as text.
- **C-like pipeline.**
  - `lexical_temp.py`: a tokenizer with separate INTEGER/FLOAT literals and an
    ASSIGNMENT token for `=`.
  - `lexical_initial.py`: the earlier variant of that tokenizer, where `=` is an
    OPERATOR and `-` is unknown. It also holds the two source checks
    `check_matching_bracket` and `check_semicolon`.
  - `syntax.py`: a parser that builds `ASTNode` trees.

Every stateful object keeps the source's form:

- The tokenizers and parsers are Dafny classes with the source's `position` cursor as a
  mutable field.
- Their loops are `while` loops.
- Each method is proved against a function of the input and the old cursor:
  - `Step`/`LexFrom` for one iteration of a tokenizer and for the whole scan;
  - `ExpectAt`, `ExpressionAt`, `StatementAt`, `ProgramFrom`/`ParseFrom` and friends for
    the parsers.
- The predicate `Agrees(r, spec, position)` says that:
  - the method returns the value the function parses, with the cursor just past it;
  - or it returns the same error.

A `raise SyntaxError` is an error result carrying what the message reports. Reading the
kind of a missing token at the end of the list is an `AttributeError` in Python, and is
the error `NoToken` here.

The properties proved, beyond the methods' agreement with their functions:

- **Token shapes.** Per kind, every emitted token has the shape its rule gives it:
  - keywords are listed words;
  - identifiers are unlisted words;
  - numbers hold at most one `.`;
  - illegal identifiers are a number followed by a letter-led run;
  - strings hold no `"`;
  - PoliteLang operators are in the operator set and `thanks~` is never a keyword.
- **Scanner rules.** One lemma per scanner rule:
  - longest match for `>=`, `<=`, `==` and `!=`;
  - comments and blanks emit nothing.
- **Bracket and semicolon checks.** The checks are exact characterisations:
  - balanced brackets as a stack run;
  - balanced brackets as a recursive nesting predicate;
  - every `}` after index 0 preceded by `;`.
- **Round trips.** Every well-formed statement list, written back as tokens, parses to
  itself, for both parsers.
- **Consequences of the round trips:**
  - Expressions fold to the left: every left-nested chain reads back from its tokens
    (`ExpressionRoundTrip`); for example `1 + 2 + 3` renders as
    `((Literal(1) + Literal(2)) + Literal(3))` (`LeftFoldExample`, `LeftFoldRendering`,
    proved for that input).
  - Parentheses around a left operand leave no trace in `syntax.py`'s tree.
  - A C-like branch holds exactly one statement.
  - No `Given` statement parses from anything `lexical.py` emits, because its keyword set
    lacks `in`.
  - No assignment or declaration parses from `lexical_initial.py`'s tokens, because that
    tokenizer never emits an ASSIGNMENT token.

Python's `str.isspace`, `isalpha`, `isdigit` and `isalnum` are modelled on ASCII
(`Common`).

## Model

| member | source | states |
|---|---|---|
| PoliteLexer.OperatorsByLengthIsSorted | lexical.py:49 | the fixed order used for the operator search holds exactly the operator set, the four two-character operators first |
| PoliteLexer.OperatorCharsAreOperators | lexical.py:49 | a character is a one-character operator exactly when it is one of `+-*/<>=` |
| PoliteLexer.FirstMatch | lexical.py:87-93 | the search over the operators in order finds nothing exactly when no operator starts at the cursor, and otherwise returns the first one that does |
| PoliteLexer.LongOperatorAheadIsAny | lexical.py:82-86 | the guard "some operator longer than one character starts here" holds exactly when `>=`, `<=`, `==` or `!=` starts at the cursor |
| PoliteLexer.LongOperatorMatch | lexical.py:82-93 | when the guard holds, the search picks the two-character operator at the cursor, never its one-character prefix |
| PoliteLexer.LongOperatorText | lexical.py:82-93 | the two characters the guard sees form an operator of the operator set |
| PoliteLexer.ValidateIdentifier | lexical.py:155-161 | the token keeps the word, and is ILLEGAL_IDENTIFIER exactly when the word starts with a digit |
| PoliteLexer.RuleAt | lexical.py:56-142 | the rule an iteration applies, in lexical.py's order: each rule exactly where its guard holds and no earlier one does, so `:)` is a comment rather than a separator, `thanks~` an end marker rather than a word, an operator followed by `=` a two-character operator, and any other character UNKNOWN |
| PoliteLexer.Step | lexical.py:56-142 | each iteration of the scan moves the cursor forward, so the scan terminates, and at most one past the end of the text (a last comment without a newline) |
| PoliteLexer.LexFromAfterScan | lexical.py:56-143 | the tokens from a position are what the iteration there emits followed by the tokens from where it leaves the cursor |
| PoliteLexer.LexFromEnd | lexical.py:56 | at or past the end of the text the scan emits nothing |
| PoliteLexer.LexFrom | lexical.py:53-143 | the tokens of the scan from a position: at most one per character left |
| PoliteLexer.Lex | lexical.py:53-143 | the tokens of a whole text: never more than it has characters |
| PoliteLexer.LexicalAnalyzer.constructor | lexical.py:31-33 | a new analyzer holds the source with the cursor at 0 |
| PoliteLexer.LexicalAnalyzer.Tokenize | lexical.py:53-143 | the loop returns exactly the tokens the scan specifies from the starting cursor and leaves the cursor at or past the end of the text, at most one past it |
| PoliteLexer.LexicalAnalyzer.ScanOne | lexical.py:57-142 | one pass through the rule chain emits the token and moves the cursor as `Step` specifies |
| PoliteLexer.LexicalAnalyzer.ScanLongOperator | lexical.py:82-93 | the sorted-operator loop emits the two-character operator at the cursor and advances by two |
| PoliteLexer.LexicalAnalyzer.ScanWord | lexical.py:106-111 | the word branch emits the keyword or identifier token of the word it reads |
| PoliteLexer.LexicalAnalyzer.ScanNumber | lexical.py:114-129 | the number branch emits a LITERAL, or an ILLEGAL_IDENTIFIER when a letter follows the digits |
| PoliteLexer.LexicalAnalyzer.ReadIdentifier | lexical.py:146-152 | the cursor stops at the end of the run of letters, digits and `_`, and the word returned is that run |
| PoliteLexer.LexicalAnalyzer.ReadNumber | lexical.py:164-174 | the cursor stops at the end of the digit run with at most one `.`, and the text returned is that run |
| PoliteLexer.LexicalAnalyzer.ReadString | lexical.py:177-190 | the text between the quotes is returned and the closing quote skipped; without a closing quote the rest of the text is returned |
| PoliteLexer.LexicalAnalyzer.SkipComment | lexical.py:193-196 | the cursor moves one past the next newline, or one past the end when there is none |
| PoliteLexer.WordEndSpec | lexical.py:146-152 | every character up to where the identifier loop stops is a word character, and the one it stops at is not |
| PoliteLexer.WordEndIs | lexical.py:146-152 | any position ending a maximal word-character run is where the identifier loop stops |
| PoliteLexer.FindSpec | lexical.py:180-181 | no character before where the search stops is the stop character, and the one it stops at is |
| PoliteLexer.FindIs | lexical.py:193-195 | any position ending a run free of the stop character is where the search stops |
| PoliteLexerProps.StepBlank | lexical.py:60-62 | whitespace emits nothing and advances by one |
| PoliteLexerProps.StepComment | lexical.py:65-67 | a `:)` comment emits nothing and skips past the end of its line |
| PoliteLexerProps.StepEndStatement | lexical.py:77-79 | `thanks~` emits one END_STATEMENT token, ahead of the operator and word rules |
| PoliteLexerProps.StepLongOperator | lexical.py:82-93 | a two-character operator emits one OPERATOR token with both characters |
| PoliteLexerProps.StepOperator | lexical.py:96-98 | a one-character operator not followed by a longer match emits that character as an OPERATOR |
| PoliteLexerProps.StepSeparator | lexical.py:101-103 | a separator character that does not open a comment emits a SEPARATOR |
| PoliteLexerProps.StepWord | lexical.py:106-111 | a maximal word becomes KEYWORD exactly when it is listed, IDENTIFIER otherwise |
| PoliteLexerProps.StepNumber | lexical.py:114-129 | a maximal number not followed by a letter becomes one LITERAL |
| PoliteLexerProps.StepIllegalIdentifier | lexical.py:114-127 | a number directly followed by a word becomes one ILLEGAL_IDENTIFIER spanning both, never a LITERAL and an IDENTIFIER |
| PoliteLexerProps.StepString | lexical.py:70-74 | a quoted string becomes a LITERAL holding the text between the quotes |
| PoliteLexerProps.StepUnterminatedString | lexical.py:177-186 | without a closing quote the LITERAL holds the rest of the text and the scan reaches the end |
| PoliteLexerProps.StepUnknown | lexical.py:137-142 | any other character becomes an UNKNOWN token holding exactly it, and the cursor advances by one |
| PoliteLexerProps.StepWellFormed | lexical.py:56-142 | every token one iteration emits has the shape its rule gives it |
| PoliteLexerProps.LexFromWellFormed | lexical.py:53-143 | every token of the scan from any position is well formed |
| PoliteLexerProps.LexWellFormed | lexical.py:53-143 | every token of a text is well formed, none is a COMMENT, and no KEYWORD carries `thanks~` |
| PoliteParser.ExpectAt | syntax_temp.py:23-29 | succeeds exactly when the token at the cursor exists with the kind and, if given, the value asked for, and then returns it; the error names the token found |
| PoliteParser.PrimaryAt | syntax_temp.py:162-177 | a LITERAL or IDENTIFIER token becomes its leaf, a primary consumes at least one token and is never itself an operator application, the end of the tokens is `NoToken`, and any token other than these and `(` raises "Expected expression" naming it |
| PoliteParser.OperatorsAt | syntax_temp.py:150-156 | the operator loop stops only where no OPERATOR token follows, and its result nests to the left |
| PoliteParser.ExpressionAt | syntax_temp.py:146-158 | an expression consumes at least one token, nests to the left and is never followed by an OPERATOR |
| PoliteParser.AssignmentAt | syntax_temp.py:70-76 | an assignment is exactly `pls`, an IDENTIFIER, an OPERATOR `=`, an expression and `thanks~`, and assigns to that identifier |
| PoliteParser.PrintAt | syntax_temp.py:82-88 | a print statement is exactly the command keyword, `(`, an expression, `)` and `thanks~`, and prints with that command |
| PoliteParser.BracedAt | syntax_temp.py:97-99 | a braced body starts with `{` and ends with `}` |
| PoliteParser.ElseAt | syntax_temp.py:101-106 | the else part is parsed exactly when the next token's value is `otherwise`, whatever its kind; otherwise nothing is read |
| PoliteParser.IfAt | syntax_temp.py:92-108 | an if statement starts with `Check (` and yields an if statement |
| PoliteParser.WhileAt | syntax_temp.py:112-120 | a while statement starts with `During (` and yields a while statement |
| PoliteParser.ForAt | syntax_temp.py:124-132 | a `Given` statement parses only with `in` as a KEYWORD token third |
| PoliteParser.StatementAt | syntax_temp.py:47-66 | a statement starts with one of the seven statement keywords, and the statement built is the one that keyword leads; the end of the tokens is `NoToken`, and any other leading token raises "Unexpected statement" naming it |
| PoliteParser.BlockAt | syntax_temp.py:136-140 | a block stops, without consuming it, at the first SEPARATOR token or at the end |
| PoliteParser.RenderExpr | syntax_temp.py:154-175 | the text of an expression is parenthesised exactly for operator applications and groups |
| PoliteParser.RenderStmt | syntax_temp.py:70-132 | the f-string of each statement opens with its kind's name (`Assignment(name = `, the capitalised print command, `If(`, `While(`, `ForEach(name in `); an assignment or print closes with `)`, a loop with its body's list |
| PoliteParser.RenderElse | syntax_temp.py:101-108 | the else part shows as `None` exactly when there is none |
| PoliteParser.RenderList | syntax_temp.py:108-120 | Python's `str` of a list of statement texts is bracketed, and is `[]` exactly for no statements |
| PoliteParser.RenderItems | syntax_temp.py:108-120 | the items of the list display are empty exactly for no statements, and otherwise open with a quote |
| PoliteParser.Capitalize | syntax_temp.py:88 | `str.capitalize` keeps the length and the letters, with the first not in lower case and the rest not in upper case |
| PoliteParser.ReprChar | syntax_temp.py:108 | one character of a `repr`: the character itself or an escape starting with a backslash, never the bare quote |
| PoliteParser.ReprCharRead | syntax_temp.py:108 | an escaped character followed by readable text reads back as that character and the text |
| PoliteParser.ReprBody | syntax_temp.py:108 | the escaped body of a `repr` reads back, under Python's escape rules, as the original text |
| PoliteParser.Repr | syntax_temp.py:108 | `repr` of a statement text: single quotes unless it holds `'` and no `"`, and the text between the quotes reads back as the original |
| PoliteParser.ProgramFrom | syntax_temp.py:33-37 | the program loop from a position: at most one statement per token, a non-empty list led by the statement at that position, or that statement's error |
| PoliteParser.Program | syntax_temp.py:33-37 | a program never has more statements than tokens |
| PoliteParser.Parser.constructor | syntax_temp.py:12-14 | a new parser holds the tokens with the cursor at 0 |
| PoliteParser.Parser.CurrentToken | syntax_temp.py:17-18 | the token under the cursor, or none past the end |
| PoliteParser.Parser.Advance | syntax_temp.py:20-21 | the cursor moves by one |
| PoliteParser.Parser.Expect | syntax_temp.py:23-29 | agrees with `ExpectAt`, advancing exactly one token on success and none on failure |
| PoliteParser.Parser.ParseProgram | syntax_temp.py:33-37 | returns what `ProgramFrom` specifies, and on success has consumed every token |
| PoliteParser.Parser.ParseStatement | syntax_temp.py:47-66 | agrees with `StatementAt` |
| PoliteParser.Parser.ParseAssignment | syntax_temp.py:70-76 | agrees with `AssignmentAt` |
| PoliteParser.Parser.ParsePrint | syntax_temp.py:82-88 | agrees with `PrintAt` |
| PoliteParser.Parser.ParseBraced | syntax_temp.py:97-99 | agrees with `BracedAt` |
| PoliteParser.Parser.ParseIf | syntax_temp.py:92-108 | agrees with `IfAt` |
| PoliteParser.Parser.ParseElse | syntax_temp.py:101-106 | agrees with `ElseAt` |
| PoliteParser.Parser.ParseWhile | syntax_temp.py:112-120 | agrees with `WhileAt` |
| PoliteParser.Parser.ParseFor | syntax_temp.py:124-132 | agrees with `ForAt` |
| PoliteParser.Parser.ParseProgramBlock | syntax_temp.py:136-140 | the statement loop agrees with `BlockAt` |
| PoliteParser.Parser.ParseExpression | syntax_temp.py:146-158 | the operator loop agrees with `ExpressionAt` |
| PoliteParser.Parser.ParsePrimary | syntax_temp.py:162-177 | agrees with `PrimaryAt` |
| PoliteParser.BlockAtStep | syntax_temp.py:138-139 | one iteration of the block loop: a statement and then the rest of the block, or the statement's error |
| PoliteParser.ProgramFromStep | syntax_temp.py:35-36 | one iteration of the program loop: a statement and then the rest of the program, or the statement's error |
| PoliteParserProps.ChainSplit | syntax_temp.py:146-158 | the tokens of an operator chain are its first operand's tokens followed by the rest of the chain |
| PoliteParserProps.PrimaryRoundTrip | syntax_temp.py:162-177 | the tokens of a literal, identifier or group parse back to it |
| PoliteParserProps.ChainRoundTrip | syntax_temp.py:150-156 | the operator loop over a chain's tokens rebuilds the chain on top of whatever operand it starts from |
| PoliteParserProps.ExpressionRoundTrip | syntax_temp.py:146-158 | the tokens of a left-nested expression parse back to it, ending where they end |
| PoliteParserProps.ConditionRoundTrip | syntax_temp.py:94-96 | `( cond )` reads back its condition between the parentheses |
| PoliteParserProps.StatementRoundTrip | syntax_temp.py:47-66 | the tokens of a well-formed statement parse back to it |
| PoliteParserProps.AssignmentRoundTrip | syntax_temp.py:70-76 | the tokens of an assignment parse back to it |
| PoliteParserProps.PrintRoundTrip | syntax_temp.py:82-88 | the tokens of a print statement parse back to it |
| PoliteParserProps.IfRoundTrip | syntax_temp.py:92-108 | the tokens of an if statement parse back to it when no `otherwise` follows them |
| PoliteParserProps.IfTailRoundTrip | syntax_temp.py:97-106 | the then-body and else part of an if statement read back |
| PoliteParserProps.WhileRoundTrip | syntax_temp.py:112-120 | the tokens of a while statement parse back to it |
| PoliteParserProps.ForRoundTrip | syntax_temp.py:124-132 | the tokens of a `Given` statement, with `in` as a keyword, parse back to it |
| PoliteParserProps.ElseRoundTrip | syntax_temp.py:101-106 | the tokens of an else part parse back to it |
| PoliteParserProps.BracedRoundTrip | syntax_temp.py:97-99 | the tokens of a braced body parse back to it |
| PoliteParserProps.BlockRoundTrip | syntax_temp.py:136-140 | the tokens of a statement list parse back to it when a separator or the end follows |
| PoliteParserProps.BlockConsRoundTrip | syntax_temp.py:136-140 | a statement followed by a statement list reads back as one list |
| PoliteParserProps.NextStatement | syntax_temp.py:102 | the token after a statement is never `otherwise` unless what follows the list is |
| PoliteParserProps.ProgramRoundTripFrom | syntax_temp.py:33-37 | the tokens of a statement list parse back to it as a program from any position |
| PoliteParserProps.ProgramRoundTrip | syntax_temp.py:33-37 | a well-formed program, written as tokens, parses back to itself |
| PolitePipeline.StatementGivenFree | syntax_temp.py:47-66 | without an `in` keyword among the tokens, no statement parsed holds a `Given` loop |
| PolitePipeline.IfGivenFree | syntax_temp.py:92-108 | without an `in` keyword, no if statement parsed holds a `Given` loop |
| PolitePipeline.ElseGivenFree | syntax_temp.py:101-106 | without an `in` keyword, no else part parsed holds a `Given` loop |
| PolitePipeline.WhileGivenFree | syntax_temp.py:112-120 | without an `in` keyword, no while statement parsed holds a `Given` loop |
| PolitePipeline.BracedGivenFree | syntax_temp.py:97-99 | without an `in` keyword, no braced body parsed holds a `Given` loop |
| PolitePipeline.BlockGivenFree | syntax_temp.py:136-140 | without an `in` keyword, no block parsed holds a `Given` loop |
| PolitePipeline.ProgramGivenFree | syntax_temp.py:33-37 | without an `in` keyword, no program parsed holds a `Given` loop |
| PolitePipeline.GivenNeverParses | syntax_temp.py:124-132 | whatever the text, a program parsed from the tokenizer's tokens holds no `Given` loop, because the keyword set of lexical.py:36-48 lacks `in` |
| PolitePipeline.LeftFoldExample | syntax_temp.py:150-156 | `1 + 2 + 3` parses as `(1 + 2) + 3` |
| PolitePipeline.LeftFoldRendering | syntax_temp.py:154-156 | the folded `1 + 2 + 3` renders as `((Literal(1) + Literal(2)) + Literal(3))` |
| CTokens.AlnumEnd | lexical_temp.py:69-73 | the alphanumeric loop stops inside the text, and advances when it starts on an alphanumeric character |
| CTokens.AlnumEndSpec | lexical_temp.py:69-73 | every character up to where the alphanumeric loop stops is alphanumeric, and the one it stops at is not |
| CTokens.AlnumEndIs | lexical_temp.py:69-73 | any position ending a maximal alphanumeric run is where the loop stops |
| CTokens.ReadAlnum | lexical_temp.py:69-73 | the loop stops where `AlnumEnd` says |
| CTokens.ReadNumber | lexical_temp.py:82-92 | the digit loop stops where `NumberEnd` says |
| CTokens.ReadIllegal | lexical_temp.py:98-104 | the illegal-identifier loop appends exactly the alphanumeric run after the number |
| CTokens.WordScanIs | lexical_temp.py:67-78 | a maximal alphanumeric word becomes KEYWORD exactly when it is listed, IDENTIFIER otherwise (no `_`) |
| CTokens.NumberScanIs | lexical_temp.py:81-115 | a maximal number not followed by a letter is FLOAT_LITERAL exactly when it holds a `.`, INTEGER_LITERAL otherwise |
| CTokens.NumberScanIllegal | lexical_temp.py:94-107 | a number followed by a letter-led alphanumeric run becomes one ILLEGAL_IDENTIFIER spanning both |
| CTokens.WordScanWellFormed | lexical_temp.py:67-78 | the word branch always emits a well-formed keyword or identifier |
| CTokens.NumberScanWellFormed | lexical_temp.py:81-115 | the number branch always emits a well-formed literal or illegal identifier |
| NumberRuns.NumberEnd | lexical_temp.py:84-92 | the number loop stops inside the text, and advances when it starts on a digit |
| NumberRuns.NumberEndSpec | lexical_temp.py:84-92 | what the number loop reads holds at most one `.`, and it stops at a non-digit that is not a first `.` |
| NumberRuns.NumberEndIs | lexical_temp.py:84-92 | any maximal digit run with at most one `.` ends where the loop stops |
| NumberRuns.NumberEndAt | lexical.py:164-174 | a number text in the source, not followed by a digit or by a second `.`, is exactly what the loop reads |
| LexicalTemp.Step | lexical_temp.py:58-140 | each iteration of the scan moves the cursor forward and never past the end of the text |
| LexicalTemp.SymbolKind | lexical_temp.py:118-140 | a one-character token is the ASSIGNMENT exactly for `=`, an OPERATOR exactly for `+-*/<>`, a SEPARATOR exactly for `();{}`, PUNCTUATION exactly for `!"'`, and UNKNOWN otherwise |
| LexicalTemp.LexFrom | lexical_temp.py:55-142 | the tokens of the scan from a position: at most one per character left |
| LexicalTemp.Lex | lexical_temp.py:55-142 | the tokens of a whole text: never more than it has characters |
| LexicalTemp.LexFromAfterScan | lexical_temp.py:58-142 | the tokens from a position are what the iteration there emits followed by the tokens from where it leaves the cursor |
| LexicalTemp.LexicalAnalyzer.constructor | lexical_temp.py:32-34 | a new analyzer holds the input with the cursor at 0 |
| LexicalTemp.LexicalAnalyzer.Tokenize | lexical_temp.py:55-142 | the loop returns exactly the tokens the scan specifies and leaves the cursor exactly at the end of the input |
| LexicalTemp.LexicalAnalyzer.ScanOne | lexical_temp.py:59-140 | one pass through the branches emits the token and moves the cursor as `Step` specifies |
| LexicalTemp.StepWellFormed | lexical_temp.py:59-140 | every token one iteration emits has the shape its branch gives it; symbols are single characters of their class, advancing by one |
| LexicalTemp.LexFromWellFormed | lexical_temp.py:55-142 | every token of the scan from any position is well formed |
| LexicalTemp.LexWellFormed | lexical_temp.py:55-142 | every token is well formed, every ASSIGNMENT token is `=`, and every OPERATOR is one character of `+-*/<>` |
| LexicalTemp.LessEqualExample | lexical_temp.py:118-125 | `<=` scans as an OPERATOR `<` and an ASSIGNMENT `=` |
| LexicalTemp.UnderscoreExample | lexical_temp.py:67-140 | `_` is not a word character: `a_b` scans as two identifiers around an UNKNOWN `_` |
| LexicalInitial.Step | lexical_initial.py:50-117 | each iteration of the scan moves the cursor forward and never past the end of the text |
| LexicalInitial.SymbolKind | lexical_initial.py:100-117 | a one-character token is an OPERATOR exactly for `+=*/<>`, a SEPARATOR exactly for `();{}`, PUNCTUATION exactly for `!"'`, UNKNOWN otherwise, and never the ASSIGNMENT |
| LexicalInitial.LexFrom | lexical_initial.py:47-119 | the tokens of the scan from a position: at most one per character left |
| LexicalInitial.Lex | lexical_initial.py:47-119 | the tokens of a whole text: never more than it has characters |
| LexicalInitial.LexFromAfterScan | lexical_initial.py:50-119 | the tokens from a position are what the iteration there emits followed by the tokens from where it leaves the cursor |
| LexicalInitial.LexicalAnalyzer.constructor | lexical_initial.py:29-32 | a new analyzer holds the input with the cursor at 0 |
| LexicalInitial.LexicalAnalyzer.Tokenize | lexical_initial.py:47-119 | the loop returns exactly the tokens the scan specifies and leaves the cursor exactly at the end of the input |
| LexicalInitial.LexicalAnalyzer.ScanOne | lexical_initial.py:51-117 | one pass through the branches emits the token and moves the cursor as `Step` specifies |
| LexicalInitial.StepWellFormed | lexical_initial.py:51-117 | every token one iteration emits has the shape its branch gives it |
| LexicalInitial.LexFromWellFormed | lexical_initial.py:47-119 | every token of the scan from any position is well formed |
| LexicalInitial.LexWellFormed | lexical_initial.py:47-119 | every token is well formed, none is an ASSIGNMENT, and every OPERATOR is one character of `+=*/<>` |
| LexicalInitial.LessEqualExample | lexical_initial.py:100-102 | `<=` scans as two OPERATOR tokens |
| LexicalInitial.MinusExample | lexical_initial.py:100-117 | `-` is not an operator and scans as UNKNOWN |
| SourceChecks.CheckMatchingBracket | lexical_initial.py:127-145 | returns true exactly when the stack run over the text ends empty without a mismatch, and exactly when the brackets are properly nested |
| SourceChecks.BracketStep | lexical_initial.py:132-138 | one character of the bracket loop: only a closer can fail, the stack grows by one on an opener and shrinks by one on a matched closer, and it only ever holds openers |
| SourceChecks.Run | lexical_initial.py:131-138 | the bracket loop over a stretch of text: a closer met first on an empty stack fails it, and the stack only ever holds openers |
| SourceChecks.Balanced | lexical_initial.py:131-145 | what the bracket check accepts: the loop never returns early and ends with an empty stack, so an accepted text neither starts with a closer nor ends with an opener |
| SourceChecks.BalancedIsMatched | lexical_initial.py:127-145 | the stack check and the recursive nesting predicate agree on every text |
| SourceChecks.FirstBracket | lexical_initial.py:131-134 | the first bracket in a range, with none before it |
| SourceChecks.RunSplit | lexical_initial.py:131-138 | running the stack over two adjacent stretches is running it over their union |
| SourceChecks.RunStaysFailed | lexical_initial.py:136-138 | once a mismatch returns early, no further text changes the outcome |
| SourceChecks.RunNoBrackets | lexical_initial.py:131-134 | text without brackets leaves the stack unchanged |
| SourceChecks.MatchedRun | lexical_initial.py:131-138 | properly nested text leaves any stack unchanged |
| SourceChecks.RunMatched | lexical_initial.py:131-145 | text the stack run reads from empty to empty is properly nested |
| SourceChecks.FindClose | lexical_initial.py:134-138 | an opening bracket that the run later closes has a matching closer with balanced text inside and after |
| SourceChecks.CheckSemicolon | lexical_initial.py:148-154 | returns true exactly when every `}` after index 0 directly follows a `;` |
| SourceChecks.SemicolonsConcat | lexical_initial.py:148-154 | the semicolon rule holds for joined texts exactly when it holds for each and at the seam |
| CParser.ExpectAt | syntax.py:49-54 | succeeds exactly when the token at the cursor exists with the kind and, if given, the value asked for, and returns it; the error names the kind, value and token found |
| CParser.TermAt | syntax.py:79-95 | literals become LITERAL leaves, identifiers IDENTIFIER leaves, nothing past the end, a term is always an expression tree, and any token other than these and `(` raises "Unexpected token" naming it |
| CParser.OperatorsAt | syntax.py:69-76 | the operator loop builds an expression tree and stops only where no OPERATOR follows |
| CParser.ExpressionAt | syntax.py:67-77 | an expression is a tree of two-child BINARY_OP nodes over leaves and is never followed by an OPERATOR |
| CParser.AssignmentAt | syntax.py:57-64 | an assignment reads an identifier, an ASSIGNMENT `=`, an expression and `;`, and is an ASSIGNMENT node whose first child is the identifier |
| CParser.PrintAt | syntax.py:131-138 | a print statement starts with `print` and is a PRINT node without assignments |
| CParser.DeclarationAt | syntax.py:141-151 | a declaration accepts only `int` and `float`, rejects any other keyword type, and has the value "type name" |
| CParser.BlockAt | syntax.py:104-106 | a branch is one statement between `{` and `}` |
| CParser.ConditionAt | syntax.py:101-103 | a condition is an expression tree without assignments between a `(` token and a `)` token, and without a leading `(` it fails |
| CParser.ConditionalAt | syntax.py:98-116 | a conditional starts with `if` and is a CONDITIONAL statement; an assignment inside comes from an ASSIGNMENT token in its tokens |
| CParser.ElseAt | syntax.py:107-115 | an else branch is read exactly when an `else` KEYWORD follows |
| CParser.WhileAt | syntax.py:119-128 | a while loop starts with `while` and is a LOOP node |
| CParser.StatementAt | syntax.py:154-166 | a statement is a well-formed statement tree; an end of tokens or any other leading token fails |
| CParser.ParseFrom | syntax.py:169-173 | every statement parsed is well formed, there is at most one per token left, and an assignment node needs an ASSIGNMENT token in the input |
| CParser.Parse | syntax.py:169-173 | every statement of the program is well formed, there are never more statements than tokens, and a failing first statement is the program's error |
| CParser.ExprHasNoAssignment | syntax.py:67-95 | no expression tree holds an ASSIGNMENT node |
| CParser.ConditionalShape | syntax.py:98-116 | a CONDITIONAL node over a condition and one or two branches is a statement whose assignments lie in its branches |
| CParser.Parser.constructor | syntax.py:39-41 | a new parser holds the tokens with the cursor at 0 |
| CParser.Parser.CurrentToken | syntax.py:43-44 | the token under the cursor, or none past the end |
| CParser.Parser.Advance | syntax.py:46-47 | the cursor moves by one |
| CParser.Parser.Expect | syntax.py:49-54 | agrees with `ExpectAt`, advancing exactly one token on success and leaving the cursor on failure |
| CParser.Parser.Parse | syntax.py:169-173 | returns what `ParseFrom` specifies, and on success has consumed every token |
| CParser.Parser.ParseStatement | syntax.py:154-166 | agrees with `StatementAt` |
| CParser.Parser.ParseAssignment | syntax.py:57-64 | agrees with `AssignmentAt` |
| CParser.Parser.ParseDeclaration | syntax.py:141-151 | agrees with `DeclarationAt` |
| CParser.Parser.ParsePrint | syntax.py:131-138 | agrees with `PrintAt` |
| CParser.Parser.ParseConditional | syntax.py:98-116 | agrees with `ConditionalAt` |
| CParser.Parser.ParseElse | syntax.py:107-115 | agrees with `ElseAt` |
| CParser.Parser.ParseWhile | syntax.py:119-128 | agrees with `WhileAt` |
| CParser.Parser.ParseCondition | syntax.py:101-103 | agrees with `ConditionAt` |
| CParser.Parser.ParseBlock | syntax.py:104-106 | agrees with `BlockAt` |
| CParser.Parser.ParseExpression | syntax.py:67-77 | the operator loop agrees with `ExpressionAt` |
| CParser.Parser.ParseTerm | syntax.py:79-95 | agrees with `TermAt` |
| CParser.ParseFromStep | syntax.py:171-172 | one iteration of the loop of `parse`: a statement and then the rest, or the statement's error |
| CParserProps.ChainSplit | syntax.py:67-77 | the tokens of an operator chain are its first operand's tokens followed by the rest of the chain |
| CParserProps.TermLeafRoundTrip | syntax.py:81-89 | a literal or identifier token reads back as its leaf |
| CParserProps.OperandRoundTrip | syntax.py:79-95 | the tokens of an operand, parenthesised when compound, read back to it |
| CParserProps.ParenthesizedTerm | syntax.py:90-94 | a parenthesised expression reads back as the inner node itself |
| CParserProps.OperatorStep | syntax.py:69-76 | one iteration of the operator loop makes a BINARY_OP node over the left tree and the next term |
| CParserProps.ChainRoundTrip | syntax.py:69-76 | the operator loop over a chain's tokens rebuilds the chain on top of whatever operand it starts from |
| CParserProps.ExpressionRoundTrip | syntax.py:67-77 | the tokens of an expression tree parse back to it |
| CParserProps.ConditionRoundTrip | syntax.py:101-103 | `( e )` reads back its expression |
| CParserProps.BlockRoundTrip | syntax.py:104-106 | `{ s }` reads back its statement |
| CParserProps.StatementRoundTrip | syntax.py:154-166 | the tokens of a well-formed statement tree parse back to it |
| CParserProps.AssignmentRoundTrip | syntax.py:57-64 | the tokens of an assignment parse back to it |
| CParserProps.DeclarationRoundTrip | syntax.py:141-151 | the tokens of a declaration parse back to it |
| CParserProps.PrintRoundTrip | syntax.py:131-138 | the tokens of a print statement parse back to it |
| CParserProps.WhileRoundTrip | syntax.py:119-128 | the tokens of a while loop parse back to it |
| CParserProps.ConditionalRoundTrip | syntax.py:98-116 | the tokens of a conditional, with or without else, parse back to it when no `else` follows them |
| CParserProps.ElseRoundTrip | syntax.py:107-115 | the tokens of an else branch read back, and no tokens read back as no branch |
| CParserProps.IfHeadRoundTrip | syntax.py:100-106 | the condition and then-branch of a conditional read back |
| CParserProps.ConditionalParts | syntax.py:98-116 | a well-formed CONDITIONAL node is rebuilt from its condition, then-branch and optional else-branch |
| CParserProps.DeclarationValue | syntax.py:147 | a declaration's value splits into an accepted type and the name |
| CParserProps.ParseRoundTripFrom | syntax.py:169-173 | the tokens of a statement list parse back to it from any position |
| CParserProps.ParseRoundTrip | syntax.py:169-173 | a list of well-formed statements, written as tokens, parses back to itself |
| CParserProps.ParenthesizedLeftOperand | syntax.py:90-94 | parentheses around a left operand leave no node: `(a op b) op' c` reads as the same tree as `a op b op' c` |
| CParserProps.BlockHoldsOneStatement | syntax.py:104-106 | a branch holds one statement: a second one before `}` is an error naming it |
| CParserProps.InitialLexerParsesNoAssignment | lexical_initial.py:100-102 | nothing parsed from `lexical_initial.py`'s tokens holds an assignment or declaration, since `=` is an OPERATOR there |

## Left out

- `print` diagnostics in the tokenizers and checks, and the `__main__` demo blocks with the `while True` driver: console output and I/O, no effect on results.
- `Token.__str__` and `ASTNode.__repr__`: presentation only.
- `syntax_temp.py`'s f-string results are modelled as `Expr`/`Stmt` values. `RenderExpr`/`RenderStmt` give back the text, including Python's `repr` of a list of strings. The repr escapes are modelled on ASCII, and characters above 127 are kept as they are. The round trips are stated on the values; the text carries only its shape and the `repr` read-back.
- Unicode semantics of `isspace`, `isalpha`, `isdigit`, `isalnum`: modelled as ASCII character classes.
- The broken cross-file imports (`syntax_temp.py:2`, `syntax.py:3`): each parser is modelled over the token kinds it uses. The PoliteLang parser uses `lexical.py`'s tokens; `syntax.py` uses `lexical_temp.py`'s.
- Iteration order of `lexical.py`'s operator set: the model searches a fixed order, longest first. At most one operator of each length can match at one position.
- `ASTNode.add_child` in place: nodes are built once, fresh, and never shared, so they are modelled as values.
- `lexical_temp.py`'s helper methods `is_alpha` and `is_digit`, and `lexical_initial.py`'s `is_alpha`, `is_digit` and `is_alphanumeric`: they are never called.
- `print_tokens`: output only.
- Python's `AttributeError` on reading a missing token is the error value `NoToken`. The Python message text of each `SyntaxError` is represented by the error's fields, not its string.
