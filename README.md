# COBOL recognition grammar and function assembler

Cobol2XML reads COBOL source line by line, splits each line into tokens and
hands the tokens to the parser that `CobolParser.start()` returns. That
parser is an alternation of six token-level rules and an empty fallback:

- ProgramID: `program-id . <name>`
- DivisionName: `<name> division .`
- SectionName: `<name> section .`
- DateWritten: `date-written . <day> - <month-year> - <initials> .`
- CommentLine: `* * * - - - <word>`
- Function: `<name> .`

Every rule states which tokens it accepts, which of them it consumes and
which it keeps on the assembly stack. A terminal marked `discard()` is
consumed but not kept. An assembler attached to a terminal or to a sequence
runs when that part has matched. The one assembler shown,
`FunctionAssembler`, pops the function name, trims it, and makes a new
`Cobol` document holding one function element, and makes that document
the assembly's target.

The model has six modules in five files:

- `Tokens` (tokens.dfy) holds the token datatype and the string operations:
  the string value `sval()`, ASCII case-insensitive equality and Java's
  `String.trim`. It also holds the tokenizer's one grammar setting, that a
  space is not a word character.
- `Engine` (engine.dfy) is a minimal parser engine with terminals, sequences,
  a longest-match alternation and the empty parser. A match is a pure
  function from the tokens after the cursor to an `Outcome`: the number of
  tokens consumed, the tokens pushed and the assemblers that fired.
- `CobolGrammar` (grammar.dfy) holds the six rules as datatype values, the
  `cobol()`/`start()` alternation in declaration order, one lemma per rule
  giving its exact match, and `StartSelects`, which says what `start()`
  returns on every input.
- `Assemblies` and `FunctionAssembler` (assembly.dfy) hold the mutable side.
  `Assembly` is a class with a token cursor, a stack (a `seq`, top at the
  end) and a target `Cobol` document. `FunctionAssembler.WorkOn` is a method
  on it. `MatchAndAssemble` applies `start()` to an assembly and runs the
  function assembler when the Function rule was selected.
- `CobolScenarios` (scenarios.dfy) works seven concrete tokenized lines
  through the grammar.

The `parse.*` library is not part of this model. The engine states, as
assumptions, the behaviour of that library the grammar relies on:

- A `Word`, `Num` or `Symbol` terminal accepts one token of its kind; a
  `Symbol` must have the same text.
- A `CaselessLiteral` accepts a word equal to its literal ignoring the case
  of ASCII letters.
- A terminal pushes its token unless it is marked `discard()`.
- A `Sequence` matches its parts one after another and fails if any part
  fails.
- An `Alternation` tries every alternative on the same input. The match that
  consumed the most tokens is kept; on a tie the first declared wins.
- `Empty` consumes nothing, pushes nothing and never fails.
- An attached assembler fires as soon as its parser has matched: a
  terminal's before its sequence's, and the terminals' in order. It sees only
  the tokens pushed up to that point. Each `Firing` records this depth: how
  many of the match's pushed tokens were on the stack when the assembler ran.
  A terminal's assembler sees the tokens pushed by its own terminal and by
  every earlier part of its sequence. Only the selected match's assemblers
  have an effect.
- `Token.sval()` of a number token is the empty string.
- `Assembly.pop()` on an empty stack raises an exception.
- Applying a parser to an assembly commits its selected match: the cursor
  moves past the consumed tokens and the kept tokens are pushed. A parser
  that fails leaves the assembly as it was.

Function accepts any word followed by a stop, so it also matches the start
of a ProgramID or DateWritten line. Longest match lets the full header win
(`StartFiresFunction`). A header cut short is therefore recognised as a
function named by its keyword: `PROGRAM-ID.` with no name, or a date line
without the author's initials (`ProgramIdWithoutName`,
`DateWrittenWithoutInitials`). The comment at CobolParser.java:173 asks how
to tell a function from `program-id`; the grammar does not tell them apart.

`FunctionAssembler` calls Java's `String.trim`. That method removes every
leading and trailing character up to U+0020, not only whitespace, and
`Tokens.Trim` does the same.

## Model

| member | source | states |
|---|---|---|
| Tokens.Trim | Cobol2XML/src/cobol/FunctionAssembler.java:11 | the trimmed name is a contiguous slice of the string value, everything outside it is a character up to U+0020, and it neither begins nor ends with such a character |
| Tokens.TrimIdempotent | Cobol2XML/src/cobol/FunctionAssembler.java:11 | trimming the recorded name again changes nothing |
| Tokens.TrimOfTrimmed | Cobol2XML/src/cobol/FunctionAssembler.java:11 | a string with no trimmable character at either end is its own trim |
| Tokens.TrimmedWordHasNoSpace | Cobol2XML/src/cobol/CobolParser.java:202-206 | under the COBOL tokenizer, where a space is not a word character, the trimmed string value of a word holds no space |
| Engine.Qualifies | Cobol2XML/src/cobol/CobolParser.java:74-76 | a `Word` terminal accepts any word, a `Num` any number, a `Symbol` only a symbol with its own text, and a `CaselessLiteral` a word equal to its literal ignoring ASCII case |
| Engine.Parse | Cobol2XML/src/cobol/CobolParser.java:44-64 | a parser never consumes more tokens than remain and never pushes more than it consumed |
| Engine.ParseSeqTerminals | Cobol2XML/src/cobol/CobolParser.java:72-78 | a sequence of terminals succeeds exactly when each terminal accepts the token at its position; it then consumes one token per terminal and pushes those of the terminals that do not discard |
| Engine.SequenceOfTerminals | Cobol2XML/src/cobol/CobolParser.java:168-182 | a sequence of terminals pushes the tokens at its non-discarding positions, and fires the terminals' assemblers and then the sequence's own |
| Engine.ParseDepths | Cobol2XML/src/cobol/CobolParser.java:72-182 | every assembler that fires during a match sees at most the tokens that match pushed |
| Engine.NoHooks | Cobol2XML/src/cobol/CobolParser.java:117-141 | terminals without an attached assembler fire nothing |
| Engine.HooksFromShift | Cobol2XML/src/cobol/CobolParser.java:72-182 | a terminal's firing depth counts the tokens pushed by every earlier part of its sequence |
| Engine.HooksFromDrop | Cobol2XML/src/cobol/CobolParser.java:72-182 | the firings of a sequence's later terminals do not depend on the terminals before them, apart from the depth they start at |
| Engine.AlternationFails | Cobol2XML/src/cobol/CobolParser.java:44-64 | an alternation fails exactly when every alternative fails |
| Engine.AlternationBounded | Cobol2XML/src/cobol/CobolParser.java:44-64 | an alternation never consumes more than its longest alternative |
| Engine.AlternationPicks | Cobol2XML/src/cobol/CobolParser.java:44-64 | the alternation returns the match of the alternative that consumed the most, the first declared on a tie |
| Engine.Alternation7 | Cobol2XML/src/cobol/CobolParser.java:50-62 | a seven-way alternation is the chain of longest-match choices among its alternatives in declaration order |
| CobolGrammar.ProgramIDParts | Cobol2XML/src/cobol/CobolParser.java:73-76 | ProgramID's parts: caseless "program-id", a discarded '.', and a word carrying the program-id assembler |
| CobolGrammar.ProgramID | Cobol2XML/src/cobol/CobolParser.java:72-78 | ProgramID is the sequence of those parts with no assembler of its own |
| CobolGrammar.DivisionNameParts | Cobol2XML/src/cobol/CobolParser.java:89-92 | DivisionName's parts: a word carrying the division assembler, caseless "division" and a discarded '.' |
| CobolGrammar.DivisionName | Cobol2XML/src/cobol/CobolParser.java:88-94 | DivisionName is the sequence of those parts with no assembler of its own |
| CobolGrammar.SectionNameParts | Cobol2XML/src/cobol/CobolParser.java:103-106 | SectionName's parts: a word carrying the section-name assembler, caseless "section" and a discarded '.' |
| CobolGrammar.SectionName | Cobol2XML/src/cobol/CobolParser.java:102-109 | SectionName is the sequence of those parts with no assembler of its own |
| CobolGrammar.DateWrittenParts | Cobol2XML/src/cobol/CobolParser.java:119-137 | DateWritten's eight parts in order; the two stops, both hyphens and the second word are discarded |
| CobolGrammar.DateWritten | Cobol2XML/src/cobol/CobolParser.java:117-141 | DateWritten is the sequence of those parts, carrying the date assembler |
| CobolGrammar.CommentLineParts | Cobol2XML/src/cobol/CobolParser.java:153-160 | CommentLine's parts: three '*', three '-' and a word carrying the comment-line assembler; nothing is discarded |
| CobolGrammar.CommentLine | Cobol2XML/src/cobol/CobolParser.java:151-163 | CommentLine is the sequence of those parts with no assembler of its own |
| CobolGrammar.FunctionParts | Cobol2XML/src/cobol/CobolParser.java:169-178 | Function's parts: a word and a discarded '.' |
| CobolGrammar.Function | Cobol2XML/src/cobol/CobolParser.java:168-182 | Function is the sequence of those parts, carrying the function assembler |
| CobolGrammar.Rules | Cobol2XML/src/cobol/CobolParser.java:50-62 | the alternatives of `cobol()` in the order they are added, ending with Empty |
| CobolGrammar.Cobol | Cobol2XML/src/cobol/CobolParser.java:44-64 | `cobol()` is the alternation of those rules |
| CobolGrammar.Start | Cobol2XML/src/cobol/CobolParser.java:191-193 | `start()` is `cobol()` |
| CobolGrammar.ProgramIDFits | Cobol2XML/src/cobol/CobolParser.java:72-78 | ProgramID's terminals accept exactly "program-id" ignoring case, then '.', then a word |
| CobolGrammar.ProgramIDHooks | Cobol2XML/src/cobol/CobolParser.java:72-78 | the program-id assembler fires once, on the name word, with the keyword and the name on the stack (depth 2) |
| CobolGrammar.ProgramIDMatches | Cobol2XML/src/cobol/CobolParser.java:72-78 | ProgramID matches exactly on that shape, consumes 3 tokens, keeps the keyword and the name (the '.' is discarded) and fires the program-id assembler; otherwise it fails |
| CobolGrammar.DivisionNameFits | Cobol2XML/src/cobol/CobolParser.java:88-94 | DivisionName's terminals accept exactly a word, then "division" ignoring case, then '.' |
| CobolGrammar.DivisionNameHooks | Cobol2XML/src/cobol/CobolParser.java:88-94 | the division assembler fires once, on the leading word, when only the name is on the stack (depth 1) |
| CobolGrammar.DivisionNameMatches | Cobol2XML/src/cobol/CobolParser.java:88-94 | DivisionName matches exactly on that shape, consumes 3 tokens, keeps the name and the keyword but not the stop, and fires the division assembler when only the name has been pushed |
| CobolGrammar.SectionNameFits | Cobol2XML/src/cobol/CobolParser.java:102-109 | SectionName's terminals accept exactly a word, then "section" ignoring case, then '.' |
| CobolGrammar.SectionNameHooks | Cobol2XML/src/cobol/CobolParser.java:102-109 | the section-name assembler fires once, on the leading word, when only the name is on the stack (depth 1) |
| CobolGrammar.SectionNameMatches | Cobol2XML/src/cobol/CobolParser.java:102-109 | SectionName matches exactly on that shape, consumes 3 tokens, keeps the name and the keyword, and fires the section-name assembler when only the name has been pushed |
| CobolGrammar.DateWrittenFits | Cobol2XML/src/cobol/CobolParser.java:117-141 | DateWritten's terminals accept exactly "date-written", '.', a number, '-', a word, '-', a word, '.' |
| CobolGrammar.DateWrittenKeeps | Cobol2XML/src/cobol/CobolParser.java:121-137 | DateWritten keeps exactly its parts 0, 2 and 4: the keyword, the number and the first word |
| CobolGrammar.DateWrittenHooks | Cobol2XML/src/cobol/CobolParser.java:117-141 | only the date assembler fires, after the whole sequence, with its three kept tokens on the stack (depth 3) |
| CobolGrammar.DateWrittenMatches | Cobol2XML/src/cobol/CobolParser.java:117-141 | DateWritten consumes 8 tokens and keeps exactly the keyword, the number and the first word, in that order; both hyphens, the second word and the stops are discarded; the date assembler fires |
| CobolGrammar.CommentLineFits | Cobol2XML/src/cobol/CobolParser.java:151-163 | CommentLine's terminals accept exactly three '*', three '-' and a word |
| CobolGrammar.CommentLineHooks | Cobol2XML/src/cobol/CobolParser.java:151-163 | the comment-line assembler fires once, on the trailing word, with all seven tokens on the stack (depth 7) |
| CobolGrammar.CommentLineMatches | Cobol2XML/src/cobol/CobolParser.java:151-163 | CommentLine consumes 7 tokens and keeps all of them, none of the six markers being discarded; the comment-line assembler fires |
| CobolGrammar.FunctionFits | Cobol2XML/src/cobol/CobolParser.java:168-182 | Function's terminals accept exactly a word followed by '.' |
| CobolGrammar.FunctionHooks | Cobol2XML/src/cobol/CobolParser.java:168-182 | only the function assembler fires, after the whole sequence, with the name on the stack (depth 1) |
| CobolGrammar.FunctionMatches | Cobol2XML/src/cobol/CobolParser.java:168-182 | Function consumes 2 tokens, keeps only the word, and fires the function assembler after the whole sequence |
| CobolGrammar.StartUnfolds | Cobol2XML/src/cobol/CobolParser.java:44-64 | `start()` is the longest-match choice among ProgramID, DivisionName, SectionName, DateWritten, CommentLine, Function and Empty, in that order |
| CobolGrammar.Recognized | Cobol2XML/src/cobol/CobolParser.java:44-182 | the outcome `start()` is proved to give (see `StartSelects`): the first rule whose token shape the input has, with that rule's consumed count, kept tokens and firing; the empty match otherwise |
| CobolGrammar.StartSelects | Cobol2XML/src/cobol/CobolParser.java:44-64 | on every input `start()` succeeds with the outcome `Recognized` gives: the first of the six rules whose shape the input has, or the empty match |
| CobolGrammar.StartOnStopAfterKeyword | Cobol2XML/src/cobol/CobolParser.java:50-60 | on a ProgramID or DateWritten input, `start()` returns that rule's match; Function also matches but consumes fewer tokens; DivisionName, SectionName and CommentLine fail, and so does one of ProgramID and DateWritten |
| CobolGrammar.StartOnSoleRule | Cobol2XML/src/cobol/CobolParser.java:52-58 | on a DivisionName, SectionName or CommentLine input, `start()` returns that rule's match; ProgramID, DateWritten and Function fail, and so do the other two of the three |
| CobolGrammar.DivisionSectionDisjoint | Cobol2XML/src/cobol/CobolParser.java:88-109 | no input matches both DivisionName and SectionName |
| CobolGrammar.FunctionRejectsWordAfterWord | Cobol2XML/src/cobol/CobolParser.java:168-182 | Function rejects every input whose second token is a word, so it rejects every DivisionName or SectionName input |
| CobolGrammar.ProgramIDBeatsFunction | Cobol2XML/src/cobol/CobolParser.java:50-60 | every ProgramID input also has a 2-token Function match, ProgramID consumes more, and `start()` returns the ProgramID match |
| CobolGrammar.DateWrittenBeatsFunction | Cobol2XML/src/cobol/CobolParser.java:56-60 | every DateWritten input also has a 2-token Function match, and `start()` returns the DateWritten match |
| CobolGrammar.StartNeverFails | Cobol2XML/src/cobol/CobolParser.java:44-64 | `start()` never fails; it consumes 0, 2, 3, 7 or 8 tokens; it consumes none exactly when all six rules fail, and then it pushes nothing and fires nothing |
| CobolGrammar.StartFiresFunction | Cobol2XML/src/cobol/CobolParser.java:50-62 | `start()` fires the function assembler exactly on a word followed by '.' that is not a ProgramID or DateWritten header, and then it keeps only the word |
| Assemblies.Cobol.AddFunctionElement | Cobol2XML/src/cobol/FunctionAssembler.java:11 | appends exactly one function element to the document |
| Assemblies.Assembly.Pop | Cobol2XML/src/cobol/FunctionAssembler.java:10 | removes exactly the top entry and returns it, leaving the entries below unchanged; an empty stack gives the exception case |
| Assemblies.Assembly.Match | Cobol2XML/src/cobol/CobolParser.java:34-43 | the assumed application of a parser to an assembly (see the list above): the cursor advances by the tokens the match consumed and its kept tokens are pushed; a failed parser leaves the assembly unchanged |
| FunctionAssembler.WorkOn | Cobol2XML/src/cobol/FunctionAssembler.java:8-13 | pops exactly one entry and leaves the entries below it unchanged; an empty stack or a non-token top ends in the exception case with the target untouched; otherwise the target is a fresh `Cobol` holding exactly one function element, the popped token's trimmed string value; the cursor never moves |
| FunctionAssembler.FunctionMatchLeavesName | Cobol2XML/src/cobol/CobolParser.java:172-179 | after a Function match the top of the stack is the function-name word, because the stop was discarded, and the entries below are the stack as before |
| FunctionAssembler.MatchAndAssemble | Cobol2XML/src/cobol/FunctionAssembler.java:8-13 | applying `start()` commits the `Recognized` outcome; when the function assembler fires, the stack ends as it was before the line and the target is a fresh document naming the matched word, trimmed; otherwise the kept tokens stay on the stack and the target is untouched |
| CobolScenarios.ProgramIdLine | Cobol2XML/src/cobol/CobolParser.java:72-78 | `PROGRAM-ID . hello` keeps `PROGRAM-ID` and `hello` and fires the program-id assembler |
| CobolScenarios.DivisionLine | Cobol2XML/src/cobol/CobolParser.java:88-94 | `IDENTIFICATION DIVISION .` keeps both words and fires the division assembler |
| CobolScenarios.DateWrittenLine | Cobol2XML/src/cobol/CobolParser.java:117-141 | `DATE-WRITTEN . 21 - jan-1995 - mb .` keeps the keyword, 21 and `jan-1995` |
| CobolScenarios.FunctionLine | Cobol2XML/src/cobol/CobolParser.java:168-182 | `main .` keeps `main` and fires the function assembler |
| CobolScenarios.ProgramIdWithoutName | Cobol2XML/src/cobol/CobolParser.java:168-182 | `PROGRAM-ID .` with no name is recognised as a function header named `PROGRAM-ID` |
| CobolScenarios.DateWrittenWithoutInitials | Cobol2XML/src/cobol/CobolParser.java:168-182 | a date line without the initials is recognised as a function header named `DATE-WRITTEN` |
| CobolScenarios.UnrecognizedLine | Cobol2XML/src/cobol/CobolParser.java:62 | a lone word matches no rule and falls back to the empty match |

## Left out

- The `parse.*` library (Alternation, Sequence, Empty, CaselessLiteral, Num, Symbol, Word, Tokenizer, Assembly) is not part of this model. The engine gives it only the semantics listed above, as assumptions.
- The engine returns only the selected match of a parser. It does not model a set of candidate assemblies, their copying, or assemblers running on candidates that are not selected.
- Character-level tokenization is left out. The input is a token sequence; of `tokenizer()` only the "a space is not a word character" setting is kept, as `Tokens.CobolTokenizer`.
- The assemblers other than `FunctionAssembler` (`Program_idAssembler`, `DivisionAssembler`, `SectionNameAssembler`, `DateAssembler`, `CommentLineAssembler`) are not part of this model. Their firing, and the number of tokens on the stack when each would run, is recorded in the outcome, but they are not run, so after such a match `MatchAndAssemble` leaves the kept tokens on the stack.
- The `Cobol` document is modelled only as its list of function elements. Its other fields and its XML output are not part of this model.
- A number token carries an integer where the library holds a double. No property here depends on the value.
- Tokens.EqualsIgnoreCase: folds only ASCII letters. The grammar's literals are ASCII, but Java also folds the case of other letters of a word.
- Reading files, driving the parser line by line, XML serialisation and the command line are I/O and are left out.
- The `fullstop` symbol built in `cobol()` (CobolParser.java:47-48) is never added to a rule and has no behaviour.
- The comment above `DateWritten` (CobolParser.java:111-115) names a different construct and is not modelled; the rule follows the code.
