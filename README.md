# CDSL visual tester — a verified Dafny model

CDSL is a small keyword language for describing combinatorics and probability problems:
card draws from a deck, balls drawn from an urn, words over an alphabet, chess pieces on a
board, numbers with digit conditions, divisibility and remainders, and integer equations.
A CDSL program is a sequence of lines; the tokenizer turns each line into tokens (keywords,
integers, quoted strings, digit positions `[1]`, operators), the recursive-descent parser
builds an abstract syntax tree of `ASTNode`s, and the interpreter walks the tree and fills
in a `ProblemContext`: the problem type, the deck, the target cards, the alphabet, the
urn, the numbers, and a free map of additional parameters. Image generators then read the
context back to draw a picture of the problem.

This project models that core:

* `tokens.dfy`, `tokenizer.dfy` — `Token` and `CDSLTokenizer`: the six matching rules of a
  line (comments, quoted strings, digit positions, integers, keywords and phrases as whole
  words, single characters and operators, unknown runs), line numbers and columns.
* `ast.dfy` — `ASTNode` as a value, its children and its indented printout.
* `grammar.dfy`, `declarations.dfy`, `parser.dfy` — `CDSLParser`. `Grammar` and
  `Declarations` state, as functions over the token list and a position, what every parse
  routine accepts and builds, what it throws and where, and what one pass and the whole loop
  of `parse()` produce; the class `Parser.Parser` holds the token list and the cursor, and
  each parse routine is proved to move the cursor and build the node (or throw) as its
  function says. Small helpers (`match`, `advance`, the count after a colour) carry
  contracts of their own instead.
* `problem_type.dfy`, `card.dfy`, `context.dfy` — `ProblemType`, `Card` and the class
  `ProblemContext` with its fields, setters, parameter map and `toString`.
* `interpreter.dfy`, `interpreter_blocks.dfy`, `program.dfy` — `ProblemInterpreter`: each
  `interpret*` method updates the context in place and is proved to reach the state given
  by a pure specification of that node.
* `balls.dfy`, `remainders.dfy`, `words.dfy` — the parts of the Balls, Remainders and Words
  image generators that read the context back (urn and draw contents, dividend and divisor,
  the alphabet line), with lemmas that what the interpreter stores is what they show.
* `wrappers.dfy`, `java_text.dfy`, `java_maps.dfy` — `Option`/`Result`, and the Java string,
  character, integer and `HashMap` behaviour the core relies on (ASCII case mapping,
  `Integer.parseInt` with its 32-bit range, wrap-around of `int` arithmetic,
  `String.split`, `HashMap` iteration in a given key order).

## Model

| member | source | states |
|---|---|---|
| Tokens.Equal | src/main/java/com/morro/cdsl/tokenizer/Token.java:26-35 | two tokens are equal exactly when kind, value, line and column all agree |
| Tokens.HashCode | src/main/java/com/morro/cdsl/tokenizer/Token.java:38-44 | the hash is a 32-bit int (31-multiplier arithmetic wraps) |
| Tokens.HashCodeRespectsEqual | src/main/java/com/morro/cdsl/tokenizer/Token.java:26-44 | equal tokens have equal hash codes |
| Tokens.ToString | src/main/java/com/morro/cdsl/tokenizer/Token.java:22-24 | the text is non-empty, opens with 'T' and closes with ')' |
| Tokens.ToStringReadBack | src/main/java/com/morro/cdsl/tokenizer/Token.java:22-24 | reading the text back gives the kind's name after 'Token(', the token text between ", '" and "', ", and the line and column, which Integer.parseInt turns back into the token's line and column |
| ProblemTypes.AllTypesComplete | src/main/java/com/morro/cdsl/model/ProblemType.java:3-11 | every problem type is in the enumeration order used by fromCdslName |
| ProblemTypes.FirstNamed | src/main/java/com/morro/cdsl/model/ProblemType.java:29-36 | the first type whose CDSL name equals the name ignoring case, or none when no type in the list matches |
| ProblemTypes.UnlistedNameIsUnknown | src/main/java/com/morro/cdsl/model/ProblemType.java:29-36 | a name that matches no listed type matches no type at all |
| ProblemTypes.FromCdslName | src/main/java/com/morro/cdsl/model/ProblemType.java:29-36 | success gives a type whose CDSL name equals the name ignoring case; the error (IllegalArgumentException) happens exactly when no type matches |
| ProblemTypes.CdslNamesDistinct | src/main/java/com/morro/cdsl/model/ProblemType.java:3-11 | distinct types have CDSL names that differ even ignoring case, so the lookup is unambiguous |
| ProblemTypes.FromCdslNameRoundTrip | src/main/java/com/morro/cdsl/model/ProblemType.java:29-36 | looking up any case variant of a type's CDSL name gives back that type |
| ProblemTypes.BallsNamesBallsAndUrns | src/main/java/com/morro/cdsl/model/ProblemType.java:8 | the CDSL name BALLS denotes BALLS_AND_URNS |
| Cards.NewCard | src/main/java/com/morro/cdsl/model/Card.java:9-12 | rank and suit are stored upper-cased; a missing (null) part stays missing |
| Cards.NewCardEquals | src/main/java/com/morro/cdsl/model/Card.java:22-28 | two constructed cards are equal exactly when their ranks and their suits agree ignoring case |
| Cards.OptHash | src/main/java/com/morro/cdsl/model/Card.java:30-33 | the hash of a possibly null field is a 32-bit int |
| Cards.HashCode | src/main/java/com/morro/cdsl/model/Card.java:30-33 | Objects.hash(rank, suit) is a 32-bit int |
| Cards.HashCodeRespectsEquals | src/main/java/com/morro/cdsl/model/Card.java:22-33 | equal cards have equal hash codes |
| Cards.ToString | src/main/java/com/morro/cdsl/model/Card.java:17-20 | the text is rank, " of ", suit, so its length is the two parts plus four |
| Cards.ToStringSplits | src/main/java/com/morro/cdsl/model/Card.java:17-20 | for a rank without spaces the first space sits right after the rank, so the rank can be read back |
| Ast.Leaf | src/main/java/com/morro/cdsl/parser/ASTNode.java:11-14 | a node of the given type with no value and no children |
| Ast.WithValue | src/main/java/com/morro/cdsl/parser/ASTNode.java:16-20 | a node of the given type carrying the value, with no children |
| Ast.AddChild | src/main/java/com/morro/cdsl/parser/ASTNode.java:29 | the children keep their order and the new child is last; type and value are unchanged |
| Ast.GetChild | src/main/java/com/morro/cdsl/parser/ASTNode.java:31-33 | a negative index fails (IndexOutOfBounds), an index at or past the end gives null, any other gives that child |
| Ast.AddChildThenGetChild | src/main/java/com/morro/cdsl/parser/ASTNode.java:29-33 | after addChild the new child is found at the old size and earlier children are unchanged |
| Ast.Indent | src/main/java/com/morro/cdsl/parser/ASTNode.java:35-56 | two spaces per depth level |
| Ast.Outline | src/main/java/com/morro/cdsl/parser/ASTNode.java:35-56 | the pre-order list of (depth, node) starts with the node itself at its depth and every descendant is deeper |
| Ast.OutlineAll | src/main/java/com/morro/cdsl/parser/ASTNode.java:35-56 | every entry of the children's outline is at least at the given depth |
| Ast.LinesAppend | src/main/java/com/morro/cdsl/parser/ASTNode.java:35-56 | rendering outlines distributes over concatenation |
| Ast.PrintIsOutline | src/main/java/com/morro/cdsl/parser/ASTNode.java:35-56 | toString prints exactly one line per node of the pre-order outline |
| Ast.PrintAllIsOutline | src/main/java/com/morro/cdsl/parser/ASTNode.java:35-56 | printing a list of children is printing their concatenated outlines |
| Ast.OutlineSize | src/main/java/com/morro/cdsl/parser/ASTNode.java:35-56 | the printed tree has one line per node of the tree |
| Ast.OutlineAllSize | src/main/java/com/morro/cdsl/parser/ASTNode.java:35-56 | the children's outline has one entry per node of the subtrees |
| Ast.ToString | src/main/java/com/morro/cdsl/parser/ASTNode.java:36-38 | toString() prints the lines of the pre-order outline, the root's own line first |
| Tokenizer.IsWholeWordOrPhrase | src/main/java/com/morro/cdsl/tokenizer/CDSLTokenizer.java:479-516 | a keyword match is accepted exactly when it is a whole word (no letter, digit or underscore touching it on either side) |
| Tokenizer.NoKeywordAfterWordChar | src/main/java/com/morro/cdsl/tokenizer/CDSLTokenizer.java:637-658 | right after a letter, digit or '_' no keyword of any table is matched, since isWholeWord rejects it |
| Tokenizer.FirstPrefix | src/main/java/com/morro/cdsl/tokenizer/CDSLTokenizer.java:239-465 | the index of the first spelling that is a prefix of the rest of the line; none exactly when no spelling is |
| Tokenizer.Hit | src/main/java/com/morro/cdsl/tokenizer/CDSLTokenizer.java:239-465 | a table entry that matches covers a non-empty stretch inside the line |
| Tokenizer.FindKeyword | src/main/java/com/morro/cdsl/tokenizer/CDSLTokenizer.java:153-183 | a keyword found is non-empty and lies within the line |
| Tokenizer.FindKeywordIsFirstHit | src/main/java/com/morro/cdsl/tokenizer/CDSLTokenizer.java:153-183 | the keyword chosen is the first matching entry in table order, and none is chosen exactly when no entry matches |
| Tokenizer.MatchKeyword | src/main/java/com/morro/cdsl/tokenizer/CDSLTokenizer.java:153-183 | the loop over the ordered token types finds exactly FindKeyword's answer |
| Tokenizer.DigitRunEnd | src/main/java/com/morro/cdsl/tokenizer/CDSLTokenizer.java:132-147 | the end of the maximal run of digits starting at the position |
| Tokenizer.UnknownRunEnd | src/main/java/com/morro/cdsl/tokenizer/CDSLTokenizer.java:200-223 | the end of the maximal run of characters that are neither whitespace nor a known single character |
| Tokenizer.SingleChar | src/main/java/com/morro/cdsl/tokenizer/CDSLTokenizer.java:528-624 | a recognised operator has length 1 or 2, and length 2 only when the next character is '=' |
| Tokenizer.Step | src/main/java/com/morro/cdsl/tokenizer/CDSLTokenizer.java:63-228 | one step of tokenizeLine: the branch order comment, whitespace, quote, digit-position, integer, keyword, single character, unknown run; the position always advances. It takes the corrected operator step of Findings row 1, resuming after a two-character operator |
| Tokenizer.WordStep | src/main/java/com/morro/cdsl/tokenizer/CDSLTokenizer.java:188-195 | after a single-character operator the scan resumes just past the whole operator text (one or two characters) |
| Tokenizer.WordStepAsWritten | src/main/java/com/morro/cdsl/tokenizer/CDSLTokenizer.java:188-195 | as written: after the operator the scan resumes one character later, even for a two-character operator |
| Tokenizer.AsWrittenRescansOperator | src/main/java/com/morro/cdsl/tokenizer/CDSLTokenizer.java:188-195 | on the line `5==3` the scan reads INTEGER `5` and reaches `==` at position 1, where no keyword table claims it; the as-written step gives EQUALS `==` and resumes at the second `=`, whose token overlaps it, while the corrected step resumes after the operator |
| Tokenizer.ScanStep | src/main/java/com/morro/cdsl/tokenizer/CDSLTokenizer.java:63-228 | the imperative step computes exactly Step |
| Tokenizer.ScanUnknownRun | src/main/java/com/morro/cdsl/tokenizer/CDSLTokenizer.java:200-223 | the loop stops exactly at UnknownRunEnd |
| Tokenizer.ScanWord | src/main/java/com/morro/cdsl/tokenizer/CDSLTokenizer.java:150-223 | the keyword / single-character / unknown branch computes WordStep |
| Tokenizer.ScanFromStep | src/main/java/com/morro/cdsl/tokenizer/CDSLTokenizer.java:63-228 | scanning the rest of a line is one step followed by scanning from the new position |
| Tokenizer.TokenizeLine | src/main/java/com/morro/cdsl/tokenizer/CDSLTokenizer.java:63-228 | the while loop over the line yields exactly LineTokens, with the corrected operator step of Findings row 1 |
| Tokenizer.LinesTokensCons | src/main/java/com/morro/cdsl/tokenizer/CDSLTokenizer.java:29-54 | the tokens of several lines are those of the first line followed by those of the rest |
| Tokenizer.TokenizeLines | src/main/java/com/morro/cdsl/tokenizer/CDSLTokenizer.java:37-48 | the loop over the lines yields the concatenated line tokens, line numbers counted from 1 |
| Tokenizer.Tokenize | src/main/java/com/morro/cdsl/tokenizer/CDSLTokenizer.java:29-54 | the imperative tokenize computes TokenizeWith over the keyword table: nothing for blank input, otherwise the per-line tokens of the trimmed lines followed, when there are any, by EOF; each line is scanned with the corrected operator step of Findings row 1 |
| Tokenizer.KeywordTableHasNoEof | src/main/java/com/morro/cdsl/tokenizer/CDSLTokenizer.java:239-465 | no keyword entry produces the EOF kind |
| Tokenizer.QuotedWellFormed | src/main/java/com/morro/cdsl/tokenizer/CDSLTokenizer.java:90-103 | a string literal token has the text between the quotes as its value and its opening position as its column |
| Tokenizer.DigitPositionWellFormed | src/main/java/com/morro/cdsl/tokenizer/CDSLTokenizer.java:109-127 | a digit-position token (e.g. a numbered position) is a slice of the line at its column |
| Tokenizer.IntegerWellFormed | src/main/java/com/morro/cdsl/tokenizer/CDSLTokenizer.java:132-147 | an integer token is a run of digits sliced from the line at its column |
| Tokenizer.FindKeywordKind | src/main/java/com/morro/cdsl/tokenizer/CDSLTokenizer.java:153-183 | a keyword match never produces EOF nor a kind the keyword rule skips (single characters, literals) |
| Tokenizer.WordStepWellFormed | src/main/java/com/morro/cdsl/tokenizer/CDSLTokenizer.java:150-223 | a token from the keyword / operator / unknown branch is well formed |
| Tokenizer.StepWellFormed | src/main/java/com/morro/cdsl/tokenizer/CDSLTokenizer.java:63-228 | every token a step emits is well formed, lies on the line at a column at or after the position, and ends before the next position |
| Tokenizer.ScanFromWellFormed | src/main/java/com/morro/cdsl/tokenizer/CDSLTokenizer.java:63-228 | every token of a line scan is well formed and the tokens come in column order |
| Tokenizer.StepResumesAfterToken | src/main/java/com/morro/cdsl/tokenizer/CDSLTokenizer.java:63-228 | the corrected step resumes exactly after the text of the token it emits |
| Tokenizer.ScanFromDisjoint | src/main/java/com/morro/cdsl/tokenizer/CDSLTokenizer.java:63-228 | with the corrected step the tokens of a line never overlap |
| Tokenizer.LineTokensWellFormed | src/main/java/com/morro/cdsl/tokenizer/CDSLTokenizer.java:63-228 | all tokens of a line are well formed and ordered |
| Tokenizer.LineTokensDisjoint | src/main/java/com/morro/cdsl/tokenizer/CDSLTokenizer.java:63-228 | the tokens of a line do not overlap |
| Tokenizer.LinesTokensWellFormed | src/main/java/com/morro/cdsl/tokenizer/CDSLTokenizer.java:29-54 | every token of several lines is well formed and carries the number of the line it came from |
| Tokenizer.TokenizeWellFormed | src/main/java/com/morro/cdsl/tokenizer/CDSLTokenizer.java:29-54 | the result is empty or ends with EOF at line count+1, column 1; every other token is well formed and lies on the line it names; all tokens are in (line, column) order |
| Tokenizer.TokenizeBlank | src/main/java/com/morro/cdsl/tokenizer/CDSLTokenizer.java:33-35 | input that is blank after trimming gives an empty token list (no EOF) |
| Tokenizer.CommentLineContributesNothing | src/main/java/com/morro/cdsl/tokenizer/CDSLTokenizer.java:67-69 | a comment line or an empty line contributes no tokens |
| Grammar.NumbersKeywordsAreNotCommands | src/main/java/com/morro/cdsl/parser/CDSLParser.java:256-401 | no keyword that can start a NUMBERS attribute is a command keyword or ';', so isNextCommand never cuts an attribute short |
| Grammar.DivisibilityKeywordsAreNotCommands | src/main/java/com/morro/cdsl/parser/CDSLParser.java:407-462 | the same for the DIVISIBILITY attributes |
| Grammar.RemaindersKeywordsAreNotCommands | src/main/java/com/morro/cdsl/parser/CDSLParser.java:1088-1148 | the same for the REMAINDERS attributes |
| Grammar.Past | src/main/java/com/morro/cdsl/parser/CDSLParser.java:1210-1218 | match(...): the cursor moves past one token exactly when that token has one of the kinds, else stays |
| Grammar.Reached | src/main/java/com/morro/cdsl/parser/CDSLParser.java:1210-1250 | a result and the cursor give the outcome: a value at the cursor or the exception where it was raised |
| Grammar.Prepend | src/main/java/com/morro/cdsl/parser/CDSLParser.java:256-462 | putting items before a loop's result keeps its failure or its end position and puts the items first |
| Grammar.IntAttributeAt | src/main/java/com/morro/cdsl/parser/CDSLParser.java:256-401 | an optional integer attribute fails exactly when the INTEGER is out of int range, and ends past the INTEGER if there is one |
| Grammar.IntOrDefaultAt | src/main/java/com/morro/cdsl/parser/CDSLParser.java:1088-1148 | an integer attribute with a default fails exactly when the INTEGER is out of int range, and ends past the INTEGER if there is one |
| Grammar.IntAt | src/main/java/com/morro/cdsl/parser/CDSLParser.java:1210-1218 | no INTEGER token gives no value; an INTEGER token gives Integer.parseInt of its text, and an error (NumberFormatException) exactly when the text is out of int range |
| Grammar.FlagDefaultsTrue | src/main/java/com/morro/cdsl/parser/CDSLParser.java:256-401 | a flag keyword not followed by YES/NO counts as true |
| Grammar.TextChild | src/main/java/com/morro/cdsl/parser/CDSLParser.java:256-401 | an optional string attribute: present exactly when a token of the kinds is there, and then carries its text |
| Grammar.RunFrom | src/main/java/com/morro/cdsl/parser/CDSLParser.java:204-234 | the condition text is the run of tokens up to the next command, ';' or the end; it is empty exactly when the run is |
| Grammar.RunFromStep | src/main/java/com/morro/cdsl/parser/CDSLParser.java:204-234 | a run continues: its text is the token's text, a space, then the rest of the run |
| Grammar.RunFromStop | src/main/java/com/morro/cdsl/parser/CDSLParser.java:204-234 | a run stops at a command, ';' or EOF with empty text |
| Grammar.PositionsFrom | src/main/java/com/morro/cdsl/parser/CDSLParser.java:1154-1165 | the position list takes every consecutive DIGIT_POSITION token and stops at the first other token |
| Grammar.PositionsFromTexts | src/main/java/com/morro/cdsl/parser/CDSLParser.java:1154-1165 | each listed position is the text of the DIGIT_POSITION token at its place |
| Grammar.ComparisonAt | src/main/java/com/morro/cdsl/parser/CDSLParser.java:256-401 | a comparison attribute yields only NUMBERS attribute nodes and ends inside the token list |
| Grammar.BallsMapFrom | src/main/java/com/morro/cdsl/parser/CDSLParser.java:1020-1054 | the colour list inside [...] stops at ']' or EOF |
| Grammar.BallsMapFromItem | src/main/java/com/morro/cdsl/parser/CDSLParser.java:1020-1054 | a colour token contributes one entry with the count after it (1 when none) |
| Grammar.BallsMapFromSkip | src/main/java/com/morro/cdsl/parser/CDSLParser.java:1020-1054 | a token that is not a colour is skipped |
| Grammar.SimpleBallsFrom | src/main/java/com/morro/cdsl/parser/CDSLParser.java:1056-1082 | the bare colour list stops at the first token that is not a colour |
| Grammar.SimpleBallsFromItem | src/main/java/com/morro/cdsl/parser/CDSLParser.java:1056-1082 | a colour token contributes one entry with the count after it (1 when none) |
| Grammar.PiecesFrom | src/main/java/com/morro/cdsl/parser/CDSLParser.java:850-905 | the piece list inside [...] stops at ']' or EOF |
| Grammar.PiecesFromItem | src/main/java/com/morro/cdsl/parser/CDSLParser.java:850-905 | a piece token contributes one entry named by its piece type with the count after it |
| Grammar.PiecesFromSkip | src/main/java/com/morro/cdsl/parser/CDSLParser.java:850-905 | a token that is not a piece is skipped |
| Grammar.PiecesAt | src/main/java/com/morro/cdsl/parser/CDSLParser.java:850-905 | the PIECES attribute nodes carry a map and no children |
| Grammar.ChessEntryShape | src/main/java/com/morro/cdsl/parser/CDSLParser.java:820-922 | every attribute a CHESS entry yields has one of the CHESS attribute shapes |
| Grammar.ChessEntryAt | src/main/java/com/morro/cdsl/parser/CDSLParser.java:820-922 | one step of the CHESS loop where it does not stop always moves forward and stays inside the list |
| Grammar.ConstraintsFrom | src/main/java/com/morro/cdsl/parser/CDSLParser.java:776-814 | the constraint list stops at ']' or EOF, and is empty when it starts there |
| Grammar.ConstraintsFromStep | src/main/java/com/morro/cdsl/parser/CDSLParser.java:776-814 | each constraint is one string token, or a run of tokens, followed by the rest of the list |
| Grammar.ConstraintNodes | src/main/java/com/morro/cdsl/parser/CDSLParser.java:776-814 | one CONSTRAINT node per constraint text, in order |
| Grammar.NormalizeRank | src/main/java/com/morro/cdsl/parser/CDSLParser.java:1264-1272 | A/K/Q/J map (ignoring case) to ACE/KING/QUEEN/JACK; any other rank is kept as written |
| Grammar.NormalizeSuit | src/main/java/com/morro/cdsl/parser/CDSLParser.java:1274-1282 | H/D/C/S map (ignoring case) to HEARTS/DIAMONDS/CLUBS/SPADES; any other suit is kept as written |
| Grammar.BracketedBallsAt | src/main/java/com/morro/cdsl/parser/CDSLParser.java:1020-1054 | a bracketed colour list ends past its ']' |
| Grammar.UrnPartAt | src/main/java/com/morro/cdsl/parser/CDSLParser.java:928-991 | the URN part of a BALLS declaration ends inside the token list |
| Grammar.DrawPartAt | src/main/java/com/morro/cdsl/parser/CDSLParser.java:928-991 | the DRAW part ends inside the token list |
| Grammar.DrawBallsAt | src/main/java/com/morro/cdsl/parser/CDSLParser.java:954-972 | the drawn balls (bracketed map or simple list) end at or after where they start |
| Grammar.DrawCountAt | src/main/java/com/morro/cdsl/parser/CDSLParser.java:928-991 | the draw count consumes at most one INTEGER token |
| Grammar.BallsDeclarationAt | src/main/java/com/morro/cdsl/parser/CDSLParser.java:928-991 | the BALLS declaration ends inside the token list |
| Grammar.BallsAfterUrn | src/main/java/com/morro/cdsl/parser/CDSLParser.java:928-991 | what follows the urn part ends inside the token list |
| Grammar.BallsAfterDraw | src/main/java/com/morro/cdsl/parser/CDSLParser.java:928-991 | what follows the draw part ends inside the token list |
| Grammar.SimpleBallsDeclarationAt | src/main/java/com/morro/cdsl/parser/CDSLParser.java:993-1018 | the bare BALLS form ends at or after its start |
| Grammar.SimpleDrawAt | src/main/java/com/morro/cdsl/parser/CDSLParser.java:993-1018 | the draw of the bare form ends at or after its start |
| Grammar.SinglePart | src/main/java/com/morro/cdsl/parser/CDSLParser.java:928-991 | a single part of a given rank is a ranked part sequence |
| Grammar.JoinParts | src/main/java/com/morro/cdsl/parser/CDSLParser.java:928-991 | ranked part sequences of adjacent ranks join into one |
| Grammar.PartsMakeBallsDeclaration | src/main/java/com/morro/cdsl/parser/CDSLParser.java:928-991 | urn, draw, draw type and count parts in that order make a well-shaped BALLS declaration |
| Grammar.MapChildIsBallsPart | src/main/java/com/morro/cdsl/parser/CDSLParser.java:928-991 | an URN_CONTENTS or DRAW_BALLS map child is a part of rank 0 or 1 |
| Grammar.DrawTypePart | src/main/java/com/morro/cdsl/parser/CDSLParser.java:928-991 | the draw-type child is a part of rank 2 |
| Grammar.DrawCountPart | src/main/java/com/morro/cdsl/parser/CDSLParser.java:928-991 | the draw-count child is a part of rank 3 |
| Grammar.UrnPartShape | src/main/java/com/morro/cdsl/parser/CDSLParser.java:928-991 | a parsed urn part is a part of rank 0 |
| Grammar.DrawPartShape | src/main/java/com/morro/cdsl/parser/CDSLParser.java:928-991 | a parsed draw part is a part of rank 1 |
| Grammar.BallsDeclarationShape | src/main/java/com/morro/cdsl/parser/CDSLParser.java:928-991 | a parsed BALLS declaration holds each of its four parts at most once and in order |
| Grammar.SimpleDrawShape | src/main/java/com/morro/cdsl/parser/CDSLParser.java:993-1018 | the draw of the bare form is a part of rank 1 |
| Grammar.SimpleBallsDeclarationShape | src/main/java/com/morro/cdsl/parser/CDSLParser.java:993-1018 | a parsed bare BALLS declaration holds each part at most once and in order |
| Grammar.BallsBracketStepsBack | src/main/java/com/morro/cdsl/parser/CDSLParser.java:928-935 | BALLS followed by '[' gives an empty BALLS_DECLARATION and hands the cursor back one token (the previous() call) |
| Grammar.BracketAtStartFails | src/main/java/com/morro/cdsl/parser/CDSLParser.java:928-935 | when '[' is the very first token the step back fails |
| Grammar.UrnListReadsContents | src/main/java/com/morro/cdsl/parser/CDSLParser.java:928-991 | URN [ ... ] reads its contents with the bracketed colour list |
| Grammar.CountVocabulary | src/main/java/com/morro/cdsl/parser/CDSLParser.java:563-606 | every COUNT type has a value vocabulary (SUIT, COLOR, RANK ... or the range form) |
| Grammar.CountVocabularyUpperCaseAgrees | src/main/java/com/morro/cdsl/parser/CDSLParser.java:563-606 | for an upper-case type text the case-sensitive comparison picks the same vocabulary as the token kind |
| Grammar.CountValueAt | src/main/java/com/morro/cdsl/parser/CDSLParser.java:563-606 | a value is read exactly when the vocabulary expects one, and then it is a token of that vocabulary (or two integers for a range) |
| Grammar.CountNode | src/main/java/com/morro/cdsl/parser/CDSLParser.java:606-631 | the COUNT_CONDITION node has type, value, operator and target children, or three children when there is no value |
| Grammar.CountTailAt | src/main/java/com/morro/cdsl/parser/CDSLParser.java:606-631 | the tail ') op n' parses exactly when ')' , a comparison operator and an int-range INTEGER follow |
| Grammar.CountConditionAt | src/main/java/com/morro/cdsl/parser/CDSLParser.java:550-631 | a COUNT condition ends (or fails) inside the list, and one that is read consumes at least one token |
| Grammar.CountConditionShape | src/main/java/com/morro/cdsl/parser/CDSLParser.java:550-631 | a parsed COUNT condition has the COUNT_CONDITION shape, its type is the token after '(' and the cursor ends after the target |
| Grammar.CountConditionValue | src/main/java/com/morro/cdsl/parser/CDSLParser.java:563-606 | for a non-range type the value child is the next token, which belongs to the type's vocabulary |
| Grammar.CountConditionRange | src/main/java/com/morro/cdsl/parser/CDSLParser.java:563-606 | for a RANK_RANGE type the value child is the two integers that follow |
| Grammar.LowerCaseCountHead | src/main/java/com/morro/cdsl/parser/CDSLParser.java:550-563 | the tokens of `count(suit hearts) = 2` start with COUNT, '(' and a SUIT keyword whose text is lower case |
| Grammar.LowerCaseCountTail | src/main/java/com/morro/cdsl/parser/CDSLParser.java:563-631 | the same input goes on with a suit value, ')' and '=' |
| Grammar.LowerCaseCountTarget | src/main/java/com/morro/cdsl/parser/CDSLParser.java:606-631 | its target is the int 2 |
| Grammar.LowerCaseCountFailsAsWritten | src/main/java/com/morro/cdsl/parser/CDSLParser.java:563-606 | with the case-sensitive type comparison this COUNT condition is rejected |
| Grammar.LowerCaseCountParses | src/main/java/com/morro/cdsl/parser/CDSLParser.java:563-606 | choosing the vocabulary by token kind, the same input parses to the expected COUNT_CONDITION |
| Grammar.DigitsDispatch | src/main/java/com/morro/cdsl/parser/CDSLParser.java:68-82 | `DIGITS n DIVISIBLE BY` goes to the divisibility parser and any other `DIGITS n` to the numbers parser |
| Grammar.Dispatch | src/main/java/com/morro/cdsl/parser/CDSLParser.java:26-100 | a route other than skipping is taken only at a token inside the list that is not EOF |
| Declarations.Returned | src/main/java/com/morro/cdsl/parser/CDSLParser.java:18-112 | a routine that cannot fail always completes, at its end position |
| Declarations.TaskAt | src/main/java/com/morro/cdsl/parser/CDSLParser.java:119-142 | parseTaskDeclaration ends inside the token list, at or after where it starts |
| Declarations.AlphabetAt | src/main/java/com/morro/cdsl/parser/CDSLParser.java:148-161 | parseAlphabetDeclaration ends inside the token list, at or after its start |
| Declarations.OptionalIntAt | src/main/java/com/morro/cdsl/parser/CDSLParser.java:163-176 | LENGTH, UNKNOWNS and SUM end (or fail) inside the token list, at or after their start |
| Declarations.UniqueAt | src/main/java/com/morro/cdsl/parser/CDSLParser.java:178-198 | parseUniqueDeclaration ends inside the token list, at or after its start |
| Declarations.ConditionAt | src/main/java/com/morro/cdsl/parser/CDSLParser.java:204-234 | parseCondition ends inside the token list, at or after its start |
| Declarations.DeckAt | src/main/java/com/morro/cdsl/parser/CDSLParser.java:468-489 | parseDeckDeclaration ends (or fails) inside the token list, at or after its start |
| Declarations.DrawAt | src/main/java/com/morro/cdsl/parser/CDSLParser.java:689-710 | parseDrawDeclaration ends (or fails) inside the token list, at or after its start |
| Declarations.CalculateAt | src/main/java/com/morro/cdsl/parser/CDSLParser.java:712-725 | parseCalculate ends inside the token list, at or after its start |
| Declarations.DomainAt | src/main/java/com/morro/cdsl/parser/CDSLParser.java:761-774 | parseDomainDeclaration ends inside the token list, at or after its start |
| Declarations.ConstraintsAt | src/main/java/com/morro/cdsl/parser/CDSLParser.java:776-814 | parseConstraintsDeclaration ends inside the token list, at or after its start |
| Declarations.SingleCardAt | src/main/java/com/morro/cdsl/parser/CDSLParser.java:633-659 | a card is read exactly when a rank (or integer) is followed by a suit, and then the cursor passes both; otherwise it fails |
| Declarations.SingleConditionAt | src/main/java/com/morro/cdsl/parser/CDSLParser.java:661-687 | fails exactly at EOF, ']' or ',' and there; otherwise one token is consumed |
| Declarations.TargetItemAt | src/main/java/com/morro/cdsl/parser/CDSLParser.java:517-548 | a target item that is read consumes at least one token |
| Declarations.TargetsFrom | src/main/java/com/morro/cdsl/parser/CDSLParser.java:517-548 | the items of a target list end inside the token list, at or after their start |
| Declarations.TargetListAt | src/main/java/com/morro/cdsl/parser/CDSLParser.java:517-548 | the TARGET_LIST ends inside the token list |
| Declarations.CommandFrom | src/main/java/com/morro/cdsl/parser/CDSLParser.java:505-510 | the recovery loop stops at the first EOF or command keyword at or after the position |
| Declarations.TargetAt | src/main/java/com/morro/cdsl/parser/CDSLParser.java:491-515 | parseTargetDeclaration ends inside the token list, at or after its start |
| Declarations.TargetItemShape | src/main/java/com/morro/cdsl/parser/CDSLParser.java:517-548 | a target item has a card or condition shape, and a card ahead is always read as a card |
| Declarations.TargetStep | src/main/java/com/morro/cdsl/parser/CDSLParser.java:517-548 | a target that parses heads the list, before the targets after its optional comma; one that throws ends the list empty |
| Declarations.TargetsAreItems | src/main/java/com/morro/cdsl/parser/CDSLParser.java:517-548 | every element of a target list is a target item |
| Declarations.TargetShape | src/main/java/com/morro/cdsl/parser/CDSLParser.java:491-515 | TARGET_DECLARATION holds one TARGET_LIST after '[', otherwise at most one item (a card when a card is ahead); with no item the cursor is at EOF or a command |
| Declarations.NumbersAttributeAt | src/main/java/com/morro/cdsl/parser/CDSLParser.java:256-401 | the attribute after a NUMBERS keyword ends (or fails) inside the list, at or after its start |
| Declarations.DivisibilityAttributeAt | src/main/java/com/morro/cdsl/parser/CDSLParser.java:407-462 | the attribute after a DIVISIBILITY keyword ends (or fails) inside the list, at or after its start |
| Declarations.RemaindersAttributeAt | src/main/java/com/morro/cdsl/parser/CDSLParser.java:1088-1148 | the attribute after DIVIDEND, DIVISOR or REMAINDER ends (or fails) inside the list, at or after its start |
| Declarations.AttributeAt | src/main/java/com/morro/cdsl/parser/CDSLParser.java:256-462 | the attribute of any of the three blocks ends inside the list, at or after its start |
| Declarations.ValueKindsDoNotEnd | src/main/java/com/morro/cdsl/parser/CDSLParser.java:256-462 | no attribute keyword of a block is a place where that block ends |
| Declarations.EntryAt | src/main/java/com/morro/cdsl/parser/CDSLParser.java:256-462 | one pass of a block loop stays inside the list and, unless the block ends there, moves forward |
| Declarations.BlockFrom | src/main/java/com/morro/cdsl/parser/CDSLParser.java:256-462 | the attributes of a block loop end (or fail) inside the list |
| Declarations.BlockAt | src/main/java/com/morro/cdsl/parser/CDSLParser.java:256-462 | the block declaration ends (or fails) inside the list |
| Declarations.AttributeShape | src/main/java/com/morro/cdsl/parser/CDSLParser.java:256-462 | every attribute a block reads has that block's attribute shape |
| Declarations.BlockShape | src/main/java/com/morro/cdsl/parser/CDSLParser.java:256-462 | a completed block holds only that block's attribute shapes and ends at EOF, after ';' (not in REMAINDERS) or one token before a command |
| Declarations.BlockAtCommand | src/main/java/com/morro/cdsl/parser/CDSLParser.java:387-391 | a block entered directly on a command keyword gives an empty declaration and hands the cursor back one token |
| Declarations.NumbersDigitsExample | src/main/java/com/morro/cdsl/parser/CDSLParser.java:256-275 | NUMBERS DIGITS 4 gives a NUMBERS_DECLARATION with one DIGITS child of value 4 and stops at EOF |
| Declarations.ChessFrom | src/main/java/com/morro/cdsl/parser/CDSLParser.java:820-922 | the CHESS loop ends (or fails) inside the list, at or after its start |
| Declarations.ChessAt | src/main/java/com/morro/cdsl/parser/CDSLParser.java:820-922 | the CHESS declaration ends (or fails) inside the list, at or after its start |
| Declarations.ChessShape | src/main/java/com/morro/cdsl/parser/CDSLParser.java:820-922 | a completed CHESS loop holds only chess attribute shapes and ends at EOF or a stop token |
| Declarations.Declared | src/main/java/com/morro/cdsl/parser/CDSLParser.java:18-112 | a declaration that completes is added as a present child, at the same end position; a failure stays a failure there |
| Declarations.DeclarationAt | src/main/java/com/morro/cdsl/parser/CDSLParser.java:18-100 | one pass of the parse loop at a token other than EOF ends (or fails) inside the token list |
| Declarations.Added | src/main/java/com/morro/cdsl/parser/CDSLParser.java:18-112 | the children one pass adds: one declaration, or none for a skipped token |
| Declarations.ProgramFrom | src/main/java/com/morro/cdsl/parser/CDSLParser.java:18-112 | the parse loop ends inside the token list and adds at most one declaration per pass |
| Declarations.Resume | src/main/java/com/morro/cdsl/parser/CDSLParser.java:106-110 | after a caught exception the loop goes on one token further, or stays at EOF |
| Declarations.WhileFrom | src/main/java/com/morro/cdsl/parser/CDSLParser.java:26 | the loop test: the loop ends inside the token list and adds at most one declaration per pass left |
| Declarations.PassFrom | src/main/java/com/morro/cdsl/parser/CDSLParser.java:27-110 | one pass with its catch, then the rest of the loop: ends inside the token list, at most one declaration per pass |
| Declarations.PassKinds | src/main/java/com/morro/cdsl/parser/CDSLParser.java:26-110 | one pass puts only declarations of the program's kinds in front of the rest of the loop |
| Declarations.ProgramFromThrown | src/main/java/com/morro/cdsl/parser/CDSLParser.java:104-109 | after a failing declaration the loop goes on one token past the failure (not past EOF) and adds nothing |
| Declarations.ProgramFromDone | src/main/java/com/morro/cdsl/parser/CDSLParser.java:26-102 | after a completed pass the loop adds that pass's declaration and goes on from where it ended |
| Declarations.DeclarationKindsAt | src/main/java/com/morro/cdsl/parser/CDSLParser.java:26-102 | a pass adds nothing exactly when the dispatch skips the token, and then moves one token; every added node has a declaration kind |
| Declarations.ProgramKinds | src/main/java/com/morro/cdsl/parser/CDSLParser.java:18-112 | every child of PROGRAM has a declaration kind |
| Declarations.RemaindersBeforeCommand | src/main/java/com/morro/cdsl/parser/CDSLParser.java:1135-1138 | DIVIDEND, DIVISOR or REMAINDER directly before a command reads one attribute and hands the cursor back onto the keyword |
| Declarations.StallsStay | src/main/java/com/morro/cdsl/parser/CDSLParser.java:67-94 | CHESS, a block keyword before a command, BALLS '[', and a '[' colour list after a draw type or an int-range integer each give a declaration without moving the cursor |
| Declarations.ChessStalls | src/main/java/com/morro/cdsl/parser/CDSLParser.java:87-90 | CHESS gives an empty CHESS_DECLARATION and leaves the cursor on CHESS |
| Declarations.NumbersStalls | src/main/java/com/morro/cdsl/parser/CDSLParser.java:67-70 | NUMBERS before a command gives an empty NUMBERS_DECLARATION and leaves the cursor on NUMBERS |
| Declarations.DivisibilityStalls | src/main/java/com/morro/cdsl/parser/CDSLParser.java:77-81 | DIVISIBILITY before a command gives an empty DIVISIBILITY_DECLARATION and leaves the cursor on DIVISIBILITY |
| Declarations.RemaindersStalls | src/main/java/com/morro/cdsl/parser/CDSLParser.java:72-75 | DIVIDEND, DIVISOR or REMAINDER before a command gives a declaration and leaves the cursor on the keyword |
| Declarations.BallsStalls | src/main/java/com/morro/cdsl/parser/CDSLParser.java:83-85 | BALLS followed by '[' gives an empty BALLS_DECLARATION and leaves the cursor on BALLS |
| Declarations.DrawTypeBracketStalls | src/main/java/com/morro/cdsl/parser/CDSLParser.java:927-988 | at a '[' colour list after SEQUENTIAL or SIMULTANEOUS the declaration steps back, reads that keyword as DRAW_TYPE and ends at the '[' again |
| Declarations.DrawCountBracketStalls | src/main/java/com/morro/cdsl/parser/CDSLParser.java:927-988 | at a '[' colour list after an int-range INTEGER the declaration steps back, reads the integer as DRAW_COUNT and ends at the '[' again |
| Declarations.UrnStartRereads | src/main/java/com/morro/cdsl/parser/CDSLParser.java:927-988 | at a '[' colour list after a draw type or an integer the route is the urn start, and the urn and draw parts step back onto that token, leaving the declaration to what follows |
| Declarations.UrnStartDeclared | src/main/java/com/morro/cdsl/parser/CDSLParser.java:93-94 | on the urn-start route the pass adds the balls declaration, at the position where it ends |
| Declarations.ProgramStuck | src/main/java/com/morro/cdsl/parser/CDSLParser.java:26-110 | where the input stalls, every pass adds the same declaration and the position never moves, so the Java loop does not end |
| Declarations.UrnStartStepsBack | src/main/java/com/morro/cdsl/parser/CDSLParser.java:928-935 | a '[' colour list after a token that is not URN, DRAW, '[', a draw type or an integer makes parseBallsDeclaration step back one token before the '[' |
| Parser.PieceType | src/main/java/com/morro/cdsl/parser/CDSLParser.java:850-905 | the piece name chosen for a piece token is PieceName of its text (KING/QUEEN/ROOK/BISHOP/KNIGHT/PAWN, prefixed or bare) |
| Parser.Parser.constructor | src/main/java/com/morro/cdsl/parser/CDSLParser.java:14-16 | the parser starts at token 0 of the given list |
| Parser.Parser.Previous | src/main/java/com/morro/cdsl/parser/CDSLParser.java:1248-1250 | previous() fails (index -1) exactly at the start, otherwise gives the token before the cursor |
| Parser.Parser.Advance | src/main/java/com/morro/cdsl/parser/CDSLParser.java:1235-1238 | advance() moves one token unless at EOF, and returns the token it passed, or previous() at EOF |
| Parser.Parser.Match | src/main/java/com/morro/cdsl/parser/CDSLParser.java:1210-1218 | match(...) is true exactly when the current token has one of the kinds, and then consumes it |
| Parser.Parser.MatchInt | src/main/java/com/morro/cdsl/parser/CDSLParser.java:1210-1218 | an optional INTEGER is read with Integer.parseInt, failing when it is out of range |
| Parser.Parser.MatchText | src/main/java/com/morro/cdsl/parser/CDSLParser.java:1210-1218 | an optional token of the kinds gives its text |
| Parser.Parser.CountAfter | src/main/java/com/morro/cdsl/parser/CDSLParser.java:1020-1082 | an optional count after a colour or piece, 1 when absent |
| Parser.Parser.ColorCount | src/main/java/com/morro/cdsl/parser/CDSLParser.java:1020-1082 | a colour token and the count after it |
| Parser.Parser.ParseTask | src/main/java/com/morro/cdsl/parser/CDSLParser.java:119-142 | a task-type keyword gives TASK_TYPE and TASK_NAME (the string after it or ""); otherwise an empty TASK_DECLARATION and nothing consumed |
| Parser.Parser.ParseAlphabet | src/main/java/com/morro/cdsl/parser/CDSLParser.java:148-161 | ALPHABET with a string gives an ALPHABET child holding it; the cursor passes the string |
| Parser.Parser.ParseOptionalInt | src/main/java/com/morro/cdsl/parser/CDSLParser.java:163-176 | LENGTH / UNKNOWNS / SUM: an optional integer child; fails exactly when the integer is out of int range |
| Parser.Parser.ParseUnique | src/main/java/com/morro/cdsl/parser/CDSLParser.java:178-198 | UNIQUE is true exactly when a YES boolean follows; ALLOW_DUPLICATES or a boolean is consumed |
| Parser.Parser.CollectRun | src/main/java/com/morro/cdsl/parser/CDSLParser.java:204-234 | the collected condition text and end position are RunFrom's |
| Parser.Parser.ParseCondition | src/main/java/com/morro/cdsl/parser/CDSLParser.java:204-234 | a string condition is unquoted; otherwise the condition is the run of tokens up to the next command |
| Parser.Parser.ParseDeck | src/main/java/com/morro/cdsl/parser/CDSLParser.java:468-489 | deck type (default STANDARD) and size (default 52); fails exactly when the size is out of int range |
| Parser.Parser.ParseDraw | src/main/java/com/morro/cdsl/parser/CDSLParser.java:689-710 | draw count (default 1) and replacement keyword (default NO_REPLACEMENT); fails exactly when the count is out of int range |
| Parser.Parser.ParseCalculate | src/main/java/com/morro/cdsl/parser/CDSLParser.java:712-725 | CALCULATION_TYPE is the calculation keyword, PROBABILITY when none follows |
| Parser.Parser.ParseDomain | src/main/java/com/morro/cdsl/parser/CDSLParser.java:761-774 | the domain string, if any, becomes DOMAIN |
| Parser.Parser.ConstraintEntry | src/main/java/com/morro/cdsl/parser/CDSLParser.java:776-814 | one constraint of the list, with ConstraintsFrom's one-step equation |
| Parser.Parser.ParseConstraintList | src/main/java/com/morro/cdsl/parser/CDSLParser.java:776-814 | the constraint texts and end position are ConstraintsFrom's |
| Parser.Parser.ParseConstraints | src/main/java/com/morro/cdsl/parser/CDSLParser.java:776-814 | [...] gives one CONSTRAINT per list entry and consumes ']'; a single string gives one CONSTRAINT |
| Parser.Parser.ParseSingleCard | src/main/java/com/morro/cdsl/parser/CDSLParser.java:633-659 | succeeds exactly on a rank (or integer) followed by a suit, giving a CARD with normalised rank and suit, two tokens consumed |
| Parser.Parser.ParseSingleCondition | src/main/java/com/morro/cdsl/parser/CDSLParser.java:661-687 | fails exactly at EOF, ']' or ','; otherwise one token becomes a CONDITION |
| Parser.Parser.ParseCountValue | src/main/java/com/morro/cdsl/parser/CDSLParser.java:563-606 | reads the value exactly as CountValueAt says |
| Parser.Parser.ParseCountTail | src/main/java/com/morro/cdsl/parser/CDSLParser.java:606-631 | succeeds exactly when ')' , an operator and an int follow, giving CountNode |
| Parser.Parser.ParseCountCondition | src/main/java/com/morro/cdsl/parser/CDSLParser.java:550-631 | the node and end position are CountConditionAt with the vocabulary chosen by token kind; it fails exactly when that does |
| Parser.Parser.ParseTargetItem | src/main/java/com/morro/cdsl/parser/CDSLParser.java:517-548 | the item node and end position (or the exception and where it was raised) are TargetItemAt's: a card when a card is ahead, the COUNT condition when COUNT is ahead, else a single condition |
| Parser.Parser.ParseTargetList | src/main/java/com/morro/cdsl/parser/CDSLParser.java:517-548 | the TARGET_LIST node and the end position are TargetListAt's: the items up to ']' (the first failing item ends the list), then past ']' |
| Parser.Parser.TargetListEntry | src/main/java/com/morro/cdsl/parser/CDSLParser.java:517-548 | one item of the list: a failing item ends the list where it failed; otherwise the item heads TargetsFrom's list, which goes on after an optional ',' |
| Parser.Parser.ParseTarget | src/main/java/com/morro/cdsl/parser/CDSLParser.java:491-515 | the TARGET_DECLARATION node and end position are TargetAt's: '[' gives the list; otherwise one item, or, when the item fails, no child and the cursor moved to the next command or EOF |
| Parser.Parser.ParsePositionList | src/main/java/com/morro/cdsl/parser/CDSLParser.java:1154-1165 | the positions and end position are PositionsFrom's |
| Parser.Parser.ParseFlag | src/main/java/com/morro/cdsl/parser/CDSLParser.java:256-401 | a flag is FlagAt and consumes an optional boolean |
| Parser.Parser.IntAttribute | src/main/java/com/morro/cdsl/parser/CDSLParser.java:256-401 | an optional integer attribute is IntAttributeAt's: no child without an INTEGER, the parsed child with one, and NumberFormatException when it is out of int range |
| Parser.Parser.IntOrDefault | src/main/java/com/morro/cdsl/parser/CDSLParser.java:256-401 | an integer attribute with a default is IntOrDefaultAt's: the default without an INTEGER, the parsed value with one, NumberFormatException out of range |
| Parser.Parser.ParseComparison | src/main/java/com/morro/cdsl/parser/CDSLParser.java:256-401 | the comparison nodes and end position are ComparisonAt's |
| Parser.Parser.NumbersAttribute | src/main/java/com/morro/cdsl/parser/CDSLParser.java:256-401 | the attribute after a NUMBERS keyword and the end position (or the exception) are NumbersAttributeAt's |
| Parser.Parser.NumbersEntry | src/main/java/com/morro/cdsl/parser/CDSLParser.java:256-401 | one pass of the NUMBERS loop is EntryAt's (the attribute after a keyword, ';' ends after itself, a command ends one token back, anything else is skipped); it stops exactly where the block ends |
| Parser.Parser.ParseNumbers | src/main/java/com/morro/cdsl/parser/CDSLParser.java:256-401 | the NUMBERS_DECLARATION node and the end position (or the exception) are BlockAt's: the attributes of every pass up to EOF, ';' or a command |
| Parser.Parser.DivisibilityAttribute | src/main/java/com/morro/cdsl/parser/CDSLParser.java:407-462 | the attribute after a DIVISIBILITY keyword and the end position (or the exception) are DivisibilityAttributeAt's |
| Parser.Parser.DivisibilityEntry | src/main/java/com/morro/cdsl/parser/CDSLParser.java:407-462 | one pass of the DIVISIBILITY loop is EntryAt's; it stops exactly where the block ends |
| Parser.Parser.ParseDivisibility | src/main/java/com/morro/cdsl/parser/CDSLParser.java:407-462 | the DIVISIBILITY_DECLARATION node and the end position (or the exception) are BlockAt's |
| Parser.Parser.RemaindersAttribute | src/main/java/com/morro/cdsl/parser/CDSLParser.java:1088-1148 | the attribute after DIVIDEND, DIVISOR or REMAINDER and the end position (or the exception) are RemaindersAttributeAt's |
| Parser.Parser.RemaindersEntry | src/main/java/com/morro/cdsl/parser/CDSLParser.java:1088-1148 | one pass of the REMAINDERS loop is EntryAt's (no ';' rule); it stops exactly before a command |
| Parser.Parser.ParseRemainders | src/main/java/com/morro/cdsl/parser/CDSLParser.java:1088-1148 | the REMAINDERS_DECLARATION node and the end position (or the exception) are BlockAt's |
| Parser.Parser.BallsMapEntry | src/main/java/com/morro/cdsl/parser/CDSLParser.java:1020-1054 | one entry of the colour list, with BallsMapFrom's one-step equation |
| Parser.Parser.ParseBallsMap | src/main/java/com/morro/cdsl/parser/CDSLParser.java:1020-1054 | the map is the tally of BallsMapFrom's entries (later counts add up in the HashMap merge) and the cursor ends where it does |
| Parser.Parser.SimpleBallsItem | src/main/java/com/morro/cdsl/parser/CDSLParser.java:1056-1082 | one entry of the bare colour list |
| Parser.Parser.ParseSimpleBallsList | src/main/java/com/morro/cdsl/parser/CDSLParser.java:1056-1082 | the map is the tally of SimpleBallsFrom's entries |
| Parser.Parser.PieceCount | src/main/java/com/morro/cdsl/parser/CDSLParser.java:850-905 | one piece with its count |
| Parser.Parser.PiecesEntry | src/main/java/com/morro/cdsl/parser/CDSLParser.java:850-905 | one entry of the piece list, with PiecesFrom's one-step equation |
| Parser.Parser.ParsePiecesList | src/main/java/com/morro/cdsl/parser/CDSLParser.java:850-905 | the map is the tally of PiecesFrom's entries |
| Parser.Parser.ParsePieces | src/main/java/com/morro/cdsl/parser/CDSLParser.java:850-905 | the PIECES nodes and end position are PiecesAt's |
| Parser.Parser.ChessEntry | src/main/java/com/morro/cdsl/parser/CDSLParser.java:820-922 | stops exactly at a CHESS stop token without moving; otherwise the attribute and end position (or exception) are ChessEntryAt's |
| Parser.Parser.ParseChess | src/main/java/com/morro/cdsl/parser/CDSLParser.java:820-922 | the CHESS_DECLARATION node and the end position (or the exception) are ChessAt's |
| Parser.Parser.ParseBracketedBalls | src/main/java/com/morro/cdsl/parser/CDSLParser.java:1020-1054 | the node and end are BracketedBallsAt's |
| Parser.Parser.ParseUrnPart | src/main/java/com/morro/cdsl/parser/CDSLParser.java:928-991 | the urn part is UrnPartAt's |
| Parser.Parser.ParseDrawPart | src/main/java/com/morro/cdsl/parser/CDSLParser.java:928-991 | the draw part is DrawPartAt's |
| Parser.Parser.ParseDrawBalls | src/main/java/com/morro/cdsl/parser/CDSLParser.java:954-972 | the drawn balls and the position after them are DrawBallsAt's, error for error |
| Parser.Parser.ParseDrawTail | src/main/java/com/morro/cdsl/parser/CDSLParser.java:928-991 | the rest of the declaration is BallsAfterDraw's |
| Parser.Parser.ParseSimpleDraw | src/main/java/com/morro/cdsl/parser/CDSLParser.java:993-1018 | the draw part of the bare BALLS form and the end position are SimpleDrawAt's |
| Parser.Parser.ParseDrawType | src/main/java/com/morro/cdsl/parser/CDSLParser.java:928-991 | the draw-type child is DrawTypeAt's and the cursor passes one SEQUENTIAL or SIMULTANEOUS keyword, if any |
| Parser.Parser.ParseBalls | src/main/java/com/morro/cdsl/parser/CDSLParser.java:928-991 | the declaration and end position are BallsDeclarationAt's, including the step back on BALLS [ |
| Parser.Parser.ParseSimpleBalls | src/main/java/com/morro/cdsl/parser/CDSLParser.java:993-1018 | the declaration and end position are SimpleBallsDeclarationAt's |
| Parser.Parser.ParseKeywordDeclaration | src/main/java/com/morro/cdsl/parser/CDSLParser.java:28-66 | the declaration a keyword command yields, and the end position or the exception, are DeclarationAt's for that command |
| Parser.Parser.ParseBlockDeclaration | src/main/java/com/morro/cdsl/parser/CDSLParser.java:67-97 | the declaration a block (NUMBERS, DIGITS, DIVIDEND..., DIVISIBILITY, BALLS/URN, CHESS, '[' colour, colour) yields, and the end position or the exception, are DeclarationAt's |
| Parser.Parser.Step | src/main/java/com/morro/cdsl/parser/CDSLParser.java:26-110 | one pass of the parse loop is DeclarationAt's: the declaration added (none for a skipped token), the end position or the exception; where the input stalls (CHESS, a block keyword before a command, BALLS '[') it returns a declaration without moving |
| Parser.Parser.Pass | src/main/java/com/morro/cdsl/parser/CDSLParser.java:18-112 | one pass with the catch rule: the declaration it adds heads ProgramFrom's list and the rest of the program follows from where the pass leaves the cursor |
| Parser.Parser.Parse | src/main/java/com/morro/cdsl/parser/CDSLParser.java:18-113 | the PROGRAM node's children and the final position are ProgramFrom's: the declarations dispatched at each position in order, a failing declaration caught and the cursor moved one token on from where it failed unless that is EOF; done exactly when EOF is reached |
| Parser.Lift | src/main/java/com/morro/cdsl/parser/CDSLParser.java:104-109 | a parse error stays an error at the same position and a node becomes a present declaration |
| Interpreter.AsString | src/main/java/com/morro/cdsl/interpreter/ProblemInterpreter.java:87-111 | the (String) cast of a node value: a string or null succeeds, anything else is a ClassCastException |
| Interpreter.AsInt | src/main/java/com/morro/cdsl/interpreter/ProblemInterpreter.java:113-134 | the (int) unboxing of a node value: an integer succeeds, null (NullPointerException) or another type fails |
| Interpreter.AsInteger | src/main/java/com/morro/cdsl/interpreter/ProblemInterpreter.java:250-290 | the (Integer) cast: an integer or null succeeds, another type fails |
| Interpreter.AsBool | src/main/java/com/morro/cdsl/interpreter/ProblemInterpreter.java:162-177 | the (boolean) unboxing: a boolean succeeds, anything else fails |
| Interpreter.AsList | src/main/java/com/morro/cdsl/interpreter/ProblemInterpreter.java:463-584 | the (List) cast used by a loop: a list succeeds, anything else (null included) fails |
| Interpreter.StrParam | src/main/java/com/morro/cdsl/interpreter/ProblemInterpreter.java:136-147 | a string parameter value, null staying null |
| Interpreter.FoldStep | src/main/java/com/morro/cdsl/interpreter/ProblemInterpreter.java:87-111 | the child loop over one more child is one more step |
| Interpreter.FoldErrSticks | src/main/java/com/morro/cdsl/interpreter/ProblemInterpreter.java:87-111 | after a failing child no later child is processed (the exception leaves the loop) |
| Interpreter.FoldStopsAt | src/main/java/com/morro/cdsl/interpreter/ProblemInterpreter.java:87-111 | a failing child makes the whole loop fail |
| Interpreter.FoldDone | src/main/java/com/morro/cdsl/interpreter/ProblemInterpreter.java:87-111 | the loop over the full prefix is the loop over all children |
| Interpreter.FoldKeeps | src/main/java/com/morro/cdsl/interpreter/ProblemInterpreter.java:87-111 | a property every step keeps holds after the whole loop |
| Interpreter.TaskType | src/main/java/com/morro/cdsl/interpreter/ProblemInterpreter.java:95-105 | the task type is the problem type whose CDSL name matches ignoring case, CARDS when none does |
| Interpreter.TaskTypeIgnoresCase | src/main/java/com/morro/cdsl/interpreter/ProblemInterpreter.java:95-105 | task types that differ only in case give the same problem type |
| Interpreter.TaskTypeFallsBack | src/main/java/com/morro/cdsl/interpreter/ProblemInterpreter.java:99-103 | an unknown task type gives CARDS |
| Interpreter.InterpretTaskDeclaration | src/main/java/com/morro/cdsl/interpreter/ProblemInterpreter.java:87-111 | the context reaches TaskDeclaration: TASK_TYPE sets the problem type, TASK_NAME the task name, in child order |
| Interpreter.TaskChildStep | src/main/java/com/morro/cdsl/interpreter/ProblemInterpreter.java:87-111 | one child of the task loop |
| Interpreter.InterpretDeckDeclaration | src/main/java/com/morro/cdsl/interpreter/ProblemInterpreter.java:113-130 | DECK_TYPE sets the deck type and DECK_SIZE the deck size |
| Interpreter.DeckChildStep | src/main/java/com/morro/cdsl/interpreter/ProblemInterpreter.java:113-130 | one child of the deck loop |
| Interpreter.InterpretAlphabetDeclaration | src/main/java/com/morro/cdsl/interpreter/ProblemInterpreter.java:136-147 | ALPHABET sets the alphabet and the alphabet parameter |
| Interpreter.AlphabetChildStep | src/main/java/com/morro/cdsl/interpreter/ProblemInterpreter.java:136-147 | one child of the alphabet loop |
| Interpreter.InterpretLengthDeclaration | src/main/java/com/morro/cdsl/interpreter/ProblemInterpreter.java:149-160 | LENGTH sets the word length and the wordLength parameter |
| Interpreter.LengthChildStep | src/main/java/com/morro/cdsl/interpreter/ProblemInterpreter.java:149-160 | one child of the length loop |
| Interpreter.InterpretUniqueDeclaration | src/main/java/com/morro/cdsl/interpreter/ProblemInterpreter.java:162-173 | UNIQUE sets uniqueLetters and the uniqueLetters parameter |
| Interpreter.UniqueChildStep | src/main/java/com/morro/cdsl/interpreter/ProblemInterpreter.java:162-173 | one child of the unique loop |
| Interpreter.GeneralConditionChild | src/main/java/com/morro/cdsl/interpreter/ProblemInterpreter.java:179-195 | a CONDITION_EXPR is appended to the general conditions, and also to the word conditions when the problem type is WORDS |
| Interpreter.InterpretGeneralCondition | src/main/java/com/morro/cdsl/interpreter/ProblemInterpreter.java:179-195 | the context reaches GeneralCondition over the children |
| Interpreter.GeneralConditionChildStep | src/main/java/com/morro/cdsl/interpreter/ProblemInterpreter.java:179-195 | one child of the condition loop |
| Interpreter.DrawChild | src/main/java/com/morro/cdsl/interpreter/ProblemInterpreter.java:337-355 | REPLACEMENT succeeds exactly for a string or null and sets withReplacement exactly when the text is REPLACEMENT, changing nothing else |
| Interpreter.InterpretDrawDeclaration | src/main/java/com/morro/cdsl/interpreter/ProblemInterpreter.java:337-355 | DRAW_COUNT sets the draw count and REPLACEMENT withReplacement |
| Interpreter.DrawChildStep | src/main/java/com/morro/cdsl/interpreter/ProblemInterpreter.java:337-355 | one child of the draw loop |
| Interpreter.InterpretCalculate | src/main/java/com/morro/cdsl/interpreter/ProblemInterpreter.java:357-367 | CALCULATION_TYPE sets the calculation type |
| Interpreter.CalculateChildStep | src/main/java/com/morro/cdsl/interpreter/ProblemInterpreter.java:357-367 | one child of the calculate loop |
| Interpreter.InterpretUnknownsDeclaration | src/main/java/com/morro/cdsl/interpreter/ProblemInterpreter.java:373-384 | UNKNOWNS_COUNT sets unknowns and the unknowns parameter |
| Interpreter.UnknownsChildStep | src/main/java/com/morro/cdsl/interpreter/ProblemInterpreter.java:373-384 | one child of the unknowns loop |
| Interpreter.InterpretSumDeclaration | src/main/java/com/morro/cdsl/interpreter/ProblemInterpreter.java:386-397 | SUM_VALUE sets sum and the sum parameter |
| Interpreter.SumChildStep | src/main/java/com/morro/cdsl/interpreter/ProblemInterpreter.java:386-397 | one child of the sum loop |
| Interpreter.InterpretDomainDeclaration | src/main/java/com/morro/cdsl/interpreter/ProblemInterpreter.java:399-410 | DOMAIN sets domain and the domain parameter |
| Interpreter.DomainChildStep | src/main/java/com/morro/cdsl/interpreter/ProblemInterpreter.java:399-410 | one child of the domain loop |
| Interpreter.InterpretConstraintsDeclaration | src/main/java/com/morro/cdsl/interpreter/ProblemInterpreter.java:412-422 | each CONSTRAINT is appended to the constraints |
| Interpreter.ConstraintsChildStep | src/main/java/com/morro/cdsl/interpreter/ProblemInterpreter.java:412-422 | one child of the constraints loop |
| Interpreter.InterpretRemaindersDeclaration | src/main/java/com/morro/cdsl/interpreter/ProblemInterpreter.java:428-457 | DIVIDEND, DIVISOR and REMAINDER set their fields and parameters; afterwards the problem type is REMAINDERS |
| Interpreter.RemaindersChildStep | src/main/java/com/morro/cdsl/interpreter/ProblemInterpreter.java:428-457 | one child of the remainders loop |
| Interpreter.LastValue | src/main/java/com/morro/cdsl/interpreter/ProblemInterpreter.java:292-318 | none exactly when no child has the kind; otherwise the value of some child of that kind |
| Interpreter.CardPartsAreLast | src/main/java/com/morro/cdsl/interpreter/ProblemInterpreter.java:292-318 | the card loop fails exactly when a RANK or SUIT value is not a string, and otherwise keeps the last rank and the last suit |
| Interpreter.BadTextSnoc | src/main/java/com/morro/cdsl/interpreter/ProblemInterpreter.java:292-318 | a non-string value of a kind occurs after one more child exactly when it did before or the new child is one |
| Interpreter.CardAddedWhenComplete | src/main/java/com/morro/cdsl/interpreter/ProblemInterpreter.java:292-318 | a successful card appends Card(last rank, last suit) to the target cards exactly when both were given, else changes nothing |
| Interpreter.InterpretCard | src/main/java/com/morro/cdsl/interpreter/ProblemInterpreter.java:292-318 | the context reaches CardItem |
| Interpreter.CountConditionItem | src/main/java/com/morro/cdsl/interpreter/ProblemInterpreter.java:250-290 | a successful count condition either changes nothing or appends exactly one count condition and changes nothing else |
| Interpreter.BadIntegerSnoc | src/main/java/com/morro/cdsl/interpreter/ProblemInterpreter.java:250-290 | a non-Integer value of a kind occurs after one more child exactly when it did before or the new child is one |
| Interpreter.LastSnoc | src/main/java/com/morro/cdsl/interpreter/ProblemInterpreter.java:250-290 | the last text / integer of a kind after one more child is that child's when it has the kind, else the earlier one |
| Interpreter.CountPartsFail | src/main/java/com/morro/cdsl/interpreter/ProblemInterpreter.java:250-290 | the count loop fails exactly when COUNT_TYPE, COUNT_VALUE or OPERATOR is not a string or TARGET_VALUE not an Integer |
| Interpreter.CountPartsAreLast | src/main/java/com/morro/cdsl/interpreter/ProblemInterpreter.java:250-290 | a successful count loop keeps the last value of each of the four kinds |
| Interpreter.CountConditionAddedWhenComplete | src/main/java/com/morro/cdsl/interpreter/ProblemInterpreter.java:250-290 | a successful count condition appends CountCondition(last type, value, operator, target) exactly when all four are present, else changes nothing |
| Interpreter.InterpretCountCondition | src/main/java/com/morro/cdsl/interpreter/ProblemInterpreter.java:250-290 | the context reaches CountConditionItem |
| Interpreter.InterpretWordCondition | src/main/java/com/morro/cdsl/interpreter/ProblemInterpreter.java:320-331 | each CONDITION_TYPE is appended to both the word and the general conditions |
| Interpreter.WordConditionChildStep | src/main/java/com/morro/cdsl/interpreter/ProblemInterpreter.java:320-331 | one child of the word-condition loop |
| Interpreter.InterpretTargetItem | src/main/java/com/morro/cdsl/interpreter/ProblemInterpreter.java:226-248 | a CARD, COUNT_CONDITION or CONDITION item goes to its routine; other items change nothing |
| Interpreter.InterpretTargetDeclaration | src/main/java/com/morro/cdsl/interpreter/ProblemInterpreter.java:201-224 | a TARGET_LIST child processes each item in order; a single item is processed alone; no child changes nothing |
| InterpreterBlocks.HasKindSnoc | src/main/java/com/morro/cdsl/interpreter/ProblemInterpreter.java:840-895 | a kind occurs among the children after one more child exactly when it did before or the new child has it |
| InterpreterBlocks.BoardIsLast | src/main/java/com/morro/cdsl/interpreter/ProblemInterpreter.java:840-895 | the board is the last BOARD_HEIGHT / BOARD_WIDTH given, 8 by default |
| InterpreterBlocks.ChessBoardDefaults | src/main/java/com/morro/cdsl/interpreter/ProblemInterpreter.java:840-895 | after CHESS the type is CHESS and board height and width (fields and parameters) are the last given, 8 when absent |
| InterpreterBlocks.AppendEntry | src/main/java/com/morro/cdsl/interpreter/ProblemInterpreter.java:840-895 | appending one map entry to the text gives the entries text of one more key |
| InterpreterBlocks.EntriesString | src/main/java/com/morro/cdsl/interpreter/ProblemInterpreter.java:840-895 | the joined 'key sep value' text of a map in iteration order |
| InterpreterBlocks.ChessChildStep | src/main/java/com/morro/cdsl/interpreter/ProblemInterpreter.java:840-895 | one child of the chess loop |
| InterpreterBlocks.PutPieces | src/main/java/com/morro/cdsl/interpreter/ProblemInterpreter.java:840-895 | the pieces are stored in the context and its parameters |
| InterpreterBlocks.InterpretChessDeclaration | src/main/java/com/morro/cdsl/interpreter/ProblemInterpreter.java:840-895 | the context reaches ChessDeclaration |
| InterpreterBlocks.GetOrderText | src/main/java/com/morro/cdsl/interpreter/ProblemInterpreter.java:826-834 | ASC, DESC, NON_DECREASING and NON_INCREASING (any case) map to their Russian descriptions; any other order is returned unchanged |
| InterpreterBlocks.OrderTextIgnoresCase | src/main/java/com/morro/cdsl/interpreter/ProblemInterpreter.java:826-834 | orders that differ only in case get the same text |
| InterpreterBlocks.FormatPositions | src/main/java/com/morro/cdsl/interpreter/ProblemInterpreter.java:821-823 | String.join("", positions): a single position is itself |
| InterpreterBlocks.FormatSingleCharacters | src/main/java/com/morro/cdsl/interpreter/ProblemInterpreter.java:821-823 | for one-character positions the result has one character per position, in order |
| InterpreterBlocks.NumbersChildLocals | src/main/java/com/morro/cdsl/interpreter/ProblemInterpreter.java:692-818 | each NUMBERS child changes only the local of its own kind |
| InterpreterBlocks.NumbersLocalsAreLast | src/main/java/com/morro/cdsl/interpreter/ProblemInterpreter.java:692-818 | digits and maxDigit are the last given (3 and 9 by default), order the last ORDER; each flag holds exactly when its child occurs |
| InterpreterBlocks.NumbersDefaults | src/main/java/com/morro/cdsl/interpreter/ProblemInterpreter.java:692-818 | after NUMBERS the type is NUMBERS and the description parameter is built from those locals |
| InterpreterBlocks.NumbersChildStep | src/main/java/com/morro/cdsl/interpreter/ProblemInterpreter.java:692-818 | one child of the numbers loop |
| InterpreterBlocks.BuildNumbersDescription | src/main/java/com/morro/cdsl/interpreter/ProblemInterpreter.java:692-818 | the description string is NumbersDescription |
| InterpreterBlocks.InterpretNumbersDeclaration | src/main/java/com/morro/cdsl/interpreter/ProblemInterpreter.java:692-818 | the context reaches NumbersDeclaration |
| InterpreterBlocks.AnyChildSnoc | src/main/java/com/morro/cdsl/interpreter/ProblemInterpreter.java:586-686 | some child satisfies the test after one more child exactly when before or the new one does |
| InterpreterBlocks.PutCountsAt | src/main/java/com/morro/cdsl/interpreter/ProblemInterpreter.java:586-686 | each colour of the map gets a prefix+lower-case key holding its count |
| InterpreterBlocks.PrefixCancels | src/main/java/com/morro/cdsl/interpreter/ProblemInterpreter.java:586-686 | equal prefixed keys have equal colours |
| InterpreterBlocks.DefaultDraw | src/main/java/com/morro/cdsl/interpreter/ProblemInterpreter.java:668-672 | the default draw: RED, then BLUE when more than 1, then GREEN when more than 2, each once |
| InterpreterBlocks.UnionEmpty | src/main/java/com/morro/cdsl/interpreter/ProblemInterpreter.java:586-686 | merged maps are empty exactly when both are |
| InterpreterBlocks.BallsChildLocals | src/main/java/com/morro/cdsl/interpreter/ProblemInterpreter.java:586-686 | the urn stays empty exactly when no child fills it; a child that sets no draw leaves the draw and its count alone |
| InterpreterBlocks.BallsLocalsFacts | src/main/java/com/morro/cdsl/interpreter/ProblemInterpreter.java:586-686 | after the loop the urn is empty exactly when no child filled it; with no draw child the draw is empty and its count is 1 |
| InterpreterBlocks.DefaultUrnLowerCasesDiffer | src/main/java/com/morro/cdsl/interpreter/ProblemInterpreter.java:654-656 | the default urn colours have distinct lower-case names |
| InterpreterBlocks.PutCountsKeeps | src/main/java/com/morro/cdsl/interpreter/ProblemInterpreter.java:586-686 | keys outside the prefixed colour keys are untouched |
| InterpreterBlocks.DefaultUrnCount | src/main/java/com/morro/cdsl/interpreter/ProblemInterpreter.java:654-656 | each default colour's key holds its default count |
| InterpreterBlocks.DefaultUrnCounts | src/main/java/com/morro/cdsl/interpreter/ProblemInterpreter.java:654-656 | the default urn is red 3, blue 5, green 2, white 1, black 4 |
| InterpreterBlocks.SingleKeyOrder | src/main/java/com/morro/cdsl/interpreter/ProblemInterpreter.java:668-672 | a one-entry map has a single iteration order |
| InterpreterBlocks.DefaultDrawOne | src/main/java/com/morro/cdsl/interpreter/ProblemInterpreter.java:668-672 | drawing one ball by default shows RED 1 |
| InterpreterBlocks.FinishDefaultUrn | src/main/java/com/morro/cdsl/interpreter/ProblemInterpreter.java:654-684 | with no urn given the default counts and the default contents text are stored |
| InterpreterBlocks.FinishDefaultDraw | src/main/java/com/morro/cdsl/interpreter/ProblemInterpreter.java:668-684 | with no draw given and a count of 1, draw_balls is RED 1 |
| InterpreterBlocks.BallsDefaultUrn | src/main/java/com/morro/cdsl/interpreter/ProblemInterpreter.java:586-686 | a BALLS declaration without urn contents stores the default counts and contents text |
| InterpreterBlocks.BallsDefaultDraw | src/main/java/com/morro/cdsl/interpreter/ProblemInterpreter.java:586-686 | a BALLS declaration without any draw child stores draw_balls RED 1 |
| InterpreterBlocks.UrnTotalAnyOrder | src/main/java/com/morro/cdsl/interpreter/ProblemInterpreter.java:586-686 | totalBalls does not depend on the HashMap iteration order and is the 32-bit wrapped sum of the counts |
| InterpreterBlocks.PutEntries | src/main/java/com/morro/cdsl/interpreter/ProblemInterpreter.java:586-686 | stores each colour's count under its prefixed key and returns the entries text |
| InterpreterBlocks.PutUrn | src/main/java/com/morro/cdsl/interpreter/ProblemInterpreter.java:586-686 | the context becomes UrnUpdate: urn contents, counts, text and total |
| InterpreterBlocks.PutDraw | src/main/java/com/morro/cdsl/interpreter/ProblemInterpreter.java:586-686 | the context becomes DrawUpdate and the total drawn is the sum |
| InterpreterBlocks.BallsChildStep | src/main/java/com/morro/cdsl/interpreter/ProblemInterpreter.java:586-686 | one child of the balls loop |
| InterpreterBlocks.PutDefaultDraw | src/main/java/com/morro/cdsl/interpreter/ProblemInterpreter.java:668-672 | stores the default draw for the count |
| InterpreterBlocks.PutDefaultUrn | src/main/java/com/morro/cdsl/interpreter/ProblemInterpreter.java:654-656 | stores the default urn |
| InterpreterBlocks.FinishBalls | src/main/java/com/morro/cdsl/interpreter/ProblemInterpreter.java:652-686 | the context becomes BallsFinish: defaults, then the type BALLS_AND_URNS |
| InterpreterBlocks.InterpretBallsDeclaration | src/main/java/com/morro/cdsl/interpreter/ProblemInterpreter.java:586-686 | the context reaches BallsDeclaration |
| InterpreterBlocks.LastOrSnoc | src/main/java/com/morro/cdsl/interpreter/ProblemInterpreter.java:463-580 | the last text / integer of a kind after one more child is that child's when it has the kind, else the earlier one |
| InterpreterBlocks.DivChildLocals | src/main/java/com/morro/cdsl/interpreter/ProblemInterpreter.java:463-580 | each DIVISIBILITY child changes only its own local; CONDITION also appends to the general conditions |
| InterpreterBlocks.DivLocalsAreLast | src/main/java/com/morro/cdsl/interpreter/ProblemInterpreter.java:463-580 | digits and factor are the last given (2 by default), rule and operation the last given (default rule, INCREASE); conditions and positions are all of them in order |
| InterpreterBlocks.DivNumbersAreLast | src/main/java/com/morro/cdsl/interpreter/ProblemInterpreter.java:463-580 | digits and factor are the last given (2 by default), the rule and the operation type the last given (default rule, INCREASE) |
| InterpreterBlocks.DivTextsAreLast | src/main/java/com/morro/cdsl/interpreter/ProblemInterpreter.java:463-580 | the transformation sequence is the last given; conditions and digit positions are all of them in order, and the conditions are also appended to the general conditions |
| InterpreterBlocks.DivisibilityFacts | src/main/java/com/morro/cdsl/interpreter/ProblemInterpreter.java:463-580 | after DIVISIBILITY the type is DIVISIBILITY; description, digits, factor and transformation parameters come from those locals; the conditions are appended to the general conditions |
| InterpreterBlocks.DivSummaryFacts | src/main/java/com/morro/cdsl/interpreter/ProblemInterpreter.java:463-580 | the summary holds digits, factor and the transformation text |
| InterpreterBlocks.DivChildStep | src/main/java/com/morro/cdsl/interpreter/ProblemInterpreter.java:463-580 | one child of the divisibility loop |
| InterpreterBlocks.PutDivSummary | src/main/java/com/morro/cdsl/interpreter/ProblemInterpreter.java:463-580 | stores the summary parameters |
| InterpreterBlocks.PutPositions | src/main/java/com/morro/cdsl/interpreter/ProblemInterpreter.java:463-580 | stores the positions parameters |
| InterpreterBlocks.PutSequence | src/main/java/com/morro/cdsl/interpreter/ProblemInterpreter.java:463-580 | stores the sequence parameter |
| InterpreterBlocks.PutConditions | src/main/java/com/morro/cdsl/interpreter/ProblemInterpreter.java:463-580 | stores the conditions parameter |
| InterpreterBlocks.PutCollected | src/main/java/com/morro/cdsl/interpreter/ProblemInterpreter.java:463-580 | stores the collected parameters |
| InterpreterBlocks.BuildDivDescription | src/main/java/com/morro/cdsl/interpreter/ProblemInterpreter.java:463-580 | the description string is DivDescription |
| InterpreterBlocks.InterpretDivisibilityDeclaration | src/main/java/com/morro/cdsl/interpreter/ProblemInterpreter.java:463-580 | the context reaches DivisibilityDeclaration |
| ProgramInterpreter.BlockType | src/main/java/com/morro/cdsl/interpreter/ProblemInterpreter.java:18-72 | a node kind sets a problem type exactly when it is one of the REMAINDERS, DIVISIBILITY, BALLS, NUMBERS or CHESS blocks |
| ProgramInterpreter.FoldKeepsType | src/main/java/com/morro/cdsl/interpreter/ProblemInterpreter.java:18-72 | a loop of steps that keep the problem type keeps it |
| ProgramInterpreter.CardChildrenKeepType | src/main/java/com/morro/cdsl/interpreter/ProblemInterpreter.java:113-177 | deck, alphabet, length and unique children do not change the problem type |
| ProgramInterpreter.ConditionChildrenKeepType | src/main/java/com/morro/cdsl/interpreter/ProblemInterpreter.java:179-367 | draw, condition, calculate and word-condition children do not change the problem type |
| ProgramInterpreter.EquationChildrenKeepType | src/main/java/com/morro/cdsl/interpreter/ProblemInterpreter.java:373-422 | unknowns, sum, domain and constraints children do not change the problem type |
| ProgramInterpreter.CommonKeepsType | src/main/java/com/morro/cdsl/interpreter/ProblemInterpreter.java:113-422 | every declaration other than TASK and the five blocks keeps the problem type |
| ProgramInterpreter.TargetKeepsType | src/main/java/com/morro/cdsl/interpreter/ProblemInterpreter.java:201-224 | a TARGET declaration keeps the problem type |
| ProgramInterpreter.TargetItemKeepsType | src/main/java/com/morro/cdsl/interpreter/ProblemInterpreter.java:226-248 | a target item keeps the problem type |
| ProgramInterpreter.OtherType | src/main/java/com/morro/cdsl/interpreter/ProblemInterpreter.java:428-895 | for the non-common kinds: a block sets its problem type, the equation declarations keep it, an unknown kind changes nothing |
| ProgramInterpreter.DispatchType | src/main/java/com/morro/cdsl/interpreter/ProblemInterpreter.java:18-72 | for any node: a block sets its problem type, every other known kind except TASK keeps it, and an unknown kind (the default branch) changes nothing |
| ProgramInterpreter.TypeKeptAcross | src/main/java/com/morro/cdsl/interpreter/ProblemInterpreter.java:18-72 | a run of nodes with no block and no TASK keeps the problem type |
| ProgramInterpreter.FoldAppend | src/main/java/com/morro/cdsl/interpreter/ProblemInterpreter.java:15-73 | processing two node lists in turn is processing their concatenation |
| ProgramInterpreter.LastBlockWins | src/main/java/com/morro/cdsl/interpreter/ProblemInterpreter.java:11-81 | when the last block is followed by no TASK or block, the final problem type is that block's |
| ProgramInterpreter.TypeUnsetWithoutBlocks | src/main/java/com/morro/cdsl/interpreter/ProblemInterpreter.java:11-81 | a program with no block and no TASK leaves the problem type unset |
| ProgramInterpreter.InterpretNodeStep | src/main/java/com/morro/cdsl/interpreter/ProblemInterpreter.java:18-72 | one node of the program loop dispatched by its type |
| ProgramInterpreter.InterpretCommonStep | src/main/java/com/morro/cdsl/interpreter/ProblemInterpreter.java:18-72 | the switch arms for the ordinary declarations |
| ProgramInterpreter.InterpretOtherStep | src/main/java/com/morro/cdsl/interpreter/ProblemInterpreter.java:18-72 | the switch arms for the blocks |
| ProgramInterpreter.Interpret | src/main/java/com/morro/cdsl/interpreter/ProblemInterpreter.java:11-81 | a fresh context reaches InterpretProgram of the AST |
| Context.ProblemContext.constructor | src/main/java/com/morro/cdsl/interpreter/ProblemContext.java:10-62 | a new context holds the field initialisers of the record: empty lists and maps, no problem type, the default numbers |
| Context.ProblemContext.SetProblemType | src/main/java/com/morro/cdsl/interpreter/ProblemContext.java:66 | the setter replaces only its field; every other field is unchanged |
| Context.ProblemContext.SetTaskName | src/main/java/com/morro/cdsl/interpreter/ProblemContext.java:69 | the setter replaces only its field; every other field is unchanged |
| Context.ProblemContext.SetCalculationType | src/main/java/com/morro/cdsl/interpreter/ProblemContext.java:72 | the setter replaces only its field; every other field is unchanged |
| Context.ProblemContext.SetDeckType | src/main/java/com/morro/cdsl/interpreter/ProblemContext.java:75 | the setter replaces only its field; every other field is unchanged |
| Context.ProblemContext.SetDeckSize | src/main/java/com/morro/cdsl/interpreter/ProblemContext.java:78 | the setter replaces only its field; every other field is unchanged |
| Context.ProblemContext.SetTargetCard | src/main/java/com/morro/cdsl/interpreter/ProblemContext.java:81 | the setter replaces only its field; every other field is unchanged |
| Context.ProblemContext.SetTargetCards | src/main/java/com/morro/cdsl/interpreter/ProblemContext.java:84 | the setter replaces only its field; every other field is unchanged |
| Context.ProblemContext.SetDrawCount | src/main/java/com/morro/cdsl/interpreter/ProblemContext.java:87 | the setter replaces only its field; every other field is unchanged |
| Context.ProblemContext.SetWithReplacement | src/main/java/com/morro/cdsl/interpreter/ProblemContext.java:90 | the setter replaces only its field; every other field is unchanged |
| Context.ProblemContext.SetAlphabet | src/main/java/com/morro/cdsl/interpreter/ProblemContext.java:93 | the setter replaces only its field; every other field is unchanged |
| Context.ProblemContext.SetWordLength | src/main/java/com/morro/cdsl/interpreter/ProblemContext.java:96 | the setter replaces only its field; every other field is unchanged |
| Context.ProblemContext.SetUniqueLetters | src/main/java/com/morro/cdsl/interpreter/ProblemContext.java:99 | the setter replaces only its field; every other field is unchanged |
| Context.ProblemContext.SetWordConditions | src/main/java/com/morro/cdsl/interpreter/ProblemContext.java:102 | the setter replaces only its field; every other field is unchanged |
| Context.ProblemContext.SetBoardHeight | src/main/java/com/morro/cdsl/interpreter/ProblemContext.java:106 | the setter replaces only its field; every other field is unchanged |
| Context.ProblemContext.SetBoardWidth | src/main/java/com/morro/cdsl/interpreter/ProblemContext.java:109 | the setter replaces only its field; every other field is unchanged |
| Context.ProblemContext.SetPieces | src/main/java/com/morro/cdsl/interpreter/ProblemContext.java:112 | the setter replaces only its field; every other field is unchanged |
| Context.ProblemContext.SetAttacking | src/main/java/com/morro/cdsl/interpreter/ProblemContext.java:115 | the setter replaces only its field; every other field is unchanged |
| Context.ProblemContext.SetDividend | src/main/java/com/morro/cdsl/interpreter/ProblemContext.java:118 | the setter replaces only its field; every other field is unchanged |
| Context.ProblemContext.SetDivisor | src/main/java/com/morro/cdsl/interpreter/ProblemContext.java:121 | the setter replaces only its field; every other field is unchanged |
| Context.ProblemContext.SetRemainder | src/main/java/com/morro/cdsl/interpreter/ProblemContext.java:124 | the setter replaces only its field; every other field is unchanged |
| Context.ProblemContext.SetNumberLength | src/main/java/com/morro/cdsl/interpreter/ProblemContext.java:127 | the setter replaces only its field; every other field is unchanged |
| Context.ProblemContext.SetTransformations | src/main/java/com/morro/cdsl/interpreter/ProblemContext.java:130 | the setter replaces only its field; every other field is unchanged |
| Context.ProblemContext.SetDivisibilityCondition | src/main/java/com/morro/cdsl/interpreter/ProblemContext.java:133 | the setter replaces only its field; every other field is unchanged |
| Context.ProblemContext.SetUrnContents | src/main/java/com/morro/cdsl/interpreter/ProblemContext.java:136 | the setter replaces only its field; every other field is unchanged |
| Context.ProblemContext.SetSequentialDraw | src/main/java/com/morro/cdsl/interpreter/ProblemContext.java:139 | the setter replaces only its field; every other field is unchanged |
| Context.ProblemContext.SetBallDrawCount | src/main/java/com/morro/cdsl/interpreter/ProblemContext.java:142 | the setter replaces only its field; every other field is unchanged |
| Context.ProblemContext.SetUnknowns | src/main/java/com/morro/cdsl/interpreter/ProblemContext.java:145 | the setter replaces only its field; every other field is unchanged |
| Context.ProblemContext.SetCoefficients | src/main/java/com/morro/cdsl/interpreter/ProblemContext.java:148 | the setter replaces only its field; every other field is unchanged |
| Context.ProblemContext.SetSum | src/main/java/com/morro/cdsl/interpreter/ProblemContext.java:151 | the setter replaces only its field; every other field is unchanged |
| Context.ProblemContext.SetDomain | src/main/java/com/morro/cdsl/interpreter/ProblemContext.java:154 | the setter replaces only its field; every other field is unchanged |
| Context.ProblemContext.SetConstraints | src/main/java/com/morro/cdsl/interpreter/ProblemContext.java:157 | the setter replaces only its field; every other field is unchanged |
| Context.ProblemContext.SetDigits | src/main/java/com/morro/cdsl/interpreter/ProblemContext.java:160 | the setter replaces only its field; every other field is unchanged |
| Context.ProblemContext.SetDistinctDigits | src/main/java/com/morro/cdsl/interpreter/ProblemContext.java:163 | the setter replaces only its field; every other field is unchanged |
| Context.ProblemContext.SetAdjacentDifferent | src/main/java/com/morro/cdsl/interpreter/ProblemContext.java:166 | the setter replaces only its field; every other field is unchanged |
| Context.ProblemContext.SetNumberOrder | src/main/java/com/morro/cdsl/interpreter/ProblemContext.java:169 | the setter replaces only its field; every other field is unchanged |
| Context.ProblemContext.AddWordCondition | src/main/java/com/morro/cdsl/interpreter/ProblemContext.java:102 | the condition is appended to the word conditions; nothing else changes |
| Context.ProblemContext.AddGeneralCondition | src/main/java/com/morro/cdsl/interpreter/ProblemInterpreter.java:185 | addGeneralCondition as the interpreter calls it: the condition is appended to the general conditions; nothing else changes |
| Context.ProblemContext.AddCountCondition | src/main/java/com/morro/cdsl/interpreter/ProblemInterpreter.java:285 | addCountCondition as the interpreter calls it: the condition is appended; nothing else changes |
| Context.ProblemContext.AddConstraint | src/main/java/com/morro/cdsl/interpreter/ProblemInterpreter.java:418 | addConstraint as the interpreter calls it: the constraint is appended; nothing else changes |
| Context.ProblemContext.AddTargetCard | src/main/java/com/morro/cdsl/interpreter/ProblemInterpreter.java:313 | getTargetCards().add: the card is appended to the target cards; nothing else changes |
| Context.ProblemContext.PutAllPieces | src/main/java/com/morro/cdsl/interpreter/ProblemInterpreter.java:864 | getPieces().putAll: the entries are merged into the pieces, the new ones winning |
| Context.ProblemContext.SetAdditionalParam | src/main/java/com/morro/cdsl/interpreter/ProblemContext.java:171-173 | setAdditionalParam (and setParameter as the interpreter calls it): only that key of the parameter map changes |
| Context.ProblemContext.GetAdditionalParam | src/main/java/com/morro/cdsl/interpreter/ProblemContext.java:175-177 | get from the parameter map: present exactly when the key is, then the stored value |
| Context.ProblemContext.GetIntParameter | src/main/java/com/morro/cdsl/interpreter/ProblemContext.java:171-177 | an int parameter is itself, a numeric string is parsed, anything else (missing, null, other) is 0 |
| Context.SetThenGet | src/main/java/com/morro/cdsl/interpreter/ProblemContext.java:171-177 | after setting a key, getting it gives the value and other keys are unchanged |
| Context.OptTexts | src/main/java/com/morro/cdsl/interpreter/ProblemContext.java:180-229 | one text per list element |
| Context.CardTexts | src/main/java/com/morro/cdsl/interpreter/ProblemContext.java:180-229 | one text per card |
| Context.IntTexts | src/main/java/com/morro/cdsl/interpreter/ProblemContext.java:180-229 | one text per integer |
| Context.DescribeHasOneSection | src/main/java/com/morro/cdsl/interpreter/ProblemContext.java:180-229 | toString prints the header, then exactly the section of the problem type (none when unset), then the footer |
| Context.Describe | src/main/java/com/morro/cdsl/interpreter/ProblemContext.java:180-229 | toString opens with 'Task: ' and closes with the calculation footer |
| Context.ProblemContext.ToString | src/main/java/com/morro/cdsl/interpreter/ProblemContext.java:180-229 | the context's toString opens with 'Task: ' and ends with the calculation type, or 'Unknown' when it is null |
| Context.SectionLabelsDiffer | src/main/java/com/morro/cdsl/interpreter/ProblemContext.java:180-229 | different problem types have different section labels |
| Context.HeaderWhenUnset | src/main/java/com/morro/cdsl/interpreter/ProblemContext.java:180-229 | with no type and no name the header is "Task: Unknown 'Unnamed'" |
| BallsImage.ColorLetters | src/main/java/com/morro/service/BallsImageGenerator.java:28-35 | every ball colour is a non-empty word of capital letters |
| BallsImage.ColorKeyHasNoSep | src/main/java/com/morro/service/BallsImageGenerator.java:244-259 | a word whose upper case is a ball colour contains no space or comma |
| BallsImage.ParseParts | src/main/java/com/morro/service/BallsImageGenerator.java:244-259 | parsing the parts keeps every key already in the map, adds only ball colours, and never alters a non-colour entry |
| BallsImage.ParseBalls | src/main/java/com/morro/service/BallsImageGenerator.java:244-259 | a null or empty balls string leaves the map unchanged; otherwise only ball colours are added and no key is lost |
| BallsImage.NoColorNoChange | src/main/java/com/morro/service/BallsImageGenerator.java:244-259 | parts none of which is a colour leave the map unchanged |
| BallsImage.ParsePartsAt | src/main/java/com/morro/service/BallsImageGenerator.java:248-257 | one step of the loop: a non-colour part is skipped, a colour followed by digits gets that count (or NumberFormatException when it overflows), a colour without digits counts 1 |
| BallsImage.ParseBallsString | src/main/java/com/morro/service/BallsImageGenerator.java:244-259 | the loop over the split parts computes ParseBalls |
| BallsImage.Tokens | src/main/java/com/morro/service/BallsImageGenerator.java:244-259 | the printed map's last token is the last count |
| BallsImage.EntriesFront | src/main/java/com/morro/service/BallsImageGenerator.java:244-259 | the printed map is its first entry followed by ", " and the rest |
| BallsImage.NatTextHasNoSep | src/main/java/com/morro/service/BallsImageGenerator.java:244-259 | a non-negative count prints as digits, so holds no separator |
| BallsImage.FieldsOfLastEntry | src/main/java/com/morro/service/BallsImageGenerator.java:244-259 | splitting "colour count" gives the colour and the count |
| BallsImage.FieldsOfEntry | src/main/java/com/morro/service/BallsImageGenerator.java:244-259 | splitting "colour count, rest" gives colour, count, an empty field and the fields of the rest |
| BallsImage.FieldsOfEntries | src/main/java/com/morro/service/BallsImageGenerator.java:244-259 | splitting a printed map gives its entries' fields in order |
| BallsImage.NonEmptyEntryFields | src/main/java/com/morro/service/BallsImageGenerator.java:244-259 | dropping the empty fields leaves exactly the colour and count tokens |
| BallsImage.SplitEntries | src/main/java/com/morro/service/BallsImageGenerator.java:244-259 | split("[,\\s]+") of a printed map is its colour and count tokens |
| BallsImage.ParseTokens | src/main/java/com/morro/service/BallsImageGenerator.java:244-259 | parsing the tokens of distinct colours with in-range counts succeeds and records each colour's count |
| BallsImage.UppersDistinct | src/main/java/com/morro/service/BallsImageGenerator.java:244-259 | distinct keys of a colour map stay distinct in upper case |
| BallsImage.ParseMapTokens | src/main/java/com/morro/service/BallsImageGenerator.java:244-259 | parsing a colour map's tokens gives back the map, keyed by upper-case colour |
| BallsImage.ParsePrintedMap | src/main/java/com/morro/service/BallsImageGenerator.java:244-259 | parsing a printed colour-count map gives back exactly that map, whatever the key order |
| BallsImage.KeyColor | src/main/java/com/morro/service/BallsImageGenerator.java:170-198 | a key's colour, when it has one, is a ball colour |
| BallsImage.PrefixCounts | src/main/java/com/morro/service/BallsImageGenerator.java:178-187 | exactly the keys with the prefix, a colour after it and a positive int value contribute, each with that value |
| BallsImage.PrefixCountsStep | src/main/java/com/morro/service/BallsImageGenerator.java:178-187 | one step of the parameter loop adds the key's colour when its value is positive |
| BallsImage.FromParam | src/main/java/com/morro/service/BallsImageGenerator.java:172-176 | a balls parameter read back yields only ball colours |
| BallsImage.UrnContents | src/main/java/com/morro/service/BallsImageGenerator.java:170-198 | a parse error of the contents string is passed on; a non-empty parsed contents is used as is; failing that the positive ball_* counts; failing those RED 4, BLUE 3, GREEN 2, WHITE 1; never empty, colours only |
| BallsImage.DrawFallback | src/main/java/com/morro/service/BallsImageGenerator.java:220-231 | with no drawn balls: n<=0 gives RED and BLUE; otherwise RED, BLUE when n>1, GREEN when n>2; each count 1 |
| BallsImage.DrawBalls | src/main/java/com/morro/service/BallsImageGenerator.java:200-233 | a parse error of draw_balls is passed on; a non-empty parsed draw_balls is used as is; failing that the positive draw_* counts; failing those DrawFallback(drawCount); never empty, colours only |
| BallsImage.CollectPrefixed | src/main/java/com/morro/service/BallsImageGenerator.java:178-187 | the loop over the parameters computes PrefixCounts |
| BallsImage.ParseParam | src/main/java/com/morro/service/BallsImageGenerator.java:172-176 | reading a balls parameter computes FromParam |
| BallsImage.ExtractUrnContents | src/main/java/com/morro/service/BallsImageGenerator.java:170-198 | extractUrnContents computes UrnContents, with its three stages: contents, then ball_* counts, then the fixed urn |
| BallsImage.ExtractDrawBalls | src/main/java/com/morro/service/BallsImageGenerator.java:200-233 | extractDrawBalls computes DrawBalls, with its three stages: draw_balls, then draw_* counts, then DrawFallback(drawCount) |
| BallsImage.UpperOfCapitals | src/main/java/com/morro/service/BallsImageGenerator.java:244-259 | a word of capitals is its own upper case |
| BallsImage.ReadBackIsSame | src/main/java/com/morro/service/BallsImageGenerator.java:244-259 | a colour map read back with the same counts under the same upper-case keys is the same map |
| BallsImage.CapitalsAreColorCounts | src/main/java/com/morro/service/BallsImageGenerator.java:244-259 | a map from ball colours to in-range counts is a colour-count map |
| BallsImage.ContentsReadBack | src/main/java/com/morro/service/BallsImageGenerator.java:170-198 | a contents parameter holding a printed colour map is read back as that map |
| BallsImage.UrnReadBack | src/main/java/com/morro/service/BallsImageGenerator.java:170-198 | the urn the interpreter stores is read back by the renderer with the same colours and counts |
| BallsImage.DefaultUrnReadsBack | src/main/java/com/morro/service/BallsImageGenerator.java:244-259 | the interpreter's default urn string parses back to the default urn |
| BallsImage.DefaultUrnShown | src/main/java/com/morro/service/BallsImageGenerator.java:170-198 | a BALLS block with no urn entries is drawn with the default urn |
| BallsImage.DefaultDrawReadsBack | src/main/java/com/morro/service/BallsImageGenerator.java:244-259 | the interpreter's default draw string parses back to the default draw |
| BallsImage.DrawFallbackIsDefault | src/main/java/com/morro/service/BallsImageGenerator.java:220-231 | for a positive count the renderer's fallback draw equals the interpreter's default draw |
| BallsImage.UrnDefaultsKeepDraw | src/main/java/com/morro/service/BallsImageGenerator.java:200-233 | filling in the urn defaults leaves the draw_balls parameter as it was |
| BallsImage.DefaultDrawParam | src/main/java/com/morro/service/BallsImageGenerator.java:200-233 | with no DRAW entries and a positive count, draw_balls holds the printed default draw |
| BallsImage.DefaultDrawShown | src/main/java/com/morro/service/BallsImageGenerator.java:200-233 | with no DRAW entries and a positive count the renderer draws the default draw |
| BallsImage.ExtractDrawType | src/main/java/com/morro/service/BallsImageGenerator.java:235-242 | a missing or non-string drawType gives sequential; a string gives sequential exactly when it equals SEQUENTIAL or DRAW_SEQUENTIAL ignoring case |
| BallsImage.DrawTypeCases | src/main/java/com/morro/service/BallsImageGenerator.java:235-242 | no drawType and "sequential" give a sequential draw, "SIMULTANEOUS" does not |
| BallsImage.DrawTypeReadBack | src/main/java/com/morro/service/BallsImageGenerator.java:235-242 | after a DRAW_TYPE child the renderer's draw type is the one the interpreter recorded |
| RemaindersImage.ParamText | src/main/java/com/morro/service/RemaindersImageGenerator.java:53-86 | a parameter has a text exactly when its key is present and not null, and then it is the value's string |
| RemaindersImage.FirstNamed | src/main/java/com/morro/service/RemaindersImageGenerator.java:67-80 | the text found is that of a parameter naming the dividend with a usable text, and every such parameter before it is unusable (so it is the first); none exactly when every such parameter is unusable |
| RemaindersImage.Dividend | src/main/java/com/morro/service/RemaindersImageGenerator.java:53-86 | never empty or "DIVIDEND", and in stage order: the context's dividend when usable, else the usable dividend parameter, else the first usable named parameter (FirstNamed), else "X" |
| RemaindersImage.SearchParameters | src/main/java/com/morro/service/RemaindersImageGenerator.java:67-80 | the loop over the parameters, which breaks at the first usable one, computes FirstNamed |
| RemaindersImage.ExtractDividend | src/main/java/com/morro/service/RemaindersImageGenerator.java:53-86 | extractDividend computes Dividend, with its four stages in order |
| RemaindersImage.Divisor | src/main/java/com/morro/service/RemaindersImageGenerator.java:88-112 | at least 1: the field when positive; else a positive Integer parameter, or a String parameter parsing to a positive int, as it is; 1 for a missing, non-numeric or non-positive parameter |
| RemaindersImage.ExtractDivisor | src/main/java/com/morro/service/RemaindersImageGenerator.java:88-112 | extractDivisor computes Divisor, parameter kinds and the final guard included |
| RemaindersImage.DivisorShown | src/main/java/com/morro/service/RemaindersImageGenerator.java:88-112 | after a DIVISOR child the renderer shows the interpreted divisor when positive, else 1 |
| RemaindersImage.DividendShown | src/main/java/com/morro/service/RemaindersImageGenerator.java:53-86 | after a DIVIDEND child the renderer shows the interpreted dividend when usable; otherwise the dividend parameter is unusable too |
| WordsImage.DefaultAlphabetLength | src/main/java/com/morro/service/WordsImageGenerator.java:30-33 | the default Russian alphabet has 33 letters |
| WordsImage.Spaced | src/main/java/com/morro/service/WordsImageGenerator.java:94-101 | the letters separated by ", " take 3n-2 characters |
| WordsImage.SpacedAt | src/main/java/com/morro/service/WordsImageGenerator.java:94-101 | letter i stands at 3i, followed by ", " unless it is the last |
| WordsImage.SpacedPrefix | src/main/java/com/morro/service/WordsImageGenerator.java:94-101 | the first k letters spaced are a prefix of all the letters spaced |
| WordsImage.Letters | src/main/java/com/morro/service/WordsImageGenerator.java:94-101 | one single-letter string per character, in order |
| WordsImage.SpacedIsJoin | src/main/java/com/morro/service/WordsImageGenerator.java:94-101 | the spaced letters are the letters joined by ", " |
| WordsImage.FormatAlphabet | src/main/java/com/morro/service/WordsImageGenerator.java:88-105 | null or empty gives "{}"; otherwise 3n characters between braces |
| WordsImage.FormatIsJoin | src/main/java/com/morro/service/WordsImageGenerator.java:88-105 | formatAlphabet is "{" + the letters joined by ", " + "}" |
| WordsImage.FormatAlphabetLoop | src/main/java/com/morro/service/WordsImageGenerator.java:88-105 | the StringBuilder loop computes FormatAlphabet |
| WordsImage.ChosenAlphabet | src/main/java/com/morro/service/WordsImageGenerator.java:30-33 | the alphabet used is never empty: the context's when non-empty, else the default |
| WordsImage.Cut | src/main/java/com/morro/service/WordsImageGenerator.java:65-69 | a text over 50 characters becomes its first 47 and "...}"; shorter ones stay; the result has at most 51 |
| WordsImage.AlphabetText | src/main/java/com/morro/service/WordsImageGenerator.java:62-69 | the alphabet line starts with the label, ends with "}" and has at most 51 characters |
| WordsImage.LabelLength | src/main/java/com/morro/service/WordsImageGenerator.java:63 | the label "Алфавит: " has 9 characters |
| WordsImage.CutAt47 | src/main/java/com/morro/service/WordsImageGenerator.java:65-69 | the cut keeps the label and the first 38 characters after it |
| WordsImage.LongAlphabetCut | src/main/java/com/morro/service/WordsImageGenerator.java:62-69 | an alphabet of 14 letters or more is shown as its first 13 letters and "...}" |
| WordsImage.AlphabetCut | src/main/java/com/morro/service/WordsImageGenerator.java:62-69 | up to 13 letters are shown whole; from 14 on, the first 13 and "...}" |
| WordsImage.ShortAlphabetWhole | src/main/java/com/morro/service/WordsImageGenerator.java:62-69 | an alphabet of at most 13 letters is shown whole |
| WordsImage.DefaultAlphabetShown | src/main/java/com/morro/service/WordsImageGenerator.java:30-33 | with no alphabet the line shows the first 13 default letters and "...}" |
| WordsImage.AlphabetLine | src/main/java/com/morro/service/WordsImageGenerator.java:62-69 | drawAlphabetAndWordInfo's text computation computes AlphabetText |

## Left out

- Drawing, fonts, colours, images, files and `System.out` output of the generators and of the interpreter's debug lines: not modelled; only the values the generators compute from the context are.
- `java.util.Random` (background choices, remainder styles): not modelled.
- Java regular expressions: each pattern the core uses is written out as a function over characters (`split("[,\\s]+")`, `\\d+`, the keyword patterns); there is no general regex engine.
- Unicode case mapping: `toUpperCase`/`toLowerCase` are modelled on ASCII letters only; the Cyrillic keyword spellings are not modelled.
- JavaText.IsDigit, JavaText.IsLetterOrDigit: `Character.isDigit` (rule 3, CDSLTokenizer.java 132 and 136) is modelled on the ASCII digits only. `Character.isLetterOrDigit` (isWholeWord, 637-658, and isWholeWordOrPhrase, 479-516) is modelled on the ASCII letters and digits, U+00AA, U+00B5, U+00BA, U+00C0-U+00FF without U+00D7 and U+00F7, and the Cyrillic U+0400-U+0481 and U+048A-U+052F. Every other Unicode decimal digit and letter counts as neither. So the line `٣` (U+0663) is UNKNOWN in the model but INTEGER in Java. `TASKω` is TASK followed by UNKNOWN `ω` in the model, but one UNKNOWN token in Java, because there the letter ω makes the whole-word test reject TASK.
- WordsImage.FormatAlphabet, WordsImage.Cut, WordsImage.AlphabetLine, Tokenizer.TokenizeLine: the model counts Unicode scalar values where Java counts UTF-16 code units. `alphabet.toCharArray()` (WordsImageGenerator.java 94), `length() > 50` and `substring(0, 47)` (66-68), and the `charAt`/`length()` positions and columns of tokenizeLine (CDSLTokenizer.java 77-219) all work on code units. A character outside the Basic Multilingual Plane is one letter of length 1 in the model. In Java it is two surrogate halves: formatAlphabet prints them as two separate letters, it counts 2 towards the 50-character cut, the cut can fall between the halves, and every later column on its line is one higher.
- TokenType.java is not part of this model; the keyword spellings and their order in the matching table are chosen by the model (kind name in upper case, operators by hand) and the tokenizer is stated for any table of that shape.
- `HashMap` iteration order: unspecified in Java; functions and methods take the key order (a sequence of the map's keys, or an ordering function) as a parameter and hold for every order. Where an ordering function is passed (`JavaMaps.KeyOrder`), one function serves all maps, so the order depends on the key set alone; Java may iterate two maps with equal contents differently after different insertion histories, which the model does not distinguish.
- The object identity and aliasing of `ASTNode`, `Card` and `Token`: these are values in the model, so sharing of children between nodes is not modelled.
- Parser.Parser.Parse: the top-level loop takes a fuel bound, because in Java it does not end on some inputs: a pass that hands the cursor back to where it started adds the same declaration again and again. `Declarations.Stalls` names these inputs and `Declarations.StallsStay`, `Declarations.ProgramStuck` and `Parser.Parser.Step` prove that the cursor stays put: `CHESS` (the chess branch steps back onto it and the chess loop stops there at once); `NUMBERS` or `DIVISIBILITY` directly followed by a command keyword; `DIVIDEND`, `DIVISOR` or `REMAINDER` directly followed by a command keyword (the remainders loop reads one attribute and steps back onto the keyword); `BALLS [` (parseBallsDeclaration steps back onto BALLS); and a `[` colour list right after `SEQUENTIAL`, `SIMULTANEOUS` or an integer in int range, as in `SEQUENTIAL [ RED 2 ]` or `5 [ RED 2 ]` (CDSLParser.java 93-94 send the `[` to parseBallsDeclaration, which steps back onto that token at 932-934 and reads it again as the draw type or the draw count at 978-988; `Declarations.DrawTypeBracketStalls`, `Declarations.DrawCountBracketStalls`). An integer out of int range there throws NumberFormatException, and the loop then goes on past the `[`.
- Parser.Parser.Step: a `[` colour list that does not follow URN, DRAW, `[`, a draw type or an integer makes parseBallsDeclaration step back one token before the `[` (`Declarations.UrnStartStepsBack`); when the token there is then skipped, the loop alternates between the two positions for ever. The model proves the step back; the two-position cycle is not stated as a lemma.
- Parser.Parser.constructor: requires the token list to end with the EOF token. The tokenizer does not always append it. For blank input it returns the empty list (CDSLTokenizer.java 33-35, `Tokenizer.TokenizeBlank`). It also adds EOF only when some token was found (50-52), so comment-only input such as `// note` gives the empty list too. On that list `parse` evaluates `while (!isAtEnd())` (CDSLParser.java 26) outside its `try`. `peek` (1244-1246) calls `tokens.get(0)`, and the IndexOutOfBoundsException escapes `parse`. The model does not represent that exception and admits only lists that end with EOF.
- Context.ProblemContext.GetIntParameter: `getIntParameter`, `setParameter`, `getParameter` and `getAllParameters` are called by the interpreter and the generators but are not declared in ProblemContext.java; the model gives them one map of additional parameters, with `getIntParameter` returning an `Integer` value itself, a numeric `String` parsed, and 0 otherwise.
- Context.ProblemContext.AddGeneralCondition, Context.ProblemContext.AddCountCondition, Context.ProblemContext.AddConstraint: not declared in ProblemContext.java either; modelled as appending to a list, as the interpreter's calls use them.
- `divisor` and `remainder` are `String` fields in ProblemContext.java while the interpreter stores `int` values in them; the model keeps them as `int`.
- Tokens.HashCodeRespectsEqual: holds because the hash is a function of the same four fields; it says no more than that.
- `isKnownWordCondition` (CDSLParser.java 236-251), and `interpretNumbersCondition` (ProblemInterpreter.java 901-920) and `interpretDivisibilityCondition` (922-938), are never called and are not modelled.
- Exceptions are `Err` results carrying the Java exception's name or message; their stack traces and the exact message text beyond that are not modelled.

## Findings

| source | as written | input that shows it | evidently intended | confidence | as-written member | corrected member |
|---|---|---|---|---|---|---|
| src/main/java/com/morro/cdsl/tokenizer/CDSLTokenizer.java:188-195, src/main/java/com/morro/cdsl/tokenizer/CDSLTokenizer.java:561-601, src/main/java/com/morro/cdsl/tokenizer/CDSLTokenizer.java:637-658 | after a two-character operator (`==`, `!=`, `>=`, `<=`) that the keyword rule does not claim, the single-character rule advances the position by one, so the second character is scanned again | the line `5==3`: the integer rule stops after `5`; the whole-word test then rejects every keyword at the operator because the digit precedes it, so the single-character rule gives EQUALS `==` at column 2 and then a second token at column 3, inside it | advance by the length of the operator, so tokens never overlap | not executed | Tokenizer.AsWrittenRescansOperator | Tokenizer.ScanFromDisjoint |
| src/main/java/com/morro/cdsl/parser/CDSLParser.java:563-606 | the COUNT type is chosen by comparing the token's text with upper-case names, although keywords match case-insensitively | `COUNT(suit hearts) = 2`: `suit` is a SUIT keyword, yet no value vocabulary is chosen and the parse fails at `hearts` | choose the vocabulary by the token's kind | not executed | Grammar.LowerCaseCountFailsAsWritten | Grammar.LowerCaseCountParses |
