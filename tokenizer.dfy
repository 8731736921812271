/** The CDSL tokenizer: splits the input into lines and each trimmed line into tokens by
    six rules tried in order (quoted string, digit position, integer, keyword from an
    ordered table, single character, unknown run). */
module Tokenizer {
  import opened Wrappers
  import opened JavaText
  import opened Tokens

  // ================================================================ keyword table

  type Spelling = s: string | |s| > 0 witness "?"

  /** One row of the keyword table: a kind and the spellings of its pattern, in the order
      the pattern's alternation tries them. */
  datatype Entry = Entry(kind: TokenKind, spellings: seq<Spelling>)

  /** `getOrderedTokenTypes`: the order in which the keyword rule tries the kinds. */
  function KeywordTable(): seq<Entry> {
    TransformationKeywords()
    + NumberKeywords()
    + ComplexKeywords()
    + CalculationKeywords()
    + CommandKeywords()
    + TaskTypeKeywords()
    + ChessPieceKeywords()
    + ChessKeywords()
    + DeckKeywords()
    + SuitKeywords()
    + RankKeywords()
    + CountKeywords()
    + RankClassKeywords()
    + LogicKeywords()
    + ComparisonKeywords()
    + ArithmeticKeywords()
    + ParameterKeywords()
    + ColorKeywords()
    + DrawKeywords()
    + ChangeKeywords()
    + VariableKeywords()
    + BooleanKeywords()
    + DigitKeywords()
  }

  function TransformationKeywords(): seq<Entry> {
    [
      Entry(IncreasesByInteger, ["INCREASES_BY_INTEGER"]),
      Entry(DecreasesByInteger, ["DECREASES_BY_INTEGER"]),
      Entry(IncreasesByFactor, ["INCREASES_BY_FACTOR"]),
      Entry(DecreasesByFactor, ["DECREASES_BY_FACTOR"]),
      Entry(FormationRule, ["FORMATION_RULE"]),
      Entry(ResultingNumber, ["RESULTING_NUMBER"]),
      Entry(ChangeRule, ["CHANGE_RULE"]),
      Entry(Transformation, ["TRANSFORMATION"]),
      Entry(NumberLength, ["NUMBER_LENGTH"]),
      Entry(CannotBeZero, ["CANNOT_BE_ZERO"]),
      Entry(SingleDigit, ["SINGLE_DIGIT"]),
      Entry(FormNumber, ["FORM_NUMBER"]),
      Entry(AllowDuplicates, ["ALLOW_DUPLICATES"])
    ]
  }

  function NumberKeywords(): seq<Entry> {
    [
      Entry(MaxDigit, ["MAX_DIGIT"]),
      Entry(FirstNotZero, ["FIRST_NOT_ZERO"]),
      Entry(AdjacentDifferent, ["ADJACENT_DIFFERENT"]),
      Entry(NonDecreasing, ["NON_DECREASING"]),
      Entry(NonIncreasing, ["NON_INCREASING"]),
      Entry(Compare, ["COMPARE"]),
      Entry(RangeStart, ["RANGE_START"]),
      Entry(RangeEnd, ["RANGE_END"]),
      Entry(Total, ["TOTAL"])
    ]
  }

  function ComplexKeywords(): seq<Entry> {
    [
      Entry(Divisibility, ["DIVISIBILITY"]),
      Entry(Remainders, ["REMAINDERS"]),
      Entry(Equations, ["EQUATIONS"]),
      Entry(Calculate, ["CALCULATE"]),
      Entry(BoardHeight, ["BOARD_HEIGHT"]),
      Entry(BoardWidth, ["BOARD_WIDTH"]),
      Entry(Coefficients, ["COEFFICIENTS"]),
      Entry(Constraints, ["CONSTRAINTS"]),
      Entry(Replacement, ["REPLACEMENT"]),
      Entry(NoReplacement, ["NO_REPLACEMENT"]),
      Entry(DrawCount, ["DRAW_COUNT"]),
      Entry(DividesBy, ["DIVISIBLE BY"]),
      Entry(GreaterEqual, [">="]),
      Entry(LessEqual, ["<="]),
      Entry(NotEquals, ["!="])
    ]
  }

  function CalculationKeywords(): seq<Entry> {
    [
      Entry(Probability, ["PROBABILITY"]),
      Entry(Combinations, ["COMBINATIONS"]),
      Entry(Expectation, ["EXPECTATION"])
    ]
  }

  function CommandKeywords(): seq<Entry> {
    [
      Entry(Task, ["TASK"]),
      Entry(Deck, ["DECK"]),
      Entry(Target, ["TARGET"]),
      Entry(Draw, ["DRAW"]),
      Entry(Condition, ["CONDITION"])
    ]
  }

  function TaskTypeKeywords(): seq<Entry> {
    [
      Entry(Cards, ["CARDS"]),
      Entry(Words, ["WORDS"]),
      Entry(Chess, ["CHESS"]),
      Entry(Numbers, ["NUMBERS"]),
      Entry(Equations, ["EQUATIONS"]),
      Entry(Balls, ["BALLS"]),
      Entry(Divisibility, ["DIVISIBILITY"]),
      Entry(Remainders, ["REMAINDERS"])
    ]
  }

  function ChessPieceKeywords(): seq<Entry> {
    [
      Entry(ChessRook, ["CHESS_ROOK"]),
      Entry(ChessKnight, ["CHESS_KNIGHT"]),
      Entry(ChessBishop, ["CHESS_BISHOP"]),
      Entry(ChessQueen, ["CHESS_QUEEN"]),
      Entry(ChessKing, ["CHESS_KING"]),
      Entry(ChessPawn, ["CHESS_PAWN"])
    ]
  }

  function ChessKeywords(): seq<Entry> {
    [
      Entry(Pieces, ["PIECES"]),
      Entry(Attacking, ["ATTACKING"]),
      Entry(NonAttacking, ["NON_ATTACKING"])
    ]
  }

  function DeckKeywords(): seq<Entry> {
    [
      Entry(Standard, ["STANDARD"]),
      Entry(French, ["FRENCH"]),
      Entry(Spanish, ["SPANISH"]),
      Entry(Custom, ["CUSTOM"])
    ]
  }

  function SuitKeywords(): seq<Entry> {
    [
      Entry(Hearts, ["HEARTS"]),
      Entry(Diamonds, ["DIAMONDS"]),
      Entry(Clubs, ["CLUBS"]),
      Entry(Spades, ["SPADES"])
    ]
  }

  function RankKeywords(): seq<Entry> {
    [
      Entry(Ace, ["ACE"]),
      Entry(King, ["KING"]),
      Entry(Queen, ["QUEEN"]),
      Entry(Jack, ["JACK"]),
      Entry(Rank, ["RANK"])
    ]
  }

  function CountKeywords(): seq<Entry> {
    [
      Entry(Count, ["COUNT"]),
      Entry(Suit, ["SUIT"]),
      Entry(Color, ["COLOR"]),
      Entry(RankType, ["RANK_TYPE"]),
      Entry(RankValue, ["RANK_VALUE"]),
      Entry(RankRange, ["RANK_RANGE"])
    ]
  }

  function RankClassKeywords(): seq<Entry> {
    [
      Entry(Red, ["RED"]),
      Entry(Black, ["BLACK"]),
      Entry(Number, ["NUMBER"]),
      Entry(Face, ["FACE"]),
      Entry(Royal, ["ROYAL"]),
      Entry(Low, ["LOW"]),
      Entry(High, ["HIGH"]),
      Entry(Even, ["EVEN"]),
      Entry(Odd, ["ODD"])
    ]
  }

  function LogicKeywords(): seq<Entry> {
    [
      Entry(And, ["AND"]),
      Entry(Or, ["OR"]),
      Entry(Not, ["NOT"])
    ]
  }

  function ComparisonKeywords(): seq<Entry> {
    [
      Entry(Equals, ["==", "="]),
      Entry(Greater, [">"]),
      Entry(Less, ["<"])
    ]
  }

  function ArithmeticKeywords(): seq<Entry> {
    [
      Entry(Plus, ["+"]),
      Entry(Minus, ["-"]),
      Entry(Multiply, ["*"]),
      Entry(Divide, ["/"]),
      Entry(Modulo, ["%"])
    ]
  }

  function ParameterKeywords(): seq<Entry> {
    [
      Entry(Alphabet, ["ALPHABET"]),
      Entry(Length, ["LENGTH"]),
      Entry(Unique, ["UNIQUE"]),
      Entry(Unknowns, ["UNKNOWNS"]),
      Entry(Sum, ["SUM"]),
      Entry(Domain, ["DOMAIN"]),
      Entry(Dividend, ["DIVIDEND"]),
      Entry(Divisor, ["DIVISOR"]),
      Entry(Remainder, ["REMAINDER"]),
      Entry(Urn, ["URN"]),
      Entry(Contents, ["CONTENTS"]),
      Entry(Distinct, ["DISTINCT"]),
      Entry(Order, ["ORDER"]),
      Entry(Ascending, ["ASCENDING"]),
      Entry(Descending, ["DESCENDING"]),
      Entry(Digits, ["DIGITS"]),
      Entry(Rule, ["RULE"]),
      Entry(Factor, ["FACTOR"]),
      Entry(Tokens.Result, ["RESULT"]),
      Entry(Times, ["TIMES"])
    ]
  }

  function ColorKeywords(): seq<Entry> {
    [
      Entry(Blue, ["BLUE"]),
      Entry(Green, ["GREEN"]),
      Entry(White, ["WHITE"])
    ]
  }

  function DrawKeywords(): seq<Entry> {
    [
      Entry(Sequential, ["SEQUENTIAL"]),
      Entry(Simultaneous, ["SIMULTANEOUS"])
    ]
  }

  function ChangeKeywords(): seq<Entry> {
    [
      Entry(Unchanged, ["UNCHANGED"]),
      Entry(Increasing, ["INCREASING"]),
      Entry(Decreasing, ["DECREASING"])
    ]
  }

  function VariableKeywords(): seq<Entry> {
    [
      Entry(Variable, ["X10", "X1", "X2", "X3", "X4", "X5", "X6", "X7", "X8", "X9"])
    ]
  }

  function BooleanKeywords(): seq<Entry> {
    [
      Entry(Boolean, ["YES", "NO", "TRUE", "FALSE"])
    ]
  }

  function DigitKeywords(): seq<Entry> {
    [
      Entry(Tokens.DigitValue, ["0", "1", "2", "3", "4", "5", "6", "7", "8", "9"])
    ]
  }
  /** The kinds the keyword rule steps over. */
  predicate SkippedByKeywordRule(k: TokenKind) {
    k == Unknown || k == String || k == Integer || k == DigitPosition
  }

  /** A letter, a digit or `_`: the characters that may not touch a keyword. */
  predicate IsWordChar(c: char) {
    IsLetterOrDigit(c) || c == '_'
  }

  /** `isWholeWord`: the `len` characters at `pos` are neither preceded nor followed by a
      word character. */
  predicate IsWholeWord(upper: string, pos: nat, len: nat)
    requires pos + len <= |upper|
  {
    (pos == 0 || !IsWordChar(upper[pos - 1]))
    && (pos + len >= |upper| || !IsWordChar(upper[pos + len]))
  }

  /** `isWholeWordOrPhrase`: bare chess piece names, phrases and long keywords get their own
      branches, and each of them performs the same boundary test. */
  function IsWholeWordOrPhrase(value: string, upper: string, pos: nat): (r: bool)
    requires pos + |value| <= |upper|
    ensures r == IsWholeWord(upper, pos, |value|)
  {
    if value == "ROOK" || value == "KNIGHT" || value == "BISHOP" || value == "QUEEN"
       || value == "KING" || value == "PAWN" then
      IsWholeWord(upper, pos, |value|)
    else if ' ' in value || |value| > 15 then
      if pos > 0 && IsWordChar(upper[pos - 1]) then false
      else if pos + |value| < |upper| && IsWordChar(upper[pos + |value|]) then false
      else true
    else
      IsWholeWord(upper, pos, |value|)
  }

  /** The spelling the anchored pattern of an entry matches: the first alternative that is a
      prefix of the rest of the line (the regex engine does not retry alternatives when the
      boundary test later fails). */
  function FirstPrefix(spellings: seq<Spelling>, rest: string): (r: Option<nat>)
    ensures r.Some? ==> r.value < |spellings| && spellings[r.value] <= rest
    ensures r.Some? ==> forall j :: 0 <= j < r.value ==> !(spellings[j] <= rest)
    ensures r.None? ==> forall j :: 0 <= j < |spellings| ==> !(spellings[j] <= rest)
  {
    if |spellings| == 0 then None
    else if spellings[0] <= rest then Some(0)
    else match FirstPrefix(spellings[1..], rest)
      case None => None
      case Some(j) => Some(j + 1)
  }

  /** The length of the keyword one entry contributes at `pos`, when it contributes one. */
  function Hit(e: Entry, upper: string, pos: nat): (r: Option<nat>)
    requires pos <= |upper|
    ensures r.Some? ==> 0 < r.value && pos + r.value <= |upper|
  {
    if SkippedByKeywordRule(e.kind) then None
    else match FirstPrefix(e.spellings, upper[pos..])
      case None => None
      case Some(j) =>
        var value := e.spellings[j];
        if IsWholeWordOrPhrase(value, upper, pos) then Some(|value|) else None
  }

  /** The keyword rule as a function of the table: the kind and length of the first entry
      that contributes a whole-word match at `pos`. */
  function FindKeyword(table: seq<Entry>, upper: string, pos: nat): (r: Option<(TokenKind, nat)>)
    requires pos <= |upper|
    ensures r.Some? ==> 0 < r.value.1 && pos + r.value.1 <= |upper|
    decreases |table|
  {
    if |table| == 0 then None
    else match Hit(table[0], upper, pos)
      case Some(len) => Some((table[0].kind, len))
      case None => FindKeyword(table[1..], upper, pos)
  }

  /** `FindKeyword` returns the first entry of the table with a hit, and nothing exactly
      when no entry has one. */
  lemma {:induction false} FindKeywordIsFirstHit(table: seq<Entry>, upper: string, pos: nat)
    requires pos <= |upper|
    ensures FindKeyword(table, upper, pos).None? <==>
              forall i :: 0 <= i < |table| ==> Hit(table[i], upper, pos).None?
    ensures FindKeyword(table, upper, pos).Some? ==>
              exists i :: 0 <= i < |table| && Hit(table[i], upper, pos).Some?
                && FindKeyword(table, upper, pos) == Some((table[i].kind, Hit(table[i], upper, pos).value))
                && forall i' :: 0 <= i' < i ==> Hit(table[i'], upper, pos).None?
    decreases |table|
  {
    if |table| > 0 {
      FindKeywordIsFirstHit(table[1..], upper, pos);
      if Hit(table[0], upper, pos).None? {
        assert forall i :: 1 <= i < |table| ==> table[i] == table[1..][i - 1];
        if FindKeyword(table, upper, pos).Some? {
          var i :| 0 <= i < |table[1..]| && Hit(table[1..][i], upper, pos).Some?
                && FindKeyword(table[1..], upper, pos) == Some((table[1..][i].kind, Hit(table[1..][i], upper, pos).value))
                && forall i' :: 0 <= i' < i ==> Hit(table[1..][i'], upper, pos).None?;
          assert Hit(table[i + 1], upper, pos).Some?;
          forall i' | 0 <= i' < i + 1 ensures Hit(table[i'], upper, pos).None? {
            if i' > 0 { assert table[i'] == table[1..][i' - 1]; }
          }
        }
      } else {
        assert FindKeyword(table, upper, pos) == Some((table[0].kind, Hit(table[0], upper, pos).value));
      }
    }
  }

  /** The keyword rule of `tokenizeLine`: walks the table in order and stops at the first
      entry whose pattern matches at `pos` as a whole word. */
  method MatchKeyword(table: seq<Entry>, upper: string, pos: nat) returns (r: Option<(TokenKind, nat)>)
    requires pos <= |upper|
    ensures r == FindKeyword(table, upper, pos)
  {
    var i := 0;
    while i < |table|
      invariant 0 <= i <= |table|
      invariant FindKeyword(table[i..], upper, pos) == FindKeyword(table, upper, pos)
      decreases |table| - i
    {
      var e := table[i];
      assert table[i..][0] == e && table[i..][1..] == table[i + 1..];
      if !SkippedByKeywordRule(e.kind) {
        var j := FirstPrefix(e.spellings, upper[pos..]);
        if j.Some? {
          var value := e.spellings[j.value];
          if IsWholeWordOrPhrase(value, upper, pos) {
            return Some((e.kind, |value|));
          }
        }
      }
      i := i + 1;
    }
    return None;
  }

  // ================================================================ scanning one line

  /** The end of the run of digits that starts at `from`. */
  function DigitRunEnd(s: string, from: nat): (e: nat)
    requires from <= |s|
    ensures from <= e <= |s|
    ensures forall i :: from <= i < e ==> IsDigit(s[i])
    ensures e == |s| || !IsDigit(s[e])
    decreases |s| - from
  {
    if from < |s| && IsDigit(s[from]) then DigitRunEnd(s, from + 1) else from
  }

  /** The characters an unknown run may contain: anything but whitespace, brackets, commas,
      parentheses, colons, semicolons and double quotes. */
  predicate IsUnknownChar(c: char) {
    !IsWhitespace(c) && c != '[' && c != ']' && c != ',' && c != '(' && c != ')'
    && c != ':' && c != ';' && c != '"'
  }

  function UnknownRunEnd(s: string, from: nat): (e: nat)
    requires from <= |s|
    ensures from <= e <= |s|
    ensures forall i :: from <= i < e ==> IsUnknownChar(s[i])
    ensures e == |s| || !IsUnknownChar(s[e])
    decreases |s| - from
  {
    if from < |s| && IsUnknownChar(s[from]) then UnknownRunEnd(s, from + 1) else from
  }

  /** `checkSingleCharacters`: the kind and the length of the punctuation or operator token
      at `pos`, if any; the token's text is the operator itself, which is the slice of the
      line of that length. */
  function SingleChar(line: string, pos: nat): (r: Option<(TokenKind, nat)>)
    requires pos < |line|
    ensures r.Some? ==> (r.value.1 == 1 || r.value.1 == 2) && pos + r.value.1 <= |line|
    ensures r.Some? && r.value.1 == 2 ==> line[pos + 1] == '='
    ensures r.Some? ==> IsSingleCharKind(r.value.0)
  {
    var c := line[pos];
    var nextIsEq := pos + 1 < |line| && line[pos + 1] == '=';
    if c == '[' then Some((Lbracket, 1))
    else if c == ']' then Some((Rbracket, 1))
    else if c == '(' then Some((Lparen, 1))
    else if c == ')' then Some((Rparen, 1))
    else if c == ',' then Some((Comma, 1))
    else if c == ':' then Some((Colon, 1))
    else if c == ';' then Some((Semicolon, 1))
    else if c == '=' then (if nextIsEq then Some((Equals, 2)) else Some((Equals, 1)))
    else if c == '!' then (if nextIsEq then Some((NotEquals, 2)) else None)
    else if c == '>' then (if nextIsEq then Some((GreaterEqual, 2)) else Some((Greater, 1)))
    else if c == '<' then (if nextIsEq then Some((LessEqual, 2)) else Some((Less, 1)))
    else if c == '+' then Some((Plus, 1))
    else if c == '-' then Some((Minus, 1))
    else if c == '*' then Some((Multiply, 1))
    else if c == '/' then Some((Divide, 1))
    else if c == '%' then Some((Modulo, 1))
    else None
  }

  /** The kinds `checkSingleCharacters` can produce. */
  predicate IsSingleCharKind(k: TokenKind) {
    k == Lbracket || k == Rbracket || k == Lparen || k == Rparen || k == Comma || k == Colon
    || k == Semicolon || k == Equals || k == NotEquals || k == GreaterEqual || k == Greater
    || k == LessEqual || k == Less || k == Plus || k == Minus || k == Multiply || k == Divide
    || k == Modulo
  }

  /** One iteration of the scanning loop at `pos`: the token it adds (none for whitespace)
      and the position it continues from. The token's column is always `pos + 1`. */
  function Step(table: seq<Entry>, line: string, upper: string, lineNo: int, pos: nat): (r: (Option<Token>, nat))
    requires |upper| == |line| && pos < |line|
    ensures pos < r.1 <= |line|
  {
    if IsWhitespace(upper[pos]) then (None, pos + 1)
    else if line[pos] == '"' && IndexOf(line, '"', pos + 1) != -1 then
      var e := IndexOf(line, '"', pos + 1);
      (Some(Token(String, line[pos..e + 1], lineNo, pos + 1)), e + 1)
    else if upper[pos] == '[' && IndexOf(upper, ']', pos + 1) != -1
            && IsDigits(upper[pos + 1..IndexOf(upper, ']', pos + 1)]) then
      var e := IndexOf(upper, ']', pos + 1);
      (Some(Token(DigitPosition, line[pos..e + 1], lineNo, pos + 1)), e + 1)
    else if IsDigit(upper[pos]) then
      var e := DigitRunEnd(upper, pos);
      (Some(Token(Integer, line[pos..e], lineNo, pos + 1)), e)
    else WordStep(table, line, upper, lineNo, pos)
  }

  /** Rules 4 to 6 of one iteration: a keyword, a punctuation or operator character, or an
      unknown run; every one of them adds a token, and the scan resumes right after the
      token's text (for a two-character operator too, which corrects the source). */
  function WordStep(table: seq<Entry>, line: string, upper: string, lineNo: int, pos: nat): (r: (Option<Token>, nat))
    requires |upper| == |line| && pos < |line|
    ensures pos < r.1 <= |line| && r.0.Some?
  {
    match FindKeyword(table, upper, pos)
    case Some((k, len)) => (Some(Token(k, line[pos..pos + len], lineNo, pos + 1)), pos + len)
    case None =>
      match SingleChar(line, pos)
      case Some((k, len)) => (Some(Token(k, line[pos..pos + len], lineNo, pos + 1)), pos + len)
      case None =>
        var e := UnknownRunEnd(upper, pos);
        if pos < e then (Some(Token(Unknown, line[pos..e], lineNo, pos + 1)), e)
        else (Some(Token(Unknown, [line[pos]], lineNo, pos + 1)), pos + 1)
  }

  /** Rules 4 to 6 as the source writes them: after the single-character rule the position
      moves by one, even when the token it added is a two-character operator. */
  function WordStepAsWritten(table: seq<Entry>, line: string, upper: string, lineNo: int, pos: nat): (r: (Option<Token>, nat))
    requires |upper| == |line| && pos < |line|
    ensures pos < r.1 <= |line| && r.0.Some?
    ensures SingleChar(line, pos).Some? && FindKeyword(table, upper, pos).None? ==> r.1 == pos + 1
  {
    match FindKeyword(table, upper, pos)
    case Some((k, len)) => (Some(Token(k, line[pos..pos + len], lineNo, pos + 1)), pos + len)
    case None =>
      match SingleChar(line, pos)
      case Some((k, len)) => (Some(Token(k, line[pos..pos + len], lineNo, pos + 1)), pos + 1)
      case None =>
        var e := UnknownRunEnd(upper, pos);
        if pos < e then (Some(Token(Unknown, line[pos..e], lineNo, pos + 1)), e)
        else (Some(Token(Unknown, [line[pos]], lineNo, pos + 1)), pos + 1)
  }

  /** No keyword starts right after a word character: every pattern is anchored by the
      whole-word test, whatever table it comes from. */
  lemma {:induction false} NoKeywordAfterWordChar(table: seq<Entry>, upper: string, pos: nat)
    requires 0 < pos <= |upper| && IsWordChar(upper[pos - 1])
    ensures FindKeyword(table, upper, pos).None?
    decreases |table|
  {
    if |table| > 0 {
      assert Hit(table[0], upper, pos).None?;
      NoKeywordAfterWordChar(table[1..], upper, pos);
    }
  }

  /** As written, on the line `5==3` the scan reads the integer `5` and resumes at the
      `==`. No keyword table (`KeywordTable()` among them) claims the operator, since the
      whole-word test fails after the digit. The single-character rule then gives the token
      `==` at column 2 and resumes inside it, at the second `=`, whose token (at column 3)
      overlaps it. The corrected step resumes after the operator. */
  lemma AsWrittenRescansOperator(table: seq<Entry>)
    ensures ToUpper("5==3") == "5==3"
    ensures Step(table, "5==3", "5==3", 1, 0) == (Some(Token(Integer, "5", 1, 1)), 1)
    ensures ScanFrom(table, "5==3", "5==3", 1, 0) == [Token(Integer, "5", 1, 1)] + ScanFrom(table, "5==3", "5==3", 1, 1)
    ensures Step(table, "5==3", "5==3", 1, 1) == WordStep(table, "5==3", "5==3", 1, 1)
    ensures WordStepAsWritten(table, "5==3", "5==3", 1, 1) == (Some(Token(Equals, "==", 1, 2)), 2)
    ensures var t := WordStepAsWritten(table, "5==3", "5==3", 1, 2).0.value;
      t.column == 3 && !Disjoint([Token(Equals, "==", 1, 2), t])
    ensures WordStep(table, "5==3", "5==3", 1, 1) == (Some(Token(Equals, "==", 1, 2)), 3)
  {
    var line := "5==3";
    assert line[0] == '5' && line[1] == '=' && line[2] == '=' && line[3] == '3';
    assert ToUpper(line) == line;
    assert DigitRunEnd(line, 1) == 1;
    assert DigitRunEnd(line, 0) == 1;
    assert line[0..1] == "5";
    assert IsWordChar(line[0]);
    NoKeywordAfterWordChar(table, line, 1);
    assert line[1..3] == "==";
    var t := WordStepAsWritten(table, line, line, 1, 2).0.value;
    var ts := [Token(Equals, "==", 1, 2), t];
    assert ts[0].column + |ts[0].value| > ts[1].column;
  }

  /** The tokens the scanning loop adds from `pos` to the end of the line. */
  function ScanFrom(table: seq<Entry>, line: string, upper: string, lineNo: int, pos: nat): seq<Token>
    requires |upper| == |line| && pos <= |line|
    decreases |line| - pos
  {
    if pos == |line| then []
    else
      var (t, next) := Step(table, line, upper, lineNo, pos);
      (if t.Some? then [t.value] else []) + ScanFrom(table, line, upper, lineNo, next)
  }

  /** `tokenizeLine` on an already trimmed line: empty lines and `//` comments give nothing. */
  function LineTokens(table: seq<Entry>, line: string, lineNo: int): seq<Token> {
    if |line| == 0 || "//" <= line then [] else ScanFrom(table, line, ToUpper(line), lineNo, 0)
  }

  /** One pass through the body of the scanning loop of `tokenizeLine` at `pos`: the token
      it adds, the position and the column it continues from. */
  method ScanStep(table: seq<Entry>, line: string, upper: string, lineNumber: int, pos: nat,
                  column: int)
    returns (token: Option<Token>, next: nat, nextColumn: int)
    requires |upper| == |line| && pos < |line| && column == pos + 1
    ensures (token, next) == Step(table, line, upper, lineNumber, pos)
    ensures nextColumn == next + 1
  {
    if IsWhitespace(upper[pos]) {
      return None, pos + 1, column + 1;
    }

    // Rule 1: quoted string.
    if line[pos] == '"' {
      var endQuote := IndexOf(line, '"', pos + 1);
      if endQuote != -1 {
        var stringValue := line[pos..endQuote + 1];
        return Some(Token(String, stringValue, lineNumber, column)), endQuote + 1,
               column + |stringValue|;
      }
    }

    // Rule 2: digit position such as [1].
    if upper[pos] == '[' {
      var endBracket := IndexOf(upper, ']', pos + 1);
      if endBracket != -1 {
        var between := upper[pos + 1..endBracket];
        if IsDigits(between) {
          var digitPos := line[pos..endBracket + 1];
          return Some(Token(DigitPosition, digitPos, lineNumber, column)), endBracket + 1,
                 column + |digitPos|;
        }
      }
    }

    // Rule 3: run of digits.
    var p := pos;
    if IsDigit(upper[p]) {
      while p < |upper| && IsDigit(upper[p])
        invariant pos <= p <= |upper|
        invariant DigitRunEnd(upper, p) == DigitRunEnd(upper, pos)
        decreases |upper| - p
      {
        p := p + 1;
      }
      var number := line[pos..p];
      return Some(Token(Integer, number, lineNumber, column)), p, column + |number|;
    }

    // Rules 4 to 6.
    token, next := ScanWord(table, line, upper, lineNumber, pos, column);
    nextColumn := column + (next - pos);
  }

  /** The inner loop of rule 6: the end of the unknown run that starts at `pos`. */
  method ScanUnknownRun(upper: string, pos: nat) returns (p: nat)
    requires pos <= |upper|
    ensures p == UnknownRunEnd(upper, pos)
  {
    p := pos;
    while p < |upper| && IsUnknownChar(upper[p])
      invariant pos <= p <= |upper|
      invariant UnknownRunEnd(upper, p) == UnknownRunEnd(upper, pos)
      decreases |upper| - p
    {
      p := p + 1;
    }
  }

  /** Rules 4 to 6 of the loop body of `tokenizeLine`. */
  method ScanWord(table: seq<Entry>, line: string, upper: string, lineNumber: int, pos: nat,
                  column: int)
    returns (token: Option<Token>, next: nat)
    requires |upper| == |line| && pos < |line| && column == pos + 1
    ensures (token, next) == WordStep(table, line, upper, lineNumber, pos)
  {
    // Rule 4: keywords, in table order.
    var keyword := MatchKeyword(table, upper, pos);
    if keyword.Some? {
      var len := keyword.value.1;
      token, next := Some(Token(keyword.value.0, line[pos..pos + len], lineNumber, column)), pos + len;
      assert (token, next) == WordStep(table, line, upper, lineNumber, pos);
      return;
    }

    // Rule 5: punctuation and operators; the position moves past the whole operator.
    var single := SingleChar(line, pos);
    if single.Some? {
      var len := single.value.1;
      token, next := Some(Token(single.value.0, line[pos..pos + len], lineNumber, column)), pos + len;
      assert (token, next) == WordStep(table, line, upper, lineNumber, pos);
      return;
    }

    // Rule 6: unknown run, or a single unknown character.
    var p := ScanUnknownRun(upper, pos);
    if pos < p {
      token, next := Some(Token(Unknown, line[pos..p], lineNumber, column)), p;
    } else {
      token, next := Some(Token(Unknown, [line[pos]], lineNumber, column)), pos + 1;
    }
    assert (token, next) == WordStep(table, line, upper, lineNumber, pos);
  }

  /** One unfolding of `ScanFrom`. */
  lemma ScanFromStep(table: seq<Entry>, line: string, upper: string, lineNo: int, pos: nat)
    requires |upper| == |line| && pos < |line|
    ensures var (t, next) := Step(table, line, upper, lineNo, pos);
            ScanFrom(table, line, upper, lineNo, pos)
              == if t.Some? then [t.value] + ScanFrom(table, line, upper, lineNo, next)
                 else ScanFrom(table, line, upper, lineNo, next)
  {
    var (t, next) := Step(table, line, upper, lineNo, pos);
    if t.None? {
      assert [] + ScanFrom(table, line, upper, lineNo, next) == ScanFrom(table, line, upper, lineNo, next);
    }
  }

  lemma AppendAssoc<T>(a: seq<T>, b: seq<T>, c: seq<T>)
    ensures (a + b) + c == a + (b + c)
  {
  }

  /** `tokenizeLine`: empty lines and comments give nothing; otherwise the scanning loop
      runs over the upper-cased copy, with `column` kept beside `pos`. */
  method TokenizeLine(table: seq<Entry>, line: string, lineNumber: int) returns (tokens: seq<Token>)
    ensures tokens == LineTokens(table, line, lineNumber)
  {
    tokens := [];
    if |line| == 0 || "//" <= line {
      return;
    }
    var upper := ToUpper(line);
    var pos := 0;
    var column := 1;
    while pos < |upper|
      invariant 0 <= pos <= |upper|
      invariant column == pos + 1
      invariant tokens + ScanFrom(table, line, upper, lineNumber, pos) == ScanFrom(table, line, upper, lineNumber, 0)
      decreases |upper| - pos
    {
      var token, next, nextColumn := ScanStep(table, line, upper, lineNumber, pos, column);
      ScanFromStep(table, line, upper, lineNumber, pos);
      if token.Some? {
        AppendAssoc(tokens, [token.value], ScanFrom(table, line, upper, lineNumber, next));
        tokens := tokens + [token.value];
      }
      pos, column := next, nextColumn;
    }
    assert !(|line| == 0 || "//" <= line);
    assert LineTokens(table, line, lineNumber) == ScanFrom(table, line, upper, lineNumber, 0);
  }

  // ================================================================ whole input

  /** The tokens of `lines`, numbered from `first`, each line trimmed before it is scanned. */
  function LinesTokens(table: seq<Entry>, lines: seq<string>, first: int): seq<Token>
    decreases |lines|
  {
    if |lines| == 0 then []
    else LineTokens(table, Trim(lines[0]), first) + LinesTokens(table, lines[1..], first + 1)
  }

  /** `tokenize` for a given keyword table: nothing for blank input; otherwise the tokens of
      every line followed, when there are any, by an EOF token on the line after the last. */
  function TokenizeWith(table: seq<Entry>, input: string): seq<Token> {
    if Trim(input) == "" then []
    else
      var lines := SplitLines(input);
      var ts := LinesTokens(table, lines, 1);
      if ts == [] then [] else ts + [Token(Eof, "", |lines| + 1, 1)]
  }

  lemma LinesTokensCons(table: seq<Entry>, lines: seq<string>, k: nat, n: int)
    requires k < |lines|
    ensures LinesTokens(table, lines[k..], n)
            == LineTokens(table, Trim(lines[k]), n) + LinesTokens(table, lines[k + 1..], n + 1)
  {
    assert lines[k..][1..] == lines[k + 1..];
  }

  /** The loop of `tokenize` over the lines, numbered from 1. */
  method TokenizeLines(table: seq<Entry>, lines: seq<string>) returns (tokens: seq<Token>)
    ensures tokens == LinesTokens(table, lines, 1)
  {
    tokens := [];
    var lineNumber := 1;
    for k := 0 to |lines|
      invariant lineNumber == k + 1
      invariant tokens + LinesTokens(table, lines[k..], lineNumber) == LinesTokens(table, lines, 1)
    {
      LinesTokensCons(table, lines, k, lineNumber);
      var lineTokens := TokenizeLine(table, Trim(lines[k]), lineNumber);
      AppendAssoc(tokens, lineTokens, LinesTokens(table, lines[k + 1..], lineNumber + 1));
      tokens := tokens + lineTokens;
      lineNumber := lineNumber + 1;
    }
    assert lines[|lines|..] == [];
  }

  /** `tokenize`. */
  method Tokenize(input: string) returns (tokens: seq<Token>)
    ensures tokens == TokenizeWith(KeywordTable(), input)
  {
    tokens := [];
    if Trim(input) == "" {
      return;
    }
    var lines := SplitLines(input);
    tokens := TokenizeLines(KeywordTable(), lines);
    if |tokens| > 0 {
      tokens := tokens + [Token(Eof, "", |lines| + 1, 1)];
    }
  }

  // ================================================================ properties

  /** No entry of the table produces EOF tokens. */
  predicate NoEofEntry(table: seq<Entry>) {
    forall i :: 0 <= i < |table| ==> table[i].kind != Eof
  }

  lemma NoEofEntryConcat(a: seq<Entry>, b: seq<Entry>)
    requires NoEofEntry(a) && NoEofEntry(b)
    ensures NoEofEntry(a + b)
  {
    forall i | 0 <= i < |a + b| ensures (a + b)[i].kind != Eof {
      if i < |a| { assert (a + b)[i] == a[i]; } else { assert (a + b)[i] == b[i - |a|]; }
    }
  }

  lemma GroupsHaveNoEof1()
    ensures NoEofEntry(TransformationKeywords())
            && NoEofEntry(NumberKeywords())
            && NoEofEntry(ComplexKeywords())
            && NoEofEntry(CalculationKeywords())
  {
  }

  lemma GroupsHaveNoEof2()
    ensures NoEofEntry(CommandKeywords())
            && NoEofEntry(TaskTypeKeywords())
            && NoEofEntry(ChessPieceKeywords())
            && NoEofEntry(ChessKeywords())
  {
  }

  lemma GroupsHaveNoEof3()
    ensures NoEofEntry(DeckKeywords())
            && NoEofEntry(SuitKeywords())
            && NoEofEntry(RankKeywords())
            && NoEofEntry(CountKeywords())
  {
  }

  lemma GroupsHaveNoEof4()
    ensures NoEofEntry(RankClassKeywords())
            && NoEofEntry(LogicKeywords())
            && NoEofEntry(ComparisonKeywords())
            && NoEofEntry(ArithmeticKeywords())
  {
  }

  lemma GroupsHaveNoEof5()
    ensures NoEofEntry(ParameterKeywords())
            && NoEofEntry(ColorKeywords())
            && NoEofEntry(DrawKeywords())
            && NoEofEntry(ChangeKeywords())
  {
  }

  lemma GroupsHaveNoEof6()
    ensures NoEofEntry(VariableKeywords())
            && NoEofEntry(BooleanKeywords())
            && NoEofEntry(DigitKeywords())
  {
  }

  /** The keyword table never produces EOF tokens. */
  lemma KeywordTableHasNoEof()
    ensures NoEofEntry(KeywordTable())
  {
    GroupsHaveNoEof1();
    GroupsHaveNoEof2();
    GroupsHaveNoEof3();
    GroupsHaveNoEof4();
    GroupsHaveNoEof5();
    GroupsHaveNoEof6();
    var t := TransformationKeywords();
    NoEofEntryConcat(t, NumberKeywords());
    t := t + NumberKeywords();
    NoEofEntryConcat(t, ComplexKeywords());
    t := t + ComplexKeywords();
    NoEofEntryConcat(t, CalculationKeywords());
    t := t + CalculationKeywords();
    NoEofEntryConcat(t, CommandKeywords());
    t := t + CommandKeywords();
    NoEofEntryConcat(t, TaskTypeKeywords());
    t := t + TaskTypeKeywords();
    NoEofEntryConcat(t, ChessPieceKeywords());
    t := t + ChessPieceKeywords();
    NoEofEntryConcat(t, ChessKeywords());
    t := t + ChessKeywords();
    NoEofEntryConcat(t, DeckKeywords());
    t := t + DeckKeywords();
    NoEofEntryConcat(t, SuitKeywords());
    t := t + SuitKeywords();
    NoEofEntryConcat(t, RankKeywords());
    t := t + RankKeywords();
    NoEofEntryConcat(t, CountKeywords());
    t := t + CountKeywords();
    NoEofEntryConcat(t, RankClassKeywords());
    t := t + RankClassKeywords();
    NoEofEntryConcat(t, LogicKeywords());
    t := t + LogicKeywords();
    NoEofEntryConcat(t, ComparisonKeywords());
    t := t + ComparisonKeywords();
    NoEofEntryConcat(t, ArithmeticKeywords());
    t := t + ArithmeticKeywords();
    NoEofEntryConcat(t, ParameterKeywords());
    t := t + ParameterKeywords();
    NoEofEntryConcat(t, ColorKeywords());
    t := t + ColorKeywords();
    NoEofEntryConcat(t, DrawKeywords());
    t := t + DrawKeywords();
    NoEofEntryConcat(t, ChangeKeywords());
    t := t + ChangeKeywords();
    NoEofEntryConcat(t, VariableKeywords());
    t := t + VariableKeywords();
    NoEofEntryConcat(t, BooleanKeywords());
    t := t + BooleanKeywords();
    NoEofEntryConcat(t, DigitKeywords());
    t := t + DigitKeywords();
  }

  /** A quoted string: a double quote, characters other than double quotes, a double quote. */
  predicate IsQuoted(v: string) {
    |v| >= 2 && v[0] == '"' && v[|v| - 1] == '"' && forall i :: 0 < i < |v| - 1 ==> v[i] != '"'
  }

  /** A digit position such as `[12]`. */
  predicate IsDigitPosition(v: string) {
    |v| >= 3 && v[0] == '[' && v[|v| - 1] == ']' && IsDigits(v[1..|v| - 1])
  }

  /** The kinds only the keyword rule produces. */
  predicate IsKeywordOnlyKind(k: TokenKind) {
    !IsSingleCharKind(k) && !SkippedByKeywordRule(k) && k != Eof
  }

  /** The token's text is the non-empty original-case slice of the line that starts at
      column - 1. */
  predicate IsSliceOf(line: string, t: Token) {
    var start := t.column - 1;
    0 <= start && start + |t.value| <= |line| && 0 < |t.value|
    && t.value == line[start..start + |t.value|]
  }

  /** Strings, digit positions and integers have their shapes, and an integer is a maximal
      run of digits. */
  predicate HasShape(upper: string, t: Token) {
    var end := t.column - 1 + |t.value|;
    (t.kind == String ==> IsQuoted(t.value))
    && (t.kind == DigitPosition ==> IsDigitPosition(t.value))
    && (t.kind == Integer ==> IsDigits(t.value) && 0 <= end <= |upper|
                              && (end == |upper| || !IsDigit(upper[end])))
  }

  /** A token of a kind only the keyword rule produces is what that rule finds at its
      position. */
  predicate FromKeywordRule(table: seq<Entry>, upper: string, t: Token) {
    IsKeywordOnlyKind(t.kind) ==>
      0 <= t.column - 1 <= |upper| && FindKeyword(table, upper, t.column - 1) == Some((t.kind, |t.value|))
  }

  /** What every token the scanning loop adds for line `lineNo` satisfies. */
  predicate WellFormedToken(table: seq<Entry>, line: string, upper: string, lineNo: int, t: Token) {
    t.line == lineNo && t.kind != Eof && IsSliceOf(line, t) && HasShape(upper, t)
    && FromKeywordRule(table, upper, t)
  }

  lemma UpperCharFacts(c: char)
    ensures UpperChar(c) == '[' ==> c == '['
    ensures UpperChar(c) == ']' ==> c == ']'
    ensures IsDigit(UpperChar(c)) ==> IsDigit(c)
  {
  }

  lemma QuotedWellFormed(table: seq<Entry>, line: string, upper: string, lineNo: int, pos: nat, e: int)
    requires |upper| == |line| && pos < |line|
    requires line[pos] == '"' && e == IndexOf(line, '"', pos + 1) && e != -1
    ensures WellFormedToken(table, line, upper, lineNo, Token(String, line[pos..e + 1], lineNo, pos + 1))
  {
    var t := Token(String, line[pos..e + 1], lineNo, pos + 1);
    assert t.column - 1 == pos && t.column - 1 + |t.value| == e + 1;
    assert IsSliceOf(line, t);
    assert IsQuoted(t.value);
    assert HasShape(upper, t);
    assert !IsKeywordOnlyKind(t.kind);
  }

  lemma DigitPositionWellFormed(table: seq<Entry>, line: string, upper: string, lineNo: int, pos: nat, e: int)
    requires |upper| == |line| && pos < |line| && upper == ToUpper(line)
    requires upper[pos] == '[' && e == IndexOf(upper, ']', pos + 1) && e != -1
    requires IsDigits(upper[pos + 1..e])
    ensures WellFormedToken(table, line, upper, lineNo, Token(DigitPosition, line[pos..e + 1], lineNo, pos + 1))
  {
    var v := line[pos..e + 1];
    var t := Token(DigitPosition, v, lineNo, pos + 1);
    UpperCharFacts(line[pos]);
    UpperCharFacts(line[e]);
    assert |v| == e + 1 - pos && v[0] == line[pos] && v[|v| - 1] == line[e];
    var inner := v[1..|v| - 1];
    assert IsDigits(inner) by {
      forall k | 0 <= k < |inner| ensures IsDigit(inner[k]) {
        assert inner[k] == line[pos + 1 + k];
        assert upper[pos + 1..e][k] == upper[pos + 1 + k];
        UpperCharFacts(line[pos + 1 + k]);
      }
    }
    assert IsDigitPosition(t.value);
    assert IsSliceOf(line, t);
    assert HasShape(upper, t);
    assert !IsKeywordOnlyKind(t.kind);
  }

  lemma IntegerWellFormed(table: seq<Entry>, line: string, upper: string, lineNo: int, pos: nat)
    requires |upper| == |line| && pos < |line| && upper == ToUpper(line)
    requires IsDigit(upper[pos])
    ensures WellFormedToken(table, line, upper, lineNo,
                            Token(Integer, line[pos..DigitRunEnd(upper, pos)], lineNo, pos + 1))
  {
    var e := DigitRunEnd(upper, pos);
    var t := Token(Integer, line[pos..e], lineNo, pos + 1);
    forall i | 0 <= i < |t.value| ensures IsDigit(t.value[i]) {
      assert t.value[i] == line[pos + i];
      UpperCharFacts(line[pos + i]);
    }
    assert t.column - 1 == pos && t.column - 1 + |t.value| == e;
    assert IsSliceOf(line, t);
    assert HasShape(upper, t);
    assert !IsKeywordOnlyKind(t.kind);
  }

  /** A kind the keyword rule returns comes from an entry it does not skip. */
  lemma {:induction false} FindKeywordKind(table: seq<Entry>, upper: string, pos: nat)
    requires pos <= |upper| && NoEofEntry(table)
    ensures FindKeyword(table, upper, pos).Some? ==>
              FindKeyword(table, upper, pos).value.0 != Eof
              && !SkippedByKeywordRule(FindKeyword(table, upper, pos).value.0)
    decreases |table|
  {
    if |table| > 0 && Hit(table[0], upper, pos).None? {
      assert NoEofEntry(table[1..]) by {
        forall i | 0 <= i < |table[1..]| ensures table[1..][i].kind != Eof {
          assert table[1..][i] == table[i + 1];
        }
      }
      FindKeywordKind(table[1..], upper, pos);
    }
  }

  /** A token of the keyword rule is well formed. */
  lemma KeywordTokenWellFormed(table: seq<Entry>, line: string, upper: string, lineNo: int, pos: nat,
                               k: TokenKind, len: nat)
    requires |upper| == |line| && pos < |line|
    requires NoEofEntry(table) && FindKeyword(table, upper, pos) == Some((k, len))
    ensures WellFormedToken(table, line, upper, lineNo, Token(k, line[pos..pos + len], lineNo, pos + 1))
  {
    FindKeywordKind(table, upper, pos);
    var t := Token(k, line[pos..pos + len], lineNo, pos + 1);
    assert IsSliceOf(line, t);
    assert HasShape(upper, t);
    assert FromKeywordRule(table, upper, t);
  }

  /** A token of the single-character rule is well formed. */
  lemma SingleCharTokenWellFormed(table: seq<Entry>, line: string, upper: string, lineNo: int, pos: nat,
                                  k: TokenKind, len: nat)
    requires |upper| == |line| && pos < |line|
    requires SingleChar(line, pos) == Some((k, len))
    ensures WellFormedToken(table, line, upper, lineNo, Token(k, line[pos..pos + len], lineNo, pos + 1))
  {
    var t := Token(k, line[pos..pos + len], lineNo, pos + 1);
    assert IsSliceOf(line, t);
    assert HasShape(upper, t);
    assert !IsKeywordOnlyKind(t.kind);
  }

  /** A token of unknown characters is well formed. */
  lemma UnknownTokenWellFormed(table: seq<Entry>, line: string, upper: string, lineNo: int, pos: nat, e: nat)
    requires |upper| == |line| && pos < e <= |line|
    ensures WellFormedToken(table, line, upper, lineNo, Token(Unknown, line[pos..e], lineNo, pos + 1))
  {
    var t := Token(Unknown, line[pos..e], lineNo, pos + 1);
    assert IsSliceOf(line, t);
    assert HasShape(upper, t);
    assert !IsKeywordOnlyKind(t.kind);
  }

  lemma WordStepWellFormed(table: seq<Entry>, line: string, upper: string, lineNo: int, pos: nat)
    requires |upper| == |line| && pos < |line|
    requires NoEofEntry(table)
    ensures var t := WordStep(table, line, upper, lineNo, pos).0.value;
            t.column == pos + 1 && WellFormedToken(table, line, upper, lineNo, t)
  {
    match FindKeyword(table, upper, pos)
    case Some((k, len)) =>
      KeywordTokenWellFormed(table, line, upper, lineNo, pos, k, len);
    case None =>
      match SingleChar(line, pos)
      case Some((k, len)) =>
        SingleCharTokenWellFormed(table, line, upper, lineNo, pos, k, len);
      case None =>
        var e := UnknownRunEnd(upper, pos);
        if pos < e {
          UnknownTokenWellFormed(table, line, upper, lineNo, pos, e);
        } else {
          assert [line[pos]] == line[pos..pos + 1];
          UnknownTokenWellFormed(table, line, upper, lineNo, pos, pos + 1);
        }
  }

  /** The token one step adds is well formed and sits at column `pos + 1`. */
  lemma StepWellFormed(table: seq<Entry>, line: string, upper: string, lineNo: int, pos: nat)
    requires |upper| == |line| && pos < |line| && upper == ToUpper(line)
    requires NoEofEntry(table)
    ensures var t := Step(table, line, upper, lineNo, pos).0;
            t.Some? ==> t.value.column == pos + 1 && WellFormedToken(table, line, upper, lineNo, t.value)
  {
    var t := Step(table, line, upper, lineNo, pos).0;
    if IsWhitespace(upper[pos]) {
      assert t.None?;
    } else if line[pos] == '"' && IndexOf(line, '"', pos + 1) != -1 {
      var e := IndexOf(line, '"', pos + 1);
      assert t == Some(Token(String, line[pos..e + 1], lineNo, pos + 1));
      QuotedWellFormed(table, line, upper, lineNo, pos, e);
    } else if upper[pos] == '[' && IndexOf(upper, ']', pos + 1) != -1
            && IsDigits(upper[pos + 1..IndexOf(upper, ']', pos + 1)]) {
      var e := IndexOf(upper, ']', pos + 1);
      assert t == Some(Token(DigitPosition, line[pos..e + 1], lineNo, pos + 1));
      DigitPositionWellFormed(table, line, upper, lineNo, pos, e);
    } else if IsDigit(upper[pos]) {
      assert t == Some(Token(Integer, line[pos..DigitRunEnd(upper, pos)], lineNo, pos + 1));
      IntegerWellFormed(table, line, upper, lineNo, pos);
    } else {
      assert t == WordStep(table, line, upper, lineNo, pos).0;
      WordStepWellFormed(table, line, upper, lineNo, pos);
    }
  }

  /** Strictly before in reading order: an earlier line, or the same line and an earlier column. */
  predicate Before(a: Token, b: Token) {
    a.line < b.line || (a.line == b.line && a.column < b.column)
  }

  predicate Ordered(ts: seq<Token>) {
    forall i, j :: 0 <= i < j < |ts| ==> Before(ts[i], ts[j])
  }

  lemma OrderedAppend(a: seq<Token>, b: seq<Token>)
    requires Ordered(a) && Ordered(b)
    requires forall i, j :: 0 <= i < |a| && 0 <= j < |b| ==> Before(a[i], b[j])
    ensures Ordered(a + b)
  {
    forall i, j | 0 <= i < j < |a + b| ensures Before((a + b)[i], (a + b)[j]) {
      if j < |a| {
        assert (a + b)[i] == a[i] && (a + b)[j] == a[j];
      } else if i < |a| {
        assert (a + b)[i] == a[i] && (a + b)[j] == b[j - |a|];
      } else {
        assert (a + b)[i] == b[i - |a|] && (a + b)[j] == b[j - |a|];
      }
    }
  }

  /** Every token the scanning loop adds from `pos` on is well formed, lies after `pos`, and
      the tokens come in strictly increasing columns. */
  lemma {:induction false} ScanFromWellFormed(table: seq<Entry>, line: string, upper: string, lineNo: int, pos: nat)
    requires |upper| == |line| && pos <= |line| && upper == ToUpper(line)
    requires NoEofEntry(table)
    ensures var ts := ScanFrom(table, line, upper, lineNo, pos);
            (forall i :: 0 <= i < |ts| ==> ts[i].column > pos && WellFormedToken(table, line, upper, lineNo, ts[i]))
            && Ordered(ts)
    decreases |line| - pos
  {
    if pos < |line| {
      var (t, next) := Step(table, line, upper, lineNo, pos);
      StepWellFormed(table, line, upper, lineNo, pos);
      ScanFromWellFormed(table, line, upper, lineNo, next);
      var rest := ScanFrom(table, line, upper, lineNo, next);
      ScanFromStep(table, line, upper, lineNo, pos);
      if t.Some? {
        var ts := [t.value] + rest;
        forall i | 0 <= i < |ts| ensures ts[i].column > pos && WellFormedToken(table, line, upper, lineNo, ts[i]) {
          if i > 0 { assert ts[i] == rest[i - 1]; }
        }
        OrderedAppend([t.value], rest);
      }
    }
  }

  /** The scan resumes right after the text of the token a step adds. */
  lemma StepResumesAfterToken(table: seq<Entry>, line: string, upper: string, lineNo: int, pos: nat)
    requires |upper| == |line| && pos < |line|
    ensures var (t, next) := Step(table, line, upper, lineNo, pos);
            t.Some? ==> next == pos + |t.value.value| && t.value.column == pos + 1
  {
    if !IsWhitespace(upper[pos]) && !(line[pos] == '"' && IndexOf(line, '"', pos + 1) != -1)
       && !(upper[pos] == '[' && IndexOf(upper, ']', pos + 1) != -1
            && IsDigits(upper[pos + 1..IndexOf(upper, ']', pos + 1)]))
       && !IsDigit(upper[pos]) {
      assert Step(table, line, upper, lineNo, pos) == WordStep(table, line, upper, lineNo, pos);
    }
  }

  /** The texts of the tokens do not overlap: each one ends before the next one starts. */
  predicate Disjoint(ts: seq<Token>) {
    forall i, j :: 0 <= i < j < |ts| ==> ts[i].column + |ts[i].value| <= ts[j].column
  }

  /** The tokens the scanning loop adds from `pos` on start at or after `pos` and do not
      overlap. */
  /** A token that ends where `rest` may begin, put in front of non-overlapping `rest`,
      keeps the tokens from overlapping. */
  lemma DisjointCons(t: Token, rest: seq<Token>, pos: int)
    requires t.column == pos + 1 && Disjoint(rest)
    requires forall i :: 0 <= i < |rest| ==> rest[i].column > pos + |t.value|
    ensures var ts := [t] + rest;
            (forall i :: 0 <= i < |ts| ==> ts[i].column > pos) && Disjoint(ts)
  {
    var ts := [t] + rest;
    forall i | 0 <= i < |ts| ensures ts[i].column > pos {
      if i > 0 { assert ts[i] == rest[i - 1]; }
    }
    forall i, j | 0 <= i < j < |ts| ensures ts[i].column + |ts[i].value| <= ts[j].column {
      assert ts[j] == rest[j - 1];
      if i > 0 { assert ts[i] == rest[i - 1]; }
    }
  }

  /** The tokens the scanning loop adds from `pos` on start at or after `pos` and do not
      overlap. */
  lemma {:induction false} ScanFromDisjoint(table: seq<Entry>, line: string, upper: string, lineNo: int, pos: nat)
    requires |upper| == |line| && pos <= |line|
    ensures var ts := ScanFrom(table, line, upper, lineNo, pos);
            (forall i :: 0 <= i < |ts| ==> ts[i].column > pos) && Disjoint(ts)
    decreases |line| - pos
  {
    if pos < |line| {
      var (t, next) := Step(table, line, upper, lineNo, pos);
      StepResumesAfterToken(table, line, upper, lineNo, pos);
      ScanFromDisjoint(table, line, upper, lineNo, next);
      ScanFromStep(table, line, upper, lineNo, pos);
      if t.Some? {
        DisjointCons(t.value, ScanFrom(table, line, upper, lineNo, next), pos);
      }
    }
  }

  /** Every token of a line lies on that line, is well formed, and the tokens are ordered. */
  lemma LineTokensWellFormed(table: seq<Entry>, line: string, lineNo: int)
    requires NoEofEntry(table)
    ensures var ts := LineTokens(table, line, lineNo);
            (forall i :: 0 <= i < |ts| ==> WellFormedToken(table, line, ToUpper(line), lineNo, ts[i]))
            && Ordered(ts)
  {
    if !(|line| == 0 || "//" <= line) {
      ScanFromWellFormed(table, line, ToUpper(line), lineNo, 0);
    }
  }

  /** The texts of the tokens of one line do not overlap. */
  lemma LineTokensDisjoint(table: seq<Entry>, line: string, lineNo: int)
    ensures Disjoint(LineTokens(table, line, lineNo))
  {
    if !(|line| == 0 || "//" <= line) {
      ScanFromDisjoint(table, line, ToUpper(line), lineNo, 0);
    }
  }

  /** The token is well formed with respect to its own trimmed line among `lines`, which
      are numbered from `first`. */
  predicate OnItsLine(table: seq<Entry>, lines: seq<string>, first: int, t: Token) {
    first <= t.line < first + |lines|
    && WellFormedToken(table, Trim(lines[t.line - first]), ToUpper(Trim(lines[t.line - first])),
                       t.line, t)
  }

  lemma OnItsLineShift(table: seq<Entry>, lines: seq<string>, first: int, t: Token)
    requires |lines| > 0 && OnItsLine(table, lines[1..], first + 1, t)
    ensures OnItsLine(table, lines, first, t)
  {
    assert lines[1..][t.line - (first + 1)] == lines[t.line - first];
  }

  /** The tokens of the first line, followed by those of the lines after it. */
  lemma OnItsLineAppend(table: seq<Entry>, lines: seq<string>, first: int, head: seq<Token>, rest: seq<Token>)
    requires |lines| > 0
    requires forall i :: 0 <= i < |head| ==>
               WellFormedToken(table, Trim(lines[0]), ToUpper(Trim(lines[0])), first, head[i])
    requires forall i :: 0 <= i < |rest| ==> OnItsLine(table, lines[1..], first + 1, rest[i])
    requires Ordered(head) && Ordered(rest)
    ensures forall i :: 0 <= i < |head + rest| ==> OnItsLine(table, lines, first, (head + rest)[i])
    ensures Ordered(head + rest)
  {
    var ts := head + rest;
    forall i | 0 <= i < |ts| ensures OnItsLine(table, lines, first, ts[i]) {
      if i >= |head| {
        assert ts[i] == rest[i - |head|];
        OnItsLineShift(table, lines, first, ts[i]);
      } else {
        assert ts[i] == head[i];
      }
    }
    OrderedAppend(head, rest);
  }

  /** The tokens of lines numbered from `first` lie on those lines, each well formed with
      respect to its own trimmed line, and they are in reading order. */
  lemma {:induction false} LinesTokensWellFormed(table: seq<Entry>, lines: seq<string>, first: int)
    requires NoEofEntry(table)
    ensures var ts := LinesTokens(table, lines, first);
            (forall i :: 0 <= i < |ts| ==> OnItsLine(table, lines, first, ts[i]))
            && Ordered(ts)
    decreases |lines|
  {
    if |lines| > 0 {
      var head := LineTokens(table, Trim(lines[0]), first);
      var rest := LinesTokens(table, lines[1..], first + 1);
      LineTokensWellFormed(table, Trim(lines[0]), first);
      LinesTokensWellFormed(table, lines[1..], first + 1);
      OnItsLineAppend(table, lines, first, head, rest);
      assert LinesTokens(table, lines, first) == head + rest;
    }
  }

  /** `tokenize` either gives nothing or ends in exactly one EOF token, placed on the line
      after the last line at column 1; every other token is well formed on its own line,
      and all tokens are in reading order. */
  lemma TokenizeWellFormed(table: seq<Entry>, input: string)
    requires NoEofEntry(table)
    ensures var ts := TokenizeWith(table, input);
            var lines := SplitLines(input);
            ts == [] || (
              ts[|ts| - 1] == Token(Eof, "", |lines| + 1, 1)
              && (forall i :: 0 <= i < |ts| - 1 ==> OnItsLine(table, lines, 1, ts[i]))
              && Ordered(ts))
  {
    if Trim(input) != "" {
      var lines := SplitLines(input);
      LinesTokensWellFormed(table, lines, 1);
      var body := LinesTokens(table, lines, 1);
      var ts := TokenizeWith(table, input);
      if body != [] {
        assert ts == body + [Token(Eof, "", |lines| + 1, 1)];
        forall i | 0 <= i < |ts| - 1 ensures OnItsLine(table, lines, 1, ts[i]) {
          assert ts[i] == body[i];
        }
        OrderedAppend(body, [Token(Eof, "", |lines| + 1, 1)]);
      }
    }
  }

  /** Blank input (nothing above U+0020) yields no tokens at all. */
  lemma TokenizeBlank(table: seq<Entry>, input: string)
    requires forall i :: 0 <= i < |input| ==> input[i] <= ' '
    ensures TokenizeWith(table, input) == []
  {
    TrimEmptyIff(input);
  }

  /** A comment line contributes nothing and does not shift the numbering of the lines after
      it: replacing it by an empty line leaves the tokens unchanged. */
  lemma {:induction false} CommentLineContributesNothing(table: seq<Entry>, lines: seq<string>, first: int, k: nat)
    requires k < |lines| && "//" <= Trim(lines[k])
    ensures LinesTokens(table, lines[k := ""], first) == LinesTokens(table, lines, first)
    decreases k
  {
    if k == 0 {
      assert lines[0 := ""][1..] == lines[1..];
      assert Trim("") == "";
    } else {
      assert lines[k := ""][1..] == lines[1..][k - 1 := ""];
      CommentLineContributesNothing(table, lines[1..], first + 1, k - 1);
    }
  }
}
