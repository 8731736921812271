/** The lexical vocabulary of CDSL: the kinds a token can have and the token record. */
module Tokens {
  import opened JavaText
  import opened Wrappers

  /** The members of the Java enum `TokenType`, each given a number of its own; the constant
      of each member below carries the member's name in PascalCase, and `Name` gives the
      Java name. The numbering is the model's own: nothing in the program depends on it. */
  newtype TokenKind = k: int | 0 <= k < 148 {
    /** `TokenType.name()`. */
    function Name(): string {
      match this as int
      case 0 => "INCREASES_BY_INTEGER"
      case 1 => "DECREASES_BY_INTEGER"
      case 2 => "INCREASES_BY_FACTOR"
      case 3 => "DECREASES_BY_FACTOR"
      case 4 => "FORMATION_RULE"
      case 5 => "RESULTING_NUMBER"
      case 6 => "CHANGE_RULE"
      case 7 => "TRANSFORMATION"
      case 8 => "NUMBER_LENGTH"
      case 9 => "CANNOT_BE_ZERO"
      case 10 => "SINGLE_DIGIT"
      case 11 => "FORM_NUMBER"
      case 12 => "ALLOW_DUPLICATES"
      case 13 => "MAX_DIGIT"
      case 14 => "FIRST_NOT_ZERO"
      case 15 => "ADJACENT_DIFFERENT"
      case 16 => "NON_DECREASING"
      case 17 => "NON_INCREASING"
      case 18 => "COMPARE"
      case 19 => "RANGE_START"
      case 20 => "RANGE_END"
      case 21 => "TOTAL"
      case 22 => "DIVISIBILITY"
      case 23 => "REMAINDERS"
      case 24 => "EQUATIONS"
      case 25 => "CALCULATE"
      case 26 => "BOARD_HEIGHT"
      case 27 => "BOARD_WIDTH"
      case 28 => "COEFFICIENTS"
      case 29 => "CONSTRAINTS"
      case 30 => "REPLACEMENT"
      case 31 => "NO_REPLACEMENT"
      case 32 => "DRAW_COUNT"
      case 33 => "DIVIDES_BY"
      case 34 => "GREATER_EQUAL"
      case 35 => "LESS_EQUAL"
      case 36 => "NOT_EQUALS"
      case 37 => "PROBABILITY"
      case 38 => "COMBINATIONS"
      case 39 => "EXPECTATION"
      case 40 => "TASK"
      case 41 => "DECK"
      case 42 => "TARGET"
      case 43 => "DRAW"
      case 44 => "CONDITION"
      case 45 => "CARDS"
      case 46 => "WORDS"
      case 47 => "CHESS"
      case 48 => "NUMBERS"
      case 49 => "BALLS"
      case 50 => "CHESS_ROOK"
      case 51 => "CHESS_KNIGHT"
      case 52 => "CHESS_BISHOP"
      case 53 => "CHESS_QUEEN"
      case 54 => "CHESS_KING"
      case 55 => "CHESS_PAWN"
      case 56 => "PIECES"
      case 57 => "ATTACKING"
      case 58 => "NON_ATTACKING"
      case 59 => "STANDARD"
      case 60 => "FRENCH"
      case 61 => "SPANISH"
      case 62 => "CUSTOM"
      case 63 => "HEARTS"
      case 64 => "DIAMONDS"
      case 65 => "CLUBS"
      case 66 => "SPADES"
      case 67 => "ACE"
      case 68 => "KING"
      case 69 => "QUEEN"
      case 70 => "JACK"
      case 71 => "RANK"
      case 72 => "COUNT"
      case 73 => "SUIT"
      case 74 => "COLOR"
      case 75 => "RANK_TYPE"
      case 76 => "RANK_VALUE"
      case 77 => "RANK_RANGE"
      case 78 => "RED"
      case 79 => "BLACK"
      case 80 => "NUMBER"
      case 81 => "FACE"
      case 82 => "ROYAL"
      case 83 => "LOW"
      case 84 => "HIGH"
      case 85 => "EVEN"
      case 86 => "ODD"
      case 87 => "AND"
      case 88 => "OR"
      case 89 => "NOT"
      case 90 => "EQUALS"
      case 91 => "GREATER"
      case 92 => "LESS"
      case 93 => "PLUS"
      case 94 => "MINUS"
      case 95 => "MULTIPLY"
      case 96 => "DIVIDE"
      case 97 => "MODULO"
      case 98 => "ALPHABET"
      case 99 => "LENGTH"
      case 100 => "UNIQUE"
      case 101 => "UNKNOWNS"
      case 102 => "SUM"
      case 103 => "DOMAIN"
      case 104 => "DIVIDEND"
      case 105 => "DIVISOR"
      case 106 => "REMAINDER"
      case 107 => "URN"
      case 108 => "CONTENTS"
      case 109 => "DISTINCT"
      case 110 => "ORDER"
      case 111 => "ASCENDING"
      case 112 => "DESCENDING"
      case 113 => "DIGITS"
      case 114 => "RULE"
      case 115 => "FACTOR"
      case 116 => "RESULT"
      case 117 => "TIMES"
      case 118 => "BLUE"
      case 119 => "GREEN"
      case 120 => "WHITE"
      case 121 => "SEQUENTIAL"
      case 122 => "SIMULTANEOUS"
      case 123 => "UNCHANGED"
      case 124 => "INCREASING"
      case 125 => "DECREASING"
      case 126 => "VARIABLE"
      case 127 => "BOOLEAN"
      case 128 => "DIGIT_VALUE"
      case 129 => "STRING"
      case 130 => "INTEGER"
      case 131 => "DIGIT_POSITION"
      case 132 => "UNKNOWN"
      case 133 => "EOF"
      case 134 => "LBRACKET"
      case 135 => "RBRACKET"
      case 136 => "LPAREN"
      case 137 => "RPAREN"
      case 138 => "COMMA"
      case 139 => "COLON"
      case 140 => "SEMICOLON"
      case 141 => "PALINDROME"
      case 142 => "ALTERNATING"
      case 143 => "CONSONANT_FOLLOWED_BY_VOWEL"
      case 144 => "VOWEL_FOLLOWED_BY_CONSONANT"
      case 145 => "MORE_VOWELS_THAN_CONSONANTS"
      case 146 => "MORE_CONSONANTS_THAN_VOWELS"
      case _ => "EQUAL_VOWELS_CONSONANTS"
    }
  }

  const IncreasesByInteger: TokenKind := 0
  const DecreasesByInteger: TokenKind := 1
  const IncreasesByFactor: TokenKind := 2
  const DecreasesByFactor: TokenKind := 3
  const FormationRule: TokenKind := 4
  const ResultingNumber: TokenKind := 5
  const ChangeRule: TokenKind := 6
  const Transformation: TokenKind := 7
  const NumberLength: TokenKind := 8
  const CannotBeZero: TokenKind := 9
  const SingleDigit: TokenKind := 10
  const FormNumber: TokenKind := 11
  const AllowDuplicates: TokenKind := 12
  const MaxDigit: TokenKind := 13
  const FirstNotZero: TokenKind := 14
  const AdjacentDifferent: TokenKind := 15
  const NonDecreasing: TokenKind := 16
  const NonIncreasing: TokenKind := 17
  const Compare: TokenKind := 18
  const RangeStart: TokenKind := 19
  const RangeEnd: TokenKind := 20
  const Total: TokenKind := 21
  const Divisibility: TokenKind := 22
  const Remainders: TokenKind := 23
  const Equations: TokenKind := 24
  const Calculate: TokenKind := 25
  const BoardHeight: TokenKind := 26
  const BoardWidth: TokenKind := 27
  const Coefficients: TokenKind := 28
  const Constraints: TokenKind := 29
  const Replacement: TokenKind := 30
  const NoReplacement: TokenKind := 31
  const DrawCount: TokenKind := 32
  const DividesBy: TokenKind := 33
  const GreaterEqual: TokenKind := 34
  const LessEqual: TokenKind := 35
  const NotEquals: TokenKind := 36
  const Probability: TokenKind := 37
  const Combinations: TokenKind := 38
  const Expectation: TokenKind := 39
  const Task: TokenKind := 40
  const Deck: TokenKind := 41
  const Target: TokenKind := 42
  const Draw: TokenKind := 43
  const Condition: TokenKind := 44
  const Cards: TokenKind := 45
  const Words: TokenKind := 46
  const Chess: TokenKind := 47
  const Numbers: TokenKind := 48
  const Balls: TokenKind := 49
  const ChessRook: TokenKind := 50
  const ChessKnight: TokenKind := 51
  const ChessBishop: TokenKind := 52
  const ChessQueen: TokenKind := 53
  const ChessKing: TokenKind := 54
  const ChessPawn: TokenKind := 55
  const Pieces: TokenKind := 56
  const Attacking: TokenKind := 57
  const NonAttacking: TokenKind := 58
  const Standard: TokenKind := 59
  const French: TokenKind := 60
  const Spanish: TokenKind := 61
  const Custom: TokenKind := 62
  const Hearts: TokenKind := 63
  const Diamonds: TokenKind := 64
  const Clubs: TokenKind := 65
  const Spades: TokenKind := 66
  const Ace: TokenKind := 67
  const King: TokenKind := 68
  const Queen: TokenKind := 69
  const Jack: TokenKind := 70
  const Rank: TokenKind := 71
  const Count: TokenKind := 72
  const Suit: TokenKind := 73
  const Color: TokenKind := 74
  const RankType: TokenKind := 75
  const RankValue: TokenKind := 76
  const RankRange: TokenKind := 77
  const Red: TokenKind := 78
  const Black: TokenKind := 79
  const Number: TokenKind := 80
  const Face: TokenKind := 81
  const Royal: TokenKind := 82
  const Low: TokenKind := 83
  const High: TokenKind := 84
  const Even: TokenKind := 85
  const Odd: TokenKind := 86
  const And: TokenKind := 87
  const Or: TokenKind := 88
  const Not: TokenKind := 89
  const Equals: TokenKind := 90
  const Greater: TokenKind := 91
  const Less: TokenKind := 92
  const Plus: TokenKind := 93
  const Minus: TokenKind := 94
  const Multiply: TokenKind := 95
  const Divide: TokenKind := 96
  const Modulo: TokenKind := 97
  const Alphabet: TokenKind := 98
  const Length: TokenKind := 99
  const Unique: TokenKind := 100
  const Unknowns: TokenKind := 101
  const Sum: TokenKind := 102
  const Domain: TokenKind := 103
  const Dividend: TokenKind := 104
  const Divisor: TokenKind := 105
  const Remainder: TokenKind := 106
  const Urn: TokenKind := 107
  const Contents: TokenKind := 108
  const Distinct: TokenKind := 109
  const Order: TokenKind := 110
  const Ascending: TokenKind := 111
  const Descending: TokenKind := 112
  const Digits: TokenKind := 113
  const Rule: TokenKind := 114
  const Factor: TokenKind := 115
  const Result: TokenKind := 116
  const Times: TokenKind := 117
  const Blue: TokenKind := 118
  const Green: TokenKind := 119
  const White: TokenKind := 120
  const Sequential: TokenKind := 121
  const Simultaneous: TokenKind := 122
  const Unchanged: TokenKind := 123
  const Increasing: TokenKind := 124
  const Decreasing: TokenKind := 125
  const Variable: TokenKind := 126
  const Boolean: TokenKind := 127
  const DigitValue: TokenKind := 128
  const String: TokenKind := 129
  const Integer: TokenKind := 130
  const DigitPosition: TokenKind := 131
  const Unknown: TokenKind := 132
  const Eof: TokenKind := 133
  const Lbracket: TokenKind := 134
  const Rbracket: TokenKind := 135
  const Lparen: TokenKind := 136
  const Rparen: TokenKind := 137
  const Comma: TokenKind := 138
  const Colon: TokenKind := 139
  const Semicolon: TokenKind := 140
  const Palindrome: TokenKind := 141
  const Alternating: TokenKind := 142
  const ConsonantFollowedByVowel: TokenKind := 143
  const VowelFollowedByConsonant: TokenKind := 144
  const MoreVowelsThanConsonants: TokenKind := 145
  const MoreConsonantsThanVowels: TokenKind := 146
  const EqualVowelsConsonants: TokenKind := 147

  /** An immutable lexeme: its kind, its original-case text and its 1-based position. */
  datatype Token = Token(kind: TokenKind, value: string, line: int, column: int)

  /** `Token.equals`: same line, column and kind, and equal text. */
  predicate Equal(a: Token, b: Token)
    ensures Equal(a, b) <==> a == b
  {
    a.line == b.line && a.column == b.column && a.kind == b.kind && a.value == b.value
  }

  /** `Token.hashCode`, with `kindHash` standing for the identity hash of the enum constant. */
  function HashCode(t: Token, kindHash: TokenKind -> int): (r: int)
    ensures IsInt32(r)
  {
    var h0 := Wrap32(kindHash(t.kind));
    var h1 := Wrap32(31 * h0 + StringHash(t.value));
    var h2 := Wrap32(31 * h1 + Wrap32(t.line));
    Wrap32(31 * h2 + Wrap32(t.column))
  }

  /** Equal tokens hash alike, whatever hash the enum constants have. */
  lemma HashCodeRespectsEqual(a: Token, b: Token, kindHash: TokenKind -> int)
    requires Equal(a, b)
    ensures HashCode(a, kindHash) == HashCode(b, kindHash)
  {
  }

  /** `Token.toString`: `Token(KIND, 'text', line:column)`. */
  function ToString(t: Token): (r: string)
    ensures |r| > 0 && r[0] == 'T' && r[|r| - 1] == ')'
  {
    Layout(t.kind.Name(), t.value, t.line, t.column)
  }

  /** The `Token(...)` text for the given field texts. */
  function Layout(name: string, value: string, line: int, column: int): string {
    "Token(" + name + ", '" + value + "', " + IntToString(line) + ":" + IntToString(column) + ")"
  }

  /** Reading `ToString` back: the kind's name follows `Token(`, the text sits between
      `, '` and `', `, and the line and column parse back from either side of the colon
      before the closing parenthesis. */
  lemma ToStringReadBack(t: Token)
    requires IsInt32(t.line) && IsInt32(t.column)
    ensures var r, n := ToString(t), |t.kind.Name()|;
      var v := 9 + n + |t.value|;
      v + 3 < |r| && r[..6] == "Token(" && r[6..6 + n] == t.kind.Name() && r[6 + n..9 + n] == ", '"
      && r[9 + n..v] == t.value && r[v..v + 3] == "', " && r[|r| - 1] == ')'
      && exists i :: v + 3 <= i < |r| - 1 && r[i] == ':' && ParseInt(r[v + 3..i]) == Some(t.line)
           && ParseInt(r[i + 1..|r| - 1]) == Some(t.column)
  {
    LayoutReadBack(t.kind.Name(), t.value, t.line, t.column);
  }

  lemma LayoutReadBack(name: string, value: string, line: int, column: int)
    requires IsInt32(line) && IsInt32(column)
    ensures var r, n := Layout(name, value, line, column), |name|;
      var v := 9 + n + |value|;
      v + 3 < |r| && r[..6] == "Token(" && r[6..6 + n] == name && r[6 + n..9 + n] == ", '"
      && r[9 + n..v] == value && r[v..v + 3] == "', " && r[|r| - 1] == ')'
      && exists i :: v + 3 <= i < |r| - 1 && r[i] == ':' && ParseInt(r[v + 3..i]) == Some(line)
           && ParseInt(r[i + 1..|r| - 1]) == Some(column)
  {
    var r, a, b := Layout(name, value, line, column), IntToString(line), IntToString(column);
    ParseIntToString(line);
    ParseIntToString(column);
    assert r == "Token(" + name + ", '" + value + "', " + a + ":" + b + ")";
    var i := Fields(name, value, a, b);
    var v := 9 + |name| + |value|;
    assert r[v + 3..i] == a && r[i + 1..|r| - 1] == b;
    assert ParseInt(r[v + 3..i]) == Some(line) && ParseInt(r[i + 1..|r| - 1]) == Some(column);
  }

  /** Where each field of the `Token(...)` layout sits, for any field texts. */
  lemma Fields(name: string, value: string, a: string, b: string) returns (i: int)
    ensures var r := "Token(" + name + ", '" + value + "', " + a + ":" + b + ")";
      var n, v := |name|, 9 + |name| + |value|;
      i == v + 3 + |a| && i < |r| - 1 && r[..6] == "Token(" && r[6..6 + n] == name
      && r[6 + n..9 + n] == ", '" && r[9 + n..v] == value && r[v..v + 3] == "', "
      && r[v + 3..i] == a && r[i] == ':' && r[i + 1..|r| - 1] == b && r[|r| - 1] == ')'
  {
    i := 12 + |name| + |value| + |a|;
    var r := "Token(" + name + ", '" + value + "', " + a + ":" + b + ")";
    var head := "Token(" + name + ", '" + value + "', ";
    assert r == head + a + ":" + b + ")";
    assert r[..|head|] == head;
  }
}
