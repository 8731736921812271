/** What the parser reads, stated on a token list and a position: the token-kind groups the
    parser tests for, the lookahead tests, the runs and lists its loops consume, and the
    route the top-level loop takes at each position. The class `Parser.Parser` is proved
    against these definitions. */
module Grammar {
  import opened Wrappers
  import opened JavaText
  import opened JavaMaps
  import opened Tokens
  import opened Ast

  // ---------------------------------------------------------------- token-kind groups

  const TaskKinds: set<TokenKind> :=
    {Cards, Words, Numbers, Equations, Balls, Divisibility, Remainders, Chess}
  const DeckKinds: set<TokenKind> := {Standard, French, Spanish, Custom}
  const SuitKinds: set<TokenKind> := {Hearts, Diamonds, Clubs, Spades}
  const RankKinds: set<TokenKind> := {Rank, Ace, King, Queen, Jack}
  const WordConditionKinds: set<TokenKind> :=
    {Palindrome, Alternating, ConsonantFollowedByVowel, VowelFollowedByConsonant,
     MoreVowelsThanConsonants, MoreConsonantsThanVowels, EqualVowelsConsonants}
  const OrderKinds: set<TokenKind> := {Ascending, Descending, NonDecreasing, NonIncreasing}
  const CompareKinds: set<TokenKind> := {Less, Greater, Equals, LessEqual, GreaterEqual, NotEquals}
  const CountOperatorKinds: set<TokenKind> :=
    {Equals, NotEquals, Greater, Less, GreaterEqual, LessEqual}
  const CountTypeKinds: set<TokenKind> := {Suit, Color, RankType, Rank, RankRange}
  const RankTypeValueKinds: set<TokenKind> :=
    {Ace, King, Queen, Jack, Number, Face, Royal, Low, High, Even, Odd}
  const RankValueKinds: set<TokenKind> := {Integer, Ace, King, Queen, Jack}
  const PieceKinds: set<TokenKind> :=
    {ChessRook, ChessKnight, ChessBishop, ChessQueen, ChessKing, ChessPawn, String}
  const CalculationKinds: set<TokenKind> := {Probability, Combinations, Expectation}
  const ReplacementKinds: set<TokenKind> := {Replacement, NoReplacement}
  const DrawTypeKinds: set<TokenKind> := {Sequential, Simultaneous}

  /** The keywords a numbers block reads an attribute after. */
  const NumbersValueKinds: set<TokenKind> :=
    {Digits, NumberLength, MaxDigit, FirstNotZero, Distinct, AdjacentDifferent, Order, Compare,
     Total}

  /** The kinds `isNextCommand` stops at. */
  const CommandKinds: set<TokenKind> :=
    {Task, Deck, Alphabet, Length, Unique, Target, Draw, Condition, Calculate, Unknowns, Sum,
     Domain, Constraints, Divisibility, Urn, Balls, Numbers, Chess, Pieces, BoardHeight,
     BoardWidth}

  /** The keywords a divisibility block reads an attribute after. */
  const DivisibilityValueKinds: set<TokenKind> := {Digits, NumberLength, Rule, FormationRule, DividesBy}

  /** The keywords a remainders block reads an attribute after. */
  const RemaindersValueKinds: set<TokenKind> := {Dividend, Divisor, Remainder}

  /** No keyword of a numbers block is a command keyword or a semicolon. */
  lemma NumbersKeywordsAreNotCommands(k: TokenKind)
    requires k in NumbersValueKinds
    ensures k !in CommandKinds && k != Semicolon
  {
  }

  /** No keyword of a divisibility block is a command keyword or a semicolon. */
  lemma DivisibilityKeywordsAreNotCommands(k: TokenKind)
    requires k in DivisibilityValueKinds
    ensures k !in CommandKinds && k != Semicolon
  {
  }

  /** No keyword of a remainders block is a command keyword. */
  lemma RemaindersKeywordsAreNotCommands(k: TokenKind)
    requires k in RemaindersValueKinds
    ensures k !in CommandKinds
  {
  }

  // ---------------------------------------------------------------- positions

  /** A token list the parser can work on: it is not empty and ends with EOF. */
  predicate WellEnded(ts: seq<Token>) {
    |ts| > 0 && ts[|ts| - 1].kind == Eof
  }

  /** `check` for any of `ks` at position `p`: the token there is not EOF and has one of
      the kinds. */
  predicate At(ts: seq<Token>, p: int, ks: set<TokenKind>) {
    0 <= p < |ts| && ts[p].kind != Eof && ts[p].kind in ks
  }

  /** A ball colour. */
  predicate IsColor(k: TokenKind) {
    k == Red || k == Blue || k == Green || k == White || k == Black
  }

  /** `checkColorToken` at position `p`. */
  predicate ColorAt(ts: seq<Token>, p: int) {
    0 <= p < |ts| && IsColor(ts[p].kind)
  }

  /** `checkNext`/`checkNextNext`: the token at `p` exists and has kind `k`. */
  predicate KindIs(ts: seq<Token>, p: int, k: TokenKind) {
    0 <= p < |ts| && ts[p].kind == k
  }

  /** The position after an optional token of one of the kinds `ks` at `p`. */
  function Past(ts: seq<Token>, p: int, ks: set<TokenKind>): (q: int)
    ensures q == p || (q == p + 1 && At(ts, p, ks))
  {
    if At(ts, p, ks) then p + 1 else p
  }

  // ---------------------------------------------------------------- outcomes

  /** What a sub-parser started at a position gives: the value and the position after it,
      or the exception it throws and the position the cursor has reached when it does. */
  datatype Outcome<T> = Done(value: T, next: int) | Thrown(msg: string, at: int)
  {
    /** Where the sub-parser leaves the cursor, whether it returns or throws. */
    function Pos(): int {
      if Done? then next else at
    }
  }

  /** A method's result and the cursor it ends on, as an outcome. */
  function Reached<T>(r: Result<T>, pos: int): (o: Outcome<T>)
    ensures o.Done? <==> r.Ok?
    ensures o.Pos() == pos
    ensures r.Ok? ==> o.value == r.value
  {
    if r.Ok? then Done(r.value, pos) else Thrown(r.msg, pos)
  }

  /** `items` read in front of a list whose remainder is `r`; an exception in the remainder
      is the exception of the whole. */
  function Prepend<T>(items: seq<T>, r: Outcome<seq<T>>): (s: Outcome<seq<T>>)
    ensures s.Thrown? ==> s == r
    ensures s.Done? <==> r.Done?
    ensures s.Pos() == r.Pos()
    ensures s.Done? ==> s.value == items + r.value
  {
    match r
    case Thrown(_, _) => r
    case Done(v, q) => Done(items + v, q)
  }

  /** Reading `a` and then `b` in front of a list is reading `a + b` in front of it. */
  lemma PrependPrepend<T>(a: seq<T>, b: seq<T>, r: Outcome<seq<T>>)
    ensures Prepend(a, Prepend(b, r)) == Prepend(a + b, r)
  {
    if r.Done? {
      assert a + (b + r.value) == (a + b) + r.value;
    }
  }

  lemma PrependNothing<T>(r: Outcome<seq<T>>)
    ensures Prepend([], r) == r
  {
    if r.Done? {
      assert [] + r.value == r.value;
    }
  }

  /** `match(INTEGER)` followed by `Integer.parseInt`: no value when there is no integer
      token, the value when its text parses, an error otherwise. */
  function IntAt(ts: seq<Token>, p: int): (r: Result<Option<int>>)
    ensures r == Ok(None) <==> !At(ts, p, {Integer})
    ensures r.Ok? && r.value.Some? ==> ParseInt(ts[p].value) == r.value
    ensures r.Err? ==> At(ts, p, {Integer}) && ParseInt(ts[p].value).None?
  {
    if At(ts, p, {Integer}) then
      match ParseInt(ts[p].value)
      case Some(v) => Ok(Some(v))
      case None => Err("NumberFormatException")
    else Ok(None)
  }

  /** An integer attribute added only when an integer follows; the cursor ends past the
      integer whether or not its text parses. */
  function IntAttributeAt(ts: seq<Token>, p: int, name: string): (r: Outcome<seq<Node>>)
    ensures r.Pos() == Past(ts, p, {Integer})
    ensures r.Thrown? <==> IntAt(ts, p).Err?
  {
    match IntAt(ts, p)
    case Err(e) => Thrown(e, Past(ts, p, {Integer}))
    case Ok(v) => Done(IntChild(name, v), Past(ts, p, {Integer}))
  }

  /** An integer attribute that takes the value `d` when no integer follows. */
  function IntOrDefaultAt(ts: seq<Token>, p: int, name: string, d: int): (r: Outcome<seq<Node>>)
    ensures r.Pos() == Past(ts, p, {Integer})
    ensures r.Thrown? <==> IntAt(ts, p).Err?
  {
    match IntAt(ts, p)
    case Err(e) => Thrown(e, Past(ts, p, {Integer}))
    case Ok(v) => Done([WithValue(name, IntV(v.GetOr(d)))], Past(ts, p, {Integer}))
  }

  /** `match(STRING)` followed by stripping the quotes, or `d` when there is no string. */
  function StringAt(ts: seq<Token>, p: int, d: string): string {
    if At(ts, p, {String}) then Unquote(ts[p].value) else d
  }

  /** `"YES".equals(v.toUpperCase()) || "TRUE".equals(v.toUpperCase())`. */
  predicate IsYes(v: string) {
    ToUpper(v) == "YES" || ToUpper(v) == "TRUE"
  }

  /** A yes/no flag whose value is optional: true unless a BOOLEAN follows whose text is
      neither yes nor true. */
  predicate FlagAt(ts: seq<Token>, p: int) {
    !At(ts, p, {Boolean}) || IsYes(ts[p].value)
  }

  lemma FlagDefaultsTrue(ts: seq<Token>, p: int)
    requires !At(ts, p, {Boolean})
    ensures FlagAt(ts, p)
  {
  }

  // ---------------------------------------------------------------- node helpers

  /** The child with an integer value that a declaration adds when the value is present. */
  function IntChild(kind: string, v: Option<int>): (r: seq<Node>)
    ensures |r| <= 1 && (r == [] <==> v.None?)
  {
    if v.Some? then [WithValue(kind, IntV(v.value))] else []
  }

  /** The child a declaration adds only when `present` holds. */
  function ChildIf(present: bool, n: Node): (r: seq<Node>)
    ensures r == [] <==> !present
  {
    if present then [n] else []
  }

  /** The child holding the text of the token at `p`, added only when that token has one
      of the kinds `ks`. */
  function TextChild(kind: string, ts: seq<Token>, p: int, ks: set<TokenKind>): (r: seq<Node>)
    ensures r == [] <==> !At(ts, p, ks)
    ensures r != [] ==> r == [WithValue(kind, StrV(ts[p].value))]
  {
    if At(ts, p, ks) then [WithValue(kind, StrV(ts[p].value))] else []
  }

  /** The child with a list value, added only when the list is not empty. */
  function ListChild(kind: string, items: seq<string>): (r: seq<Node>)
    ensures r == [] <==> items == []
  {
    if items == [] then [] else [WithValue(kind, ListV(items))]
  }

  /** The child with a map value, added only when the map is not empty. */
  function MapChild(kind: string, m: map<string, int>): (r: seq<Node>)
    ensures r == [] <==> m == map[]
  {
    if m == map[] then [] else [WithValue(kind, MapV(m))]
  }

  // ---------------------------------------------------------------- runs and lists

  /** The tokens an unquoted condition or rule is made of: up to the end, a command
      keyword or a semicolon. */
  predicate Continues(ts: seq<Token>, p: int) {
    0 <= p < |ts| && ts[p].kind != Eof && ts[p].kind !in CommandKinds && ts[p].kind != Semicolon
  }

  /** The text a run of tokens from `p` is collected into (each value followed by a space)
      and the position after the run. */
  function RunFrom(ts: seq<Token>, p: int): (r: (string, int))
    requires WellEnded(ts) && 0 <= p < |ts|
    ensures p <= r.1 < |ts| && !Continues(ts, r.1)
    ensures r.0 == "" <==> r.1 == p
    decreases |ts| - p
  {
    if Continues(ts, p) then
      var (w, q) := RunFrom(ts, p + 1);
      (ts[p].value + " " + w, q)
    else ("", p)
  }

  /** One token of a run is its value and a space in front of the rest of the run. */
  lemma RunFromStep(ts: seq<Token>, p: int)
    requires WellEnded(ts) && 0 <= p < |ts| && Continues(ts, p)
    ensures RunFrom(ts, p).0 == ts[p].value + " " + RunFrom(ts, p + 1).0
    ensures RunFrom(ts, p).1 == RunFrom(ts, p + 1).1
  {
  }

  lemma RunFromStop(ts: seq<Token>, p: int)
    requires WellEnded(ts) && 0 <= p < |ts| && !Continues(ts, p)
    ensures RunFrom(ts, p) == ("", p)
  {
  }

  /** `parsePositionList`: the texts of the DIGIT_POSITION tokens from `p` on and the
      position after them. */
  function PositionsFrom(ts: seq<Token>, p: int): (r: (seq<string>, int))
    requires WellEnded(ts) && 0 <= p < |ts|
    ensures p <= r.1 < |ts| && !At(ts, r.1, {DigitPosition})
    ensures |r.0| == r.1 - p
    decreases |ts| - p
  {
    if At(ts, p, {DigitPosition}) then
      var (rest, q) := PositionsFrom(ts, p + 1);
      ([ts[p].value] + rest, q)
    else ([], p)
  }

  /** Every entry of a position list is the text of a DIGIT_POSITION token, in order. */
  lemma {:induction false} PositionsFromTexts(ts: seq<Token>, p: int, i: int)
    requires WellEnded(ts) && 0 <= p < |ts| && 0 <= i < |PositionsFrom(ts, p).0|
    ensures KindIs(ts, p + i, DigitPosition) && PositionsFrom(ts, p).0[i] == ts[p + i].value
    decreases |ts| - p
  {
    if i > 0 {
      PositionsFromTexts(ts, p + 1, i - 1);
    }
  }

  /** A COMPARE or TOTAL clause from `p`: the positions on the left, the operator when one of
      `ops` follows (its text, or `fixed` when that is given), the positions on the right;
      and the position after them. Empty position lists add no attribute. */
  function ComparisonAt(ts: seq<Token>, p: int, ops: set<TokenKind>, fixed: Option<string>)
    : (r: (seq<Node>, int))
    requires WellEnded(ts) && 0 <= p < |ts|
    ensures p <= r.1 < |ts|
    ensures forall i :: 0 <= i < |r.0| ==> IsNumbersAttribute(r.0[i])
  {
    var (left, q) := PositionsFrom(ts, p);
    var op := if fixed.Some? then fixed.value else ts[q].value;
    var (right, e) := PositionsFrom(ts, Past(ts, q, ops));
    (ListChild("COMPARE_LEFT", left)
     + ChildIf(At(ts, q, ops), WithValue("COMPARE_OPERATOR", StrV(op)))
     + ListChild("COMPARE_RIGHT", right), e)
  }

  /** The attribute name of a yes/no flag of a numbers block. */
  function FlagName(k: TokenKind): string {
    if k == FirstNotZero then "FIRST_NOT_ZERO" else if k == Distinct then "DISTINCT"
    else "ADJACENT_DIFFERENT"
  }

  /** The text of a dividend at `p`: an unquoted string, an integer or a variable as
      written, or `X` when none follows. */
  function DividendAt(ts: seq<Token>, p: int): string {
    if At(ts, p, {String}) then Unquote(ts[p].value)
    else if At(ts, p, {Integer, Variable}) then ts[p].value
    else "X"
  }

  /** The count after a ball colour or a chess piece: the integer when one follows, else 1. */
  function CountAt(ts: seq<Token>, p: int): Result<int> {
    match IntAt(ts, p)
    case Ok(v) => Ok(v.GetOr(1))
    case Err(e) => Err(e)
  }

  /** `parseBallsMap` from `p`: the (colour text, count) steps in the order they are read,
      and the position of the `]` or EOF it stops at. Any other token is skipped. A count
      that does not parse throws with the cursor past it. */
  function BallsMapFrom(ts: seq<Token>, p: int): (r: Outcome<seq<(string, int)>>)
    requires WellEnded(ts) && 0 <= p < |ts|
    ensures p <= r.Pos() < |ts|
    ensures r.Done? ==> ts[r.next].kind in {Eof, Rbracket}
    decreases |ts| - p
  {
    if ts[p].kind in {Eof, Rbracket} then Done([], p)
    else if IsColor(ts[p].kind) then
      match CountAt(ts, p + 1)
      case Err(e) => Thrown(e, Past(ts, p + 1, {Integer}))
      case Ok(c) => Prepend([(ts[p].value, c)], BallsMapFrom(ts, Past(ts, p + 1, {Integer})))
    else BallsMapFrom(ts, p + 1)
  }

  /** `parseSimpleBallsList` from `p`: colour steps as long as colours follow one another. */
  function SimpleBallsFrom(ts: seq<Token>, p: int): (r: Outcome<seq<(string, int)>>)
    requires WellEnded(ts) && 0 <= p < |ts|
    ensures p <= r.Pos() < |ts|
    ensures r.Done? ==> !ColorAt(ts, r.next)
    decreases |ts| - p
  {
    if ColorAt(ts, p) then
      match CountAt(ts, p + 1)
      case Err(e) => Thrown(e, Past(ts, p + 1, {Integer}))
      case Ok(c) => Prepend([(ts[p].value, c)], SimpleBallsFrom(ts, Past(ts, p + 1, {Integer})))
    else Done([], p)
  }

  /** A piece named without its `CHESS_` prefix. */
  predicate IsBarePiece(t: string) {
    t == "ROOK" || t == "KNIGHT" || t == "BISHOP" || t == "QUEEN" || t == "KING" || t == "PAWN"
  }

  /** The name a piece is counted under: quotes stripped, then a leading `CHESS_` removed. */
  function PieceName(text: string): string {
    var t := Unquote(text);
    if "CHESS_" <= t then t[6..] else t
  }

  /** The list after `PIECES [`: the (piece, count) steps and the position of the `]` or EOF
      it stops at. Any other token is skipped. */
  function PiecesFrom(ts: seq<Token>, p: int): (r: Outcome<seq<(string, int)>>)
    requires WellEnded(ts) && 0 <= p < |ts|
    ensures p <= r.Pos() < |ts|
    ensures r.Done? ==> ts[r.next].kind in {Eof, Rbracket}
    decreases |ts| - p
  {
    if ts[p].kind in {Eof, Rbracket} then Done([], p)
    else if ts[p].kind in PieceKinds then
      match CountAt(ts, p + 1)
      case Err(e) => Thrown(e, Past(ts, p + 1, {Integer}))
      case Ok(c) => Prepend([(PieceName(ts[p].value), c)], PiecesFrom(ts, Past(ts, p + 1, {Integer})))
    else PiecesFrom(ts, p + 1)
  }

  /** What follows PIECES at `p`: after `[`, the piece list as a PIECES child when its `]`
      is there, ending past that `]`; nothing, ending at `p`, when no `[` follows. */
  function PiecesAt(ts: seq<Token>, p: int): (r: Outcome<seq<Node>>)
    requires WellEnded(ts) && 0 <= p < |ts|
    ensures p <= r.Pos() < |ts|
    ensures r.Done? ==> forall i :: 0 <= i < |r.value| ==> r.value[i].kind == "PIECES" && r.value[i].value.MapV? && r.value[i].children == []
  {
    if !At(ts, p, {Lbracket}) then Done([], p)
    else
      match PiecesFrom(ts, p + 1)
      case Thrown(e, q) => Thrown(e, q)
      case Done(items, e) =>
        Done(ChildIf(At(ts, e, {Rbracket}), WithValue("PIECES", MapV(TallyAll(map[], items)))), Past(ts, e, {Rbracket}))
  }

  /** One step of `parseChessDeclaration` at `p`, where it does not stop: a board size (8
      when no integer follows), a bracketed piece list, the attacking flag, or any other
      token skipped. */
  function ChessEntryAt(ts: seq<Token>, p: int): (r: Outcome<seq<Node>>)
    requires WellEnded(ts) && 0 <= p < |ts| && ts[p].kind != Eof && !IsChessStop(ts, p)
    ensures p < r.Pos() < |ts|
  {
    if At(ts, p, {BoardHeight}) then IntOrDefaultAt(ts, p + 1, "BOARD_HEIGHT", 8)
    else if At(ts, p, {BoardWidth}) then IntOrDefaultAt(ts, p + 1, "BOARD_WIDTH", 8)
    else if At(ts, p, {Pieces}) then PiecesAt(ts, p + 1)
    else if At(ts, p, {Attacking, NonAttacking}) then
      Done([WithValue("ATTACKING", BoolV(ts[p].kind == Attacking))], p + 1)
    else Done([], p + 1)
  }

  /** A chess step adds only chess attributes. */
  lemma ChessEntryShape(ts: seq<Token>, p: int)
    requires WellEnded(ts) && 0 <= p < |ts| && ts[p].kind != Eof && !IsChessStop(ts, p)
    ensures ChessEntryAt(ts, p).Done? ==>
      forall i :: 0 <= i < |ChessEntryAt(ts, p).value| ==> IsChessAttribute(ChessEntryAt(ts, p).value[i])
  {
  }

  /** A colour of an urn list adds one step in front of the rest of the list, or throws past
      its count when the count does not parse. */
  lemma BallsMapFromItem(ts: seq<Token>, p: int)
    requires WellEnded(ts) && 0 <= p < |ts| && ColorAt(ts, p)
    ensures p + 1 < |ts|
    ensures BallsMapFrom(ts, p) ==
      match CountAt(ts, p + 1)
      case Err(e) => Thrown(e, Past(ts, p + 1, {Integer}))
      case Ok(c) => Prepend([(ts[p].value, c)], BallsMapFrom(ts, Past(ts, p + 1, {Integer})))
  {
    assert ts[p].kind !in {Eof, Rbracket};
  }

  /** Any other token inside an urn list is skipped. */
  lemma BallsMapFromSkip(ts: seq<Token>, p: int)
    requires WellEnded(ts) && 0 <= p < |ts| && ts[p].kind !in {Eof, Rbracket} && !ColorAt(ts, p)
    ensures BallsMapFrom(ts, p) == BallsMapFrom(ts, p + 1)
  {
  }

  lemma SimpleBallsFromItem(ts: seq<Token>, p: int)
    requires WellEnded(ts) && 0 <= p < |ts| && ColorAt(ts, p)
    ensures p + 1 < |ts|
    ensures SimpleBallsFrom(ts, p) ==
      match CountAt(ts, p + 1)
      case Err(e) => Thrown(e, Past(ts, p + 1, {Integer}))
      case Ok(c) => Prepend([(ts[p].value, c)], SimpleBallsFrom(ts, Past(ts, p + 1, {Integer})))
  {
  }

  lemma PiecesFromItem(ts: seq<Token>, p: int)
    requires WellEnded(ts) && 0 <= p < |ts| && At(ts, p, PieceKinds)
    ensures p + 1 < |ts|
    ensures PiecesFrom(ts, p) ==
      match CountAt(ts, p + 1)
      case Err(e) => Thrown(e, Past(ts, p + 1, {Integer}))
      case Ok(c) => Prepend([(PieceName(ts[p].value), c)], PiecesFrom(ts, Past(ts, p + 1, {Integer})))
  {
    assert ts[p].kind !in {Eof, Rbracket};
  }

  lemma PiecesFromSkip(ts: seq<Token>, p: int)
    requires WellEnded(ts) && 0 <= p < |ts| && ts[p].kind !in {Eof, Rbracket} && !At(ts, p, PieceKinds)
    ensures PiecesFrom(ts, p) == PiecesFrom(ts, p + 1)
  {
  }

  /** The list after `CONSTRAINTS [`: at each step an optional string constraint, then one
      more token unless it is `]` or EOF. */
  function ConstraintsFrom(ts: seq<Token>, p: int): (r: (seq<string>, int))
    requires WellEnded(ts) && 0 <= p < |ts|
    ensures p <= r.1 < |ts| && ts[r.1].kind in {Eof, Rbracket}
    ensures ts[p].kind in {Eof, Rbracket} ==> r == ([], p)
    decreases |ts| - p
  {
    if ts[p].kind in {Eof, Rbracket} then ([], p)
    else
      var found := if At(ts, p, {String}) then [Unquote(ts[p].value)] else [];
      var q := Past(ts, p, {String});
      if ts[q].kind in {Eof, Rbracket} then (found, q)
      else
        var (rest, e) := ConstraintsFrom(ts, q + 1);
        (found + rest, e)
  }

  /** One step of the constraint list: an optional string, then the end of the list or
      the rest of it one token further on. */
  lemma ConstraintsFromStep(ts: seq<Token>, p: int)
    requires WellEnded(ts) && 0 <= p < |ts| && ts[p].kind !in {Eof, Rbracket}
    ensures var q := Past(ts, p, {String});
      var found := if At(ts, p, {String}) then [Unquote(ts[p].value)] else [];
      (ts[q].kind in {Eof, Rbracket} ==> ConstraintsFrom(ts, p) == (found, q))
      && (ts[q].kind !in {Eof, Rbracket} ==>
            ConstraintsFrom(ts, p).0 == found + ConstraintsFrom(ts, q + 1).0
            && ConstraintsFrom(ts, p).1 == ConstraintsFrom(ts, q + 1).1)
  {
  }

  // ---------------------------------------------------------------- cards

  /** `normalizeRank`: one-letter ranks spelled out, others unchanged. */
  function NormalizeRank(rank: string): (r: string)
    ensures ToUpper(rank) !in ["A", "K", "Q", "J"] ==> r == rank
  {
    match ToUpper(rank)
    case "A" => "ACE"
    case "K" => "KING"
    case "Q" => "QUEEN"
    case "J" => "JACK"
    case _ => rank
  }

  /** `normalizeSuit`: one-letter suits spelled out, others unchanged. */
  function NormalizeSuit(suit: string): (r: string)
    ensures ToUpper(suit) !in ["H", "D", "C", "S"] ==> r == suit
  {
    match ToUpper(suit)
    case "H" => "HEARTS"
    case "D" => "DIAMONDS"
    case "C" => "CLUBS"
    case "S" => "SPADES"
    case _ => suit
  }

  /** `checkCardComponents`: a rank or integer followed by a suit. */
  predicate CardAhead(ts: seq<Token>, p: int) {
    At(ts, p, RankKinds + {Integer})
      && (KindIs(ts, p + 1, Hearts) || KindIs(ts, p + 1, Diamonds)
          || KindIs(ts, p + 1, Clubs) || KindIs(ts, p + 1, Spades))
  }

  /** `checkCountCondition`: `COUNT` followed by `(`. */
  predicate CountAhead(ts: seq<Token>, p: int) {
    At(ts, p, {Count}) && KindIs(ts, p + 1, Lparen)
  }

  /** `checkUrnContentsStart`: `[` followed by a colour. */
  predicate UrnContentsAhead(ts: seq<Token>, p: int) {
    At(ts, p, {Lbracket}) && 0 <= p + 1 < |ts| && IsColor(ts[p + 1].kind)
  }

  /** The text of the token at `p` when it has one of the kinds `ks`, else `d`. */
  function TextOr(ts: seq<Token>, p: int, ks: set<TokenKind>, d: string): string {
    if At(ts, p, ks) then ts[p].value else d
  }

  /** The rank a card takes from its rank token: letter ranks are spelled out, an integer
      rank is kept as written. */
  function RankText(t: Token): string {
    if t.kind in RankKinds then NormalizeRank(t.value) else t.value
  }

  // ---------------------------------------------------------------- node shapes

  predicate IsCardShape(n: Node) {
    n.kind == "CARD" && n.value == Null && |n.children| == 2
    && n.children[0].kind == "RANK" && n.children[0].value.StrV?
    && n.children[1].kind == "SUIT" && n.children[1].value.StrV?
  }

  predicate IsConditionShape(n: Node) {
    n.kind == "CONDITION" && n.value == Null && |n.children| == 1
    && n.children[0].kind == "CONDITION_TYPE" && n.children[0].value.StrV?
  }

  /** What a target or an entry of a target list can be. */
  predicate IsTargetItem(n: Node) {
    IsCardShape(n) || IsCountShape(n) || IsConditionShape(n)
  }

  /** A bracketed target list: every entry is a card, a COUNT condition or a condition. */
  predicate IsTargetList(n: Node) {
    n.kind == "TARGET_LIST" && n.value == Null
    && forall i :: 0 <= i < |n.children| ==> IsTargetItem(n.children[i])
  }

  /** `b` is `a` with children added at the end. */
  predicate Extends(a: Node, b: Node) {
    b.kind == a.kind && b.value == a.value && a.children <= b.children
  }

  /** The attributes a numbers block collects. */
  predicate IsNumbersAttribute(c: Node) {
    c.children == []
    && (((c.kind == "DIGITS" || c.kind == "MAX_DIGIT") && c.value.IntV?)
        || ((c.kind == "FIRST_NOT_ZERO" || c.kind == "DISTINCT" || c.kind == "ADJACENT_DIFFERENT") && c.value.BoolV?)
        || ((c.kind == "ORDER" || c.kind == "COMPARE_OPERATOR") && c.value.StrV?)
        || ((c.kind == "COMPARE_LEFT" || c.kind == "COMPARE_RIGHT") && c.value.ListV? && c.value.items != []))
  }

  /** The attributes a divisibility block collects. */
  predicate IsDivisibilityAttribute(c: Node) {
    c.children == []
    && (((c.kind == "DIGITS" || c.kind == "DIVISOR") && c.value.IntV?) || (c.kind == "RULE" && c.value.StrV?))
  }

  /** The attributes a remainders block collects. */
  predicate IsRemaindersAttribute(c: Node) {
    c.children == []
    && (((c.kind == "DIVISOR" || c.kind == "REMAINDER") && c.value.IntV?) || (c.kind == "DIVIDEND" && c.value.StrV?))
  }

  /** The keywords a chess declaration reads itself. */
  const ChessKeywordKinds: set<TokenKind> := {BoardHeight, BoardWidth, Pieces, Attacking, NonAttacking}

  /** Where `parseChessDeclaration` stops: at a command that is not one of its own. */
  predicate IsChessStop(ts: seq<Token>, p: int) {
    At(ts, p, CommandKinds) && !At(ts, p, {BoardHeight, BoardWidth, Pieces})
  }

  /** The attributes a chess block collects. */
  predicate IsChessAttribute(c: Node) {
    c.children == []
    && (((c.kind == "BOARD_HEIGHT" || c.kind == "BOARD_WIDTH") && c.value.IntV?)
        || (c.kind == "PIECES" && c.value.MapV?)
        || (c.kind == "ATTACKING" && c.value.BoolV?))
  }

  /** The place of each part of a balls declaration: urn, drawn balls, draw type, count. */
  function BallsPartRank(kind: string): int {
    if kind == "URN_CONTENTS" then 0
    else if kind == "DRAW_BALLS" then 1
    else if kind == "DRAW_TYPE" then 2
    else if kind == "DRAW_COUNT" then 3
    else 4
  }

  predicate IsBallsPart(c: Node) {
    c.children == []
    && (((c.kind == "URN_CONTENTS" || c.kind == "DRAW_BALLS") && c.value.MapV? && c.value.m != map[])
        || (c.kind == "DRAW_TYPE" && c.value.BoolV?)
        || (c.kind == "DRAW_COUNT" && c.value.IntV?))
  }

  /** A balls declaration: each of its four parts at most once, in their order. */
  predicate IsBallsDeclaration(n: Node) {
    n.kind == "BALLS_DECLARATION" && n.value == Null
    && (forall i :: 0 <= i < |n.children| ==> IsBallsPart(n.children[i]))
    && (forall i, j :: 0 <= i < j < |n.children| ==>
          BallsPartRank(n.children[i].kind) < BallsPartRank(n.children[j].kind))
  }

  /** The node kinds the top-level loop adds to the program. */
  const DeclarationKinds: set<string> :=
    {"TASK_DECLARATION", "DECK_DECLARATION", "ALPHABET_DECLARATION", "LENGTH_DECLARATION",
     "UNIQUE_DECLARATION", "TARGET_DECLARATION", "DRAW_DECLARATION", "CONDITION", "CALCULATE",
     "UNKNOWNS_DECLARATION", "SUM_DECLARATION", "DOMAIN_DECLARATION",
     "CONSTRAINTS_DECLARATION", "NUMBERS_DECLARATION", "REMAINDERS_DECLARATION",
     "DIVISIBILITY_DECLARATION", "BALLS_DECLARATION", "CHESS_DECLARATION"}

  /** The constraint nodes for a list of constraint texts. */
  function ConstraintNodes(cs: seq<string>): (r: seq<Node>)
    ensures |r| == |cs|
    ensures forall i :: 0 <= i < |cs| ==> r[i] == WithValue("CONSTRAINT", StrV(cs[i]))
  {
    seq(|cs|, i requires 0 <= i < |cs| => WithValue("CONSTRAINT", StrV(cs[i])))
  }

  // ---------------------------------------------------------------- balls declarations

  /** Each part of a balls declaration is at most one node of the given rank. */
  predicate IsBallsPartOf(cs: seq<Node>, rank: int) {
    |cs| <= 1 && forall i :: 0 <= i < |cs| ==> IsBallsPart(cs[i]) && BallsPartRank(cs[i].kind) == rank
  }

  /** The colour counts read from the `[` at `p`, as a map child of kind `kind` that is left
      out when the map is empty, and the position after the `]` (which may be missing). */
  function BracketedBallsAt(ts: seq<Token>, p: int, kind: string): (r: Outcome<seq<Node>>)
    requires WellEnded(ts) && At(ts, p, {Lbracket})
    ensures p < r.Pos() < |ts|
  {
    match BallsMapFrom(ts, p + 1)
    case Thrown(e, q) => Thrown(e, q)
    case Done(items, e) => Done(MapChild(kind, TallyAll(map[], items)), Past(ts, e, {Rbracket}))
  }

  /** The urn part of `parseBallsDeclaration` from `p`. It is entered on URN, which it
      consumes, or on `[`. `previous()` fails at the first token; unless the token before the
      cursor is URN the cursor then steps back one token before it looks for `[`. */
  function UrnPartAt(ts: seq<Token>, p: int): (r: Outcome<seq<Node>>)
    requires WellEnded(ts) && 0 <= p < |ts|
    ensures 0 <= r.Pos() < |ts|
  {
    if At(ts, p, {Urn}) || At(ts, p, {Lbracket}) then
      var q := Past(ts, p, {Urn});
      if q == 0 then Thrown("IndexOutOfBoundsException", q)
      else
        var q1 := if ts[q - 1].kind != Urn then q - 1 else q;
        if At(ts, q1, {Lbracket}) then BracketedBallsAt(ts, q1, "URN_CONTENTS") else Done([], q1)
    else Done([], p)
  }

  /** The drawn-balls part from `p`: entered on DRAW, which it consumes, or on `[`, where
      unless the token before is DRAW the cursor steps back one token. A bracketed list
      follows, or a list of colours without brackets. */
  function DrawPartAt(ts: seq<Token>, p: int): (r: Outcome<seq<Node>>)
    requires WellEnded(ts) && 0 <= p < |ts|
    ensures 0 <= r.Pos() < |ts|
  {
    if At(ts, p, {Draw}) || At(ts, p, {Lbracket}) then
      var q := Past(ts, p, {Draw});
      if q == 0 then Thrown("IndexOutOfBoundsException", q)
      else
        var q1 := if ts[q - 1].kind != Draw && At(ts, q, {Lbracket}) then q - 1 else q;
        DrawBallsAt(ts, q1)
    else Done([], p)
  }

  /** The drawn balls themselves, at `p`: a bracketed map, a simple list, or nothing. */
  function DrawBallsAt(ts: seq<Token>, p: int): (r: Outcome<seq<Node>>)
    requires WellEnded(ts) && 0 <= p < |ts|
    ensures p <= r.Pos() < |ts|
  {
    if At(ts, p, {Lbracket}) then BracketedBallsAt(ts, p, "DRAW_BALLS")
    else if ColorAt(ts, p) || At(ts, p, {Integer}) then
      match SimpleBallsFrom(ts, p)
      case Thrown(e, q) => Thrown(e, q)
      case Done(items, e) => Done(MapChild("DRAW_BALLS", TallyAll(map[], items)), e)
    else Done([], p)
  }

  /** SEQUENTIAL or SIMULTANEOUS at `p`: whether the draw is sequential. */
  function DrawTypeAt(ts: seq<Token>, p: int): seq<Node> {
    if At(ts, p, DrawTypeKinds) then [WithValue("DRAW_TYPE", BoolV(ts[p].kind == Sequential))] else []
  }

  /** An integer at `p` is consumed; it is the draw count unless a command keyword follows. */
  function DrawCountAt(ts: seq<Token>, p: int): (r: Outcome<seq<Node>>)
    requires WellEnded(ts) && 0 <= p < |ts|
    ensures r.Pos() == Past(ts, p, {Integer})
  {
    if At(ts, p, {Integer}) then
      if At(ts, p + 1, CommandKinds) then Done([], p + 1)
      else
        match ParseInt(ts[p].value)
        case None => Thrown("NumberFormatException", p + 1)
        case Some(v) => Done([WithValue("DRAW_COUNT", IntV(v))], p + 1)
    else Done([], p)
  }

  /** `parseBallsDeclaration` from `p`: the declaration and the position after it. */
  function BallsDeclarationAt(ts: seq<Token>, p: int): (r: Outcome<Node>)
    requires WellEnded(ts) && 0 <= p < |ts|
    ensures 0 <= r.Pos() < |ts|
  {
    match UrnPartAt(ts, p)
    case Thrown(e, q) => Thrown(e, q)
    case Done(urn, p1) => BallsAfterUrn(ts, urn, p1)
  }

  /** The rest of a balls declaration once its urn part `urn` is read up to `p`. */
  function BallsAfterUrn(ts: seq<Token>, urn: seq<Node>, p: int): (r: Outcome<Node>)
    requires WellEnded(ts) && 0 <= p < |ts|
    ensures 0 <= r.Pos() < |ts|
  {
    match DrawPartAt(ts, p)
    case Thrown(e, q) => Thrown(e, q)
    case Done(draw, p2) => BallsAfterDraw(ts, urn + draw, p2)
  }

  /** The draw type and the draw count after the parts `parts`, from `p`. */
  function BallsAfterDraw(ts: seq<Token>, parts: seq<Node>, p: int): (r: Outcome<Node>)
    requires WellEnded(ts) && 0 <= p < |ts|
    ensures p <= r.Pos() < |ts|
  {
    var q := Past(ts, p, DrawTypeKinds);
    match DrawCountAt(ts, q)
    case Thrown(e, at) => Thrown(e, at)
    case Done(count, e) => Done(Node("BALLS_DECLARATION", Null, parts + DrawTypeAt(ts, p) + count), e)
  }

  /** `parseSimpleBallsDeclaration` from `p`: colours for the urn, then after DRAW colours
      for the drawn balls, then the draw type. */
  function SimpleBallsDeclarationAt(ts: seq<Token>, p: int): (r: Outcome<Node>)
    requires WellEnded(ts) && 0 <= p < |ts|
    ensures p <= r.Pos() < |ts|
  {
    match SimpleBallsFrom(ts, p)
    case Thrown(e, q) => Thrown(e, q)
    case Done(urn, p1) =>
      match SimpleDrawAt(ts, p1)
      case Thrown(e, q) => Thrown(e, q)
      case Done(draw, p2) =>
        Done(Node("BALLS_DECLARATION", Null,
                  MapChild("URN_CONTENTS", TallyAll(map[], urn)) + draw + DrawTypeAt(ts, p2)),
             Past(ts, p2, DrawTypeKinds))
  }

  /** DRAW followed by colours, in a simple balls declaration. */
  function SimpleDrawAt(ts: seq<Token>, p: int): (r: Outcome<seq<Node>>)
    requires WellEnded(ts) && 0 <= p < |ts|
    ensures p <= r.Pos() < |ts|
  {
    if At(ts, p, {Draw}) then
      match SimpleBallsFrom(ts, p + 1)
      case Thrown(e, q) => Thrown(e, q)
      case Done(draw, e) => Done(MapChild("DRAW_BALLS", TallyAll(map[], draw)), e)
    else Done([], p)
  }

  /** Parts of a balls declaration with ranks from `lo` up to (not including) `hi`, in
      increasing order. */
  predicate RankedParts(cs: seq<Node>, lo: int, hi: int) {
    (forall i :: 0 <= i < |cs| ==> IsBallsPart(cs[i]) && lo <= BallsPartRank(cs[i].kind) < hi)
    && (forall i, j :: 0 <= i < j < |cs| ==> BallsPartRank(cs[i].kind) < BallsPartRank(cs[j].kind))
  }

  lemma SinglePart(cs: seq<Node>, rank: int)
    requires IsBallsPartOf(cs, rank)
    ensures RankedParts(cs, rank, rank + 1)
  {
  }

  /** Lower-ranked parts followed by higher-ranked ones are still in order. */
  lemma JoinParts(a: seq<Node>, b: seq<Node>, lo: int, mid: int, hi: int)
    requires lo <= mid <= hi && RankedParts(a, lo, mid) && RankedParts(b, mid, hi)
    ensures RankedParts(a + b, lo, hi)
  {
    var cs := a + b;
    forall i | 0 <= i < |cs|
      ensures IsBallsPart(cs[i]) && lo <= BallsPartRank(cs[i].kind) < hi
    {
      if i >= |a| {
        assert cs[i] == b[i - |a|];
      }
    }
    forall i, j | 0 <= i < j < |cs|
      ensures BallsPartRank(cs[i].kind) < BallsPartRank(cs[j].kind)
    {
      if j < |a| {
        assert cs[i] == a[i] && cs[j] == a[j];
      } else if i >= |a| {
        assert cs[i] == b[i - |a|] && cs[j] == b[j - |a|];
      } else {
        assert cs[i] == a[i] && cs[j] == b[j - |a|];
      }
    }
  }

  /** Parts of increasing rank, each at most one node, make a balls declaration. */
  lemma PartsMakeBallsDeclaration(a: seq<Node>, b: seq<Node>, c: seq<Node>, d: seq<Node>)
    requires IsBallsPartOf(a, 0) && IsBallsPartOf(b, 1) && IsBallsPartOf(c, 2) && IsBallsPartOf(d, 3)
    ensures IsBallsDeclaration(Node("BALLS_DECLARATION", Null, a + b + c + d))
  {
    SinglePart(a, 0);
    SinglePart(b, 1);
    SinglePart(c, 2);
    SinglePart(d, 3);
    JoinParts(a, b, 0, 1, 2);
    JoinParts(a + b, c, 0, 2, 3);
    JoinParts(a + b + c, d, 0, 3, 4);
  }

  lemma MapChildIsBallsPart(kind: string, m: map<string, int>)
    requires kind == "URN_CONTENTS" || kind == "DRAW_BALLS"
    ensures IsBallsPartOf(MapChild(kind, m), if kind == "URN_CONTENTS" then 0 else 1)
  {
  }

  lemma DrawTypePart(ts: seq<Token>, p: int)
    ensures IsBallsPartOf(DrawTypeAt(ts, p), 2)
  {
  }

  lemma DrawCountPart(ts: seq<Token>, p: int)
    requires WellEnded(ts) && 0 <= p < |ts|
    ensures DrawCountAt(ts, p).Done? ==> IsBallsPartOf(DrawCountAt(ts, p).value, 3)
  {
  }

  lemma BracketedShape(ts: seq<Token>, p: int, kind: string)
    requires WellEnded(ts) && At(ts, p, {Lbracket})
    requires kind == "URN_CONTENTS" || kind == "DRAW_BALLS"
    ensures var b := BracketedBallsAt(ts, p, kind);
      b.Done? ==> IsBallsPartOf(b.value, if kind == "URN_CONTENTS" then 0 else 1)
  {
    var b := BallsMapFrom(ts, p + 1);
    if b.Done? {
      MapChildIsBallsPart(kind, TallyAll(map[], b.value));
    }
  }

  lemma UrnPartShape(ts: seq<Token>, p: int)
    requires WellEnded(ts) && 0 <= p < |ts|
    ensures UrnPartAt(ts, p).Done? ==> IsBallsPartOf(UrnPartAt(ts, p).value, 0)
  {
    if UrnPartAt(ts, p).Done? && (At(ts, p, {Urn}) || At(ts, p, {Lbracket})) {
      var q := Past(ts, p, {Urn});
      var q1 := if ts[q - 1].kind != Urn then q - 1 else q;
      if At(ts, q1, {Lbracket}) {
        BracketedShape(ts, q1, "URN_CONTENTS");
      }
    }
  }

  lemma DrawBallsShape(ts: seq<Token>, p: int)
    requires WellEnded(ts) && 0 <= p < |ts|
    ensures DrawBallsAt(ts, p).Done? ==> IsBallsPartOf(DrawBallsAt(ts, p).value, 1)
  {
    if At(ts, p, {Lbracket}) {
      BracketedShape(ts, p, "DRAW_BALLS");
    } else if ColorAt(ts, p) || At(ts, p, {Integer}) {
      var s := SimpleBallsFrom(ts, p);
      if s.Done? {
        MapChildIsBallsPart("DRAW_BALLS", TallyAll(map[], s.value));
      }
    }
  }

  lemma DrawPartShape(ts: seq<Token>, p: int)
    requires WellEnded(ts) && 0 <= p < |ts|
    ensures DrawPartAt(ts, p).Done? ==> IsBallsPartOf(DrawPartAt(ts, p).value, 1)
  {
    if At(ts, p, {Draw}) || At(ts, p, {Lbracket}) {
      var q := Past(ts, p, {Draw});
      if q > 0 {
        var q1 := if ts[q - 1].kind != Draw && At(ts, q, {Lbracket}) then q - 1 else q;
        DrawBallsShape(ts, q1);
      }
    }
  }

  /** Whatever the tokens, a balls declaration that parses has each of its four parts at
      most once, in the order urn, drawn balls, draw type, count. */
  lemma BallsDeclarationShape(ts: seq<Token>, p: int)
    requires WellEnded(ts) && 0 <= p < |ts|
    ensures BallsDeclarationAt(ts, p).Done? ==> IsBallsDeclaration(BallsDeclarationAt(ts, p).value)
  {
    UrnPartShape(ts, p);
    var u := UrnPartAt(ts, p);
    if u.Done? {
      var (urn, p1) := (u.value, u.next);
      DrawPartShape(ts, p1);
      var d := DrawPartAt(ts, p1);
      if d.Done? {
        var (draw, p2) := (d.value, d.next);
        var q := Past(ts, p2, DrawTypeKinds);
        DrawTypePart(ts, p2);
        DrawCountPart(ts, q);
        if DrawCountAt(ts, q).Done? {
          PartsMakeBallsDeclaration(urn, draw, DrawTypeAt(ts, p2), DrawCountAt(ts, q).value);
        }
      }
    }
  }

  lemma SimpleDrawShape(ts: seq<Token>, p: int)
    requires WellEnded(ts) && 0 <= p < |ts|
    ensures SimpleDrawAt(ts, p).Done? ==> IsBallsPartOf(SimpleDrawAt(ts, p).value, 1)
  {
    if At(ts, p, {Draw}) && SimpleBallsFrom(ts, p + 1).Done? {
      MapChildIsBallsPart("DRAW_BALLS", TallyAll(map[], SimpleBallsFrom(ts, p + 1).value));
    }
  }

  /** A simple balls declaration that parses has the same shape. */
  lemma SimpleBallsDeclarationShape(ts: seq<Token>, p: int)
    requires WellEnded(ts) && 0 <= p < |ts|
    ensures SimpleBallsDeclarationAt(ts, p).Done? ==> IsBallsDeclaration(SimpleBallsDeclarationAt(ts, p).value)
  {
    var u := SimpleBallsFrom(ts, p);
    if u.Done? {
      var (urn, p1) := (u.value, u.next);
      var urnPart := MapChild("URN_CONTENTS", TallyAll(map[], urn));
      MapChildIsBallsPart("URN_CONTENTS", TallyAll(map[], urn));
      SimpleDrawShape(ts, p1);
      var d := SimpleDrawAt(ts, p1);
      if d.Done? {
        var (draw, p2) := (d.value, d.next);
        DrawTypePart(ts, p2);
        PartsMakeBallsDeclaration(urnPart, draw, DrawTypeAt(ts, p2), []);
        AppendEmpty(urnPart + draw + DrawTypeAt(ts, p2));
      }
    }
  }

  lemma AppendEmpty<T>(a: seq<T>)
    ensures a + [] == a
  {
  }

  /** `BALLS [`: the urn part steps back onto BALLS, so nothing is read and the cursor ends
      one token before where it started; the top-level loop then dispatches BALLS again. */
  lemma BallsBracketStepsBack(ts: seq<Token>, p: int)
    requires WellEnded(ts) && 0 < p < |ts| && ts[p - 1].kind == Balls && At(ts, p, {Lbracket})
    ensures BallsDeclarationAt(ts, p) == Done(Leaf("BALLS_DECLARATION"), p - 1)
  {
    assert UrnPartAt(ts, p) == Done([], p - 1);
    assert DrawPartAt(ts, p - 1) == Done([], p - 1);
    assert !At(ts, p - 1, DrawTypeKinds);
    assert DrawCountAt(ts, p - 1) == Done([], p - 1);
    assert [] + DrawTypeAt(ts, p - 1) + [] == [];
  }

  /** A `[` as the first token makes `previous()` fail, with the cursor still on it. */
  lemma BracketAtStartFails(ts: seq<Token>)
    requires WellEnded(ts) && At(ts, 0, {Lbracket})
    ensures BallsDeclarationAt(ts, 0) == Thrown("IndexOutOfBoundsException", 0)
  {
    assert UrnPartAt(ts, 0) == Thrown("IndexOutOfBoundsException", 0);
  }

  /** `URN [ ... ]`: the urn contents are the colour counts of the list, repeated colours
      summed, and the cursor goes past the `]`. */
  lemma UrnListReadsContents(ts: seq<Token>, p: int)
    requires WellEnded(ts) && 0 <= p < |ts| && At(ts, p, {Urn}) && At(ts, p + 1, {Lbracket})
    ensures var l := BallsMapFrom(ts, p + 2);
      l.Done? ==>
        UrnPartAt(ts, p) == Done(MapChild("URN_CONTENTS", TallyAll(map[], l.value)), Past(ts, l.next, {Rbracket}))
  {
    assert ts[p].kind != Lbracket;
  }

  // ---------------------------------------------------------------- COUNT(...)

  /** What a COUNT condition expects after its type: a token of one of `kinds`, two
      integers written `a-b`, or nothing. */
  datatype Vocabulary = OneOf(kinds: set<TokenKind>) | Range | NoValue

  /** The value a COUNT condition expects after a type token of kind `k`(as the parser is
      evidently meant to choose it). */
  function CountVocabulary(k: TokenKind): (v: Vocabulary)
    ensures k in CountTypeKinds ==> !v.NoValue?
  {
    if k == Suit then OneOf(SuitKinds)
    else if k == Color then OneOf({Red, Black})
    else if k == RankType then OneOf(RankTypeValueKinds)
    else if k == Rank then OneOf(RankValueKinds)
    else if k == RankRange then Range
    else NoValue
  }

  /** The value the source expects after a type token with text `text`: it compares the
      token's original text with the upper-case type names, so a type written in lower case
      expects no value at all. */
  function CountVocabularyAsWritten(text: string): Vocabulary {
    if text == "SUIT" then OneOf(SuitKinds)
    else if text == "COLOR" then OneOf({Red, Black})
    else if text == "RANK_TYPE" then OneOf(RankTypeValueKinds)
    else if text == "RANK" then OneOf(RankValueKinds)
    else if text == "RANK_RANGE" then Range
    else NoValue
  }

  /** For a type written in upper case the two choices agree. */
  lemma CountVocabularyUpperCaseAgrees(k: TokenKind)
    requires k in CountTypeKinds
    ensures CountVocabularyAsWritten(k.Name()) == CountVocabulary(k)
  {
    if k == Suit {
      assert k.Name() == "SUIT";
    } else if k == Color {
      assert k.Name() == "COLOR";
    } else if k == RankType {
      assert k.Name() == "RANK_TYPE";
    } else if k == Rank {
      assert k.Name() == "RANK";
    } else {
      assert k.Name() == "RANK_RANGE";
    }
  }

  /** The value text after the type, and the position after it. A value that is missing
      throws where it should stand. */
  function CountValueAt(ts: seq<Token>, p: int, voc: Vocabulary): (r: Outcome<Option<string>>)
    requires WellEnded(ts) && 0 <= p < |ts|
    ensures p <= r.Pos() < |ts|
    ensures r.Done? ==> (r.value.None? <==> voc.NoValue?)
    ensures r.Done? && voc.OneOf? ==>
      At(ts, p, voc.kinds) && r == Done(Some(ts[p].value), p + 1)
    ensures r.Done? && voc.Range? ==>
      At(ts, p, {Integer}) && At(ts, p + 1, {Integer})
      && r == Done(Some(ts[p].value + "-" + ts[p + 1].value), p + 2)
    ensures r.Done? && voc.NoValue? ==> r == Done(None, p)
  {
    match voc
    case OneOf(ks) =>
      if At(ts, p, ks) then Done(Some(ts[p].value), p + 1) else Thrown("RuntimeException", p)
    case Range =>
      if !At(ts, p, {Integer}) then Thrown("RuntimeException", p)
      else if !At(ts, p + 1, {Integer}) then Thrown("RuntimeException", p + 1)
      else Done(Some(ts[p].value + "-" + ts[p + 1].value), p + 2)
    case NoValue => Done(None, p)
  }

  /** The node a complete COUNT condition builds. */
  function CountNode(typeText: string, value: Option<string>, op: string, target: int): (n: Node)
    ensures value.Some? ==>
              IsCountShape(n) && n.children[0].value.s == typeText
              && n.children[1].value.s == value.value && n.children[2].value.s == op
              && n.children[3].value.i == target
    ensures value.None? ==> |n.children| == 3
  {
    var kind := WithValue("COUNT_TYPE", StrV(typeText));
    var operator := WithValue("OPERATOR", StrV(op));
    var targetValue := WithValue("TARGET_VALUE", IntV(target));
    if value.Some? then
      Node("COUNT_CONDITION", Null,
           [kind, WithValue("COUNT_VALUE", StrV(value.value)), operator, targetValue])
    else Node("COUNT_CONDITION", Null, [kind, operator, targetValue])
  }

  /** `)`, a comparison operator and an integer target that parses follow at `q`. */
  predicate CountTailOk(ts: seq<Token>, q: int) {
    At(ts, q, {Rparen}) && At(ts, q + 1, CountOperatorKinds)
    && IntAt(ts, q + 2).Ok? && IntAt(ts, q + 2).value.Some?
  }

  /** What follows the value: `)`, a comparison operator and the integer target. Each part
      that is missing throws where it should stand; a target whose text does not parse
      throws past it. */
  function CountTailAt(ts: seq<Token>, q: int, typeText: string, value: Option<string>)
    : (r: Outcome<Node>)
    requires WellEnded(ts) && 0 <= q < |ts|
    ensures r.Done? <==> CountTailOk(ts, q)
    ensures q <= r.Pos() < |ts|
    ensures r.Done? ==> r.next == q + 3
  {
    if !At(ts, q, {Rparen}) then Thrown("RuntimeException", q)
    else if !At(ts, q + 1, CountOperatorKinds) then Thrown("RuntimeException", q + 1)
    else
      match IntAt(ts, q + 2)
      case Err(e) => Thrown(e, q + 3)
      case Ok(None) => Thrown("RuntimeException", q + 2)
      case Ok(Some(v)) => Done(CountNode(typeText, value, ts[q + 1].value, v), q + 3)
  }

  /** `parseCountCondition` from `p`: the node and the position after it, or the exception
      and where it is thrown. `asWritten` selects how the value vocabulary is chosen. */
  function CountConditionAt(ts: seq<Token>, p: int, asWritten: bool): (r: Outcome<Node>)
    requires WellEnded(ts) && 0 <= p < |ts|
    ensures p <= r.Pos() < |ts|
    ensures r.Done? ==> r.next > p
  {
    if !At(ts, p, {Count}) then Thrown("RuntimeException", p)
    else if !At(ts, p + 1, {Lparen}) then Thrown("RuntimeException", p + 1)
    else if !At(ts, p + 2, CountTypeKinds) then Thrown("RuntimeException", p + 2)
    else
      match CountValueAt(ts, p + 3, ChooseVocabulary(ts[p + 2], asWritten))
      case Thrown(e, q) => Thrown(e, q)
      case Done(v, q) => CountTailAt(ts, q, ts[p + 2].value, v)
  }

  /** The vocabulary after the type token `t`, by its text as written or by its kind. */
  function ChooseVocabulary(t: Token, asWritten: bool): Vocabulary {
    if asWritten then CountVocabularyAsWritten(t.value) else CountVocabulary(t.kind)
  }

  /** The four parts of a complete COUNT condition, in order. */
  predicate IsCountShape(n: Node) {
    n.kind == "COUNT_CONDITION" && |n.children| == 4
    && n.children[0].kind == "COUNT_TYPE" && n.children[0].value.StrV?
    && n.children[1].kind == "COUNT_VALUE" && n.children[1].value.StrV?
    && n.children[2].kind == "OPERATOR" && n.children[2].value.StrV?
    && n.children[3].kind == "TARGET_VALUE" && n.children[3].value.IntV?
  }

  /** A COUNT condition that parses has its type, its value, its operator and its target,
      in that order; the type is the text of the type token and the operator the text of a
      comparison token. */
  lemma CountConditionShape(ts: seq<Token>, p: int)
    requires WellEnded(ts) && 0 <= p < |ts|
    requires CountConditionAt(ts, p, false).Done?
    ensures IsCountShape(CountConditionAt(ts, p, false).value)
    ensures At(ts, p + 2, CountTypeKinds)
    ensures CountConditionAt(ts, p, false).value.children[0].value.s == ts[p + 2].value
    ensures var q := CountConditionAt(ts, p, false).next;
      At(ts, q - 2, CountOperatorKinds)
      && CountConditionAt(ts, p, false).value.children[2].value.s == ts[q - 2].value
  {
    assert At(ts, p + 2, CountTypeKinds);
    var voc := ChooseVocabulary(ts[p + 2], false);
    assert !voc.NoValue?;
    var v := CountValueAt(ts, p + 3, voc);
    assert v.Done? && v.value.Some?;
    var r := CountTailAt(ts, v.next, ts[p + 2].value, v.value);
    assert CountConditionAt(ts, p, false) == r;
  }

  /** The value of a COUNT condition that parses is a token of its type's vocabulary. */
  lemma CountConditionValue(ts: seq<Token>, p: int)
    requires WellEnded(ts) && 0 <= p < |ts|
    requires CountConditionAt(ts, p, false).Done? && !At(ts, p + 2, {RankRange})
    ensures At(ts, p + 2, CountTypeKinds) && IsCountShape(CountConditionAt(ts, p, false).value)
    ensures At(ts, p + 3, CountVocabulary(ts[p + 2].kind).kinds)
    ensures CountConditionAt(ts, p, false).value.children[1] ==
      WithValue("COUNT_VALUE", StrV(ts[p + 3].value))
  {
    CountConditionShape(ts, p);
    var v := CountValueAt(ts, p + 3, ChooseVocabulary(ts[p + 2], false));
    assert CountConditionAt(ts, p, false) == CountTailAt(ts, v.next, ts[p + 2].value, v.value);
  }

  /** A RANK_RANGE value is the two integers that follow, written `a-b`. */
  lemma CountConditionRange(ts: seq<Token>, p: int)
    requires WellEnded(ts) && 0 <= p < |ts|
    requires CountConditionAt(ts, p, false).Done? && At(ts, p + 2, {RankRange})
    ensures IsCountShape(CountConditionAt(ts, p, false).value)
    ensures At(ts, p + 3, {Integer}) && At(ts, p + 4, {Integer})
    ensures CountConditionAt(ts, p, false).value.children[1] ==
      WithValue("COUNT_VALUE", StrV(ts[p + 3].value + "-" + ts[p + 4].value))
  {
    CountConditionShape(ts, p);
    var v := CountValueAt(ts, p + 3, ChooseVocabulary(ts[p + 2], false));
    assert CountConditionAt(ts, p, false) == CountTailAt(ts, v.next, ts[p + 2].value, v.value);
  }

  /** The tokens of `COUNT(suit hearts) = 2`. */
  const LowerCaseCount: seq<Token> :=
    [Token(Count, "COUNT", 1, 1), Token(Lparen, "(", 1, 6), Token(Suit, "suit", 1, 7),
     Token(Hearts, "hearts", 1, 12), Token(Rparen, ")", 1, 18), Token(Equals, "=", 1, 20),
     Token(Integer, "2", 1, 22), Token(Eof, "", 2, 1)]

  lemma LowerCaseCountHead()
    ensures WellEnded(LowerCaseCount)
    ensures At(LowerCaseCount, 0, {Count}) && At(LowerCaseCount, 1, {Lparen})
    ensures At(LowerCaseCount, 2, CountTypeKinds) && LowerCaseCount[2] == Token(Suit, "suit", 1, 7)
  {
  }

  lemma LowerCaseCountTail()
    ensures At(LowerCaseCount, 3, SuitKinds) && LowerCaseCount[3].value == "hearts"
    ensures !At(LowerCaseCount, 3, {Rparen})
    ensures At(LowerCaseCount, 4, {Rparen}) && At(LowerCaseCount, 5, CountOperatorKinds)
    ensures LowerCaseCount[5].value == "="
  {
  }

  lemma LowerCaseCountTarget()
    ensures IntAt(LowerCaseCount, 6) == Ok(Some(2))
  {
    assert ParseInt("2") == Some(2) by {
      assert IsDigits("2");
      assert DigitsValue("2") == DigitsValue("") * 10 + JavaText.DigitValue('2');
    }
  }

  /** With the vocabulary chosen by the type's text, a COUNT condition whose type is written
      in lower case expects no value and throws where the value stands, as it finds no `)`
      there. */
  lemma LowerCaseCountFailsAsWritten()
    ensures WellEnded(LowerCaseCount)
    ensures CountConditionAt(LowerCaseCount, 0, true) == Thrown("RuntimeException", 3)
  {
    var ts := LowerCaseCount;
    LowerCaseCountHead();
    LowerCaseCountTail();
    assert "suit"[0] != "SUIT"[0];
    assert ChooseVocabulary(ts[2], true) == NoValue;
    var v := CountValueAt(ts, 3, ChooseVocabulary(ts[2], true));
    assert v == Done(None, 3);
    assert CountConditionAt(ts, 0, true) == CountTailAt(ts, 3, "suit", None);
  }

  /** With the vocabulary chosen by the type token's kind, the same condition parses to all
      four parts. */
  lemma LowerCaseCountParses()
    ensures WellEnded(LowerCaseCount)
    ensures CountConditionAt(LowerCaseCount, 0, false) ==
      Done(CountNode("suit", Some("hearts"), "=", 2), 7)
  {
    var ts := LowerCaseCount;
    LowerCaseCountHead();
    LowerCaseCountTail();
    LowerCaseCountTarget();
    assert ChooseVocabulary(ts[2], false) == OneOf(SuitKinds);
    var v := CountValueAt(ts, 3, ChooseVocabulary(ts[2], false));
    assert v == Done(Some("hearts"), 4);
    assert CountConditionAt(ts, 0, false) == CountTailAt(ts, 4, "suit", Some("hearts"));
  }

  // ---------------------------------------------------------------- the top-level route

  /** Which branch of the top-level loop a position leads to. */
  datatype Route =
    | ToTask | ToDeck | ToAlphabet | ToLength | ToUnique | ToAllowDuplicates | ToTarget
    | ToDraw | ToCondition | ToCalculate | ToUnknowns | ToSum | ToDomain | ToConstraints
    | ToNumbers(keyword: bool) | ToRemainders | ToDivisibility(keyword: bool) | ToBalls
    | ToChess | ToUrnStart | ToSimpleBalls | Skip
  {
    /** The routes that consume a keyword of their own and parse what follows it. */
    predicate IsKeywordRoute() {
      this in {ToTask, ToDeck, ToAlphabet, ToLength, ToUnique, ToAllowDuplicates, ToTarget, ToDraw,
               ToCondition, ToCalculate, ToUnknowns, ToSum, ToDomain, ToConstraints}
    }
  }

  /** The top-level dispatch at position `p`: the tests in the order the loop makes them.
      Routes with `keyword` set begin by consuming the keyword. */
  function Dispatch(ts: seq<Token>, p: int): (r: Route)
    ensures r != Skip ==> 0 <= p < |ts| && ts[p].kind != Eof
  {
    if At(ts, p, {Task}) then ToTask
    else if At(ts, p, {Deck}) then ToDeck
    else if At(ts, p, {Alphabet}) then ToAlphabet
    else if At(ts, p, {Length}) then ToLength
    else if At(ts, p, {Unique}) then ToUnique
    else if At(ts, p, {AllowDuplicates}) then ToAllowDuplicates
    else if At(ts, p, {Target}) then ToTarget
    else if At(ts, p, {Draw}) then ToDraw
    else if At(ts, p, {Condition}) then ToCondition
    else if At(ts, p, {Calculate}) then ToCalculate
    else if At(ts, p, {Unknowns}) then ToUnknowns
    else if At(ts, p, {Sum}) then ToSum
    else if At(ts, p, {Domain}) then ToDomain
    else if At(ts, p, {Constraints}) then ToConstraints
    else if At(ts, p, {Numbers}) then ToNumbers(true)
    else if At(ts, p, {Digits}) && KindIs(ts, p + 1, Integer) && !KindIs(ts, p + 2, DividesBy)
    then ToNumbers(false)
    else if At(ts, p, {Dividend, Divisor, Remainder}) then ToRemainders
    else if At(ts, p, {Divisibility}) then ToDivisibility(true)
    else if At(ts, p, {Digits}) && KindIs(ts, p + 1, Integer)
         && (KindIs(ts, p + 2, DividesBy) || KindIs(ts, p + 2, Rule))
    then ToDivisibility(false)
    else if At(ts, p, {Urn, Balls}) then ToBalls
    else if At(ts, p, {Chess, Pieces, BoardHeight}) then ToChess
    else if UrnContentsAhead(ts, p) then ToUrnStart
    else if ColorAt(ts, p) then ToSimpleBalls
    else Skip
  }

  /** `DIGITS <integer> X` starts a divisibility block exactly when X is DIVIDES_BY and a
      numbers block otherwise; the test for `RULE` after the integer is never reached. */
  lemma DigitsDispatch(ts: seq<Token>, p: int)
    requires At(ts, p, {Digits}) && KindIs(ts, p + 1, Integer)
    ensures Dispatch(ts, p) == (if KindIs(ts, p + 2, DividesBy) then ToDivisibility(false)
                                else ToNumbers(false))
  {
  }
}
