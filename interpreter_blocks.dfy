/** The interpreter's block routines, the ones that keep local variables with their own
    defaults across the loop over a node's children and write a summary back to the
    context at the end (numbers, divisibility, balls and urns, chess), and the top-level
    `interpret` that dispatches every declaration of the program.

    As in the rest of the interpreter, each routine is a method on the context proved
    against a function on `State`; here the function's loop runs over pairs of a state and
    the routine's locals. The order in which a `HashMap` lists its entries is a parameter
    `order`. */
module InterpreterBlocks {
  import opened Wrappers
  import opened JavaText
  import opened JavaMaps
  import opened Ast
  import opened ProblemTypes
  import opened Cards
  import opened Context
  import opened Interpreter

  /** One pass of a loop with locals agrees with its specification: it throws exactly
      when the specification does, and otherwise leaves the specified state and locals. */
  predicate StepReaches<L(==)>(r: Result<L>, after: State, spec: Result<(State, L)>) {
    (r.Err? <==> spec.Err?) && (r.Ok? ==> spec.value == (after, r.value))
  }

  /** Some child has kind `k`, looking at the last child apart from the others. */
  lemma HasKindSnoc(cs: seq<Node>, k: string)
    requires |cs| > 0
    ensures HasKind(cs, k) <==> HasKind(cs[..|cs| - 1], k) || cs[|cs| - 1].kind == k
  {
    var init := cs[..|cs| - 1];
    if HasKind(init, k) {
      var i :| 0 <= i < |init| && init[i].kind == k;
      assert cs[i] == init[i];
    }
  }

  // ---------------------------------------------------------------- CHESS

  /** The locals `height` and `width` of `interpretChessDeclaration`. */
  datatype Board = Board(height: int, width: int)

  function ChessChild(order: KeyOrder, run: (State, Board), c: Node): Result<(State, Board)> {
    var (s, b) := run;
    if c.kind == "BOARD_HEIGHT" then
      var h :- AsInt(c.value);
      Ok((s.(boardHeight := h, params := s.params["boardHeight" := IntV(h)]), b.(height := h)))
    else if c.kind == "BOARD_WIDTH" then
      var w :- AsInt(c.value);
      Ok((s.(boardWidth := w, params := s.params["boardWidth" := IntV(w)]), b.(width := w)))
    else if c.kind == "PIECES" then
      if c.value.MapV? then Ok((PiecesUpdate(s, c.value.m, order(c.value.m)), b)) else Ok(run)
    else if c.kind == "ATTACKING" then
      var a :- AsBool(c.value);
      Ok((s.(attacking := a, params := s.params["attacking" := BoolV(a)]), b))
    else Ok(run)
  }

  /** A PIECES map: its entries are added to the pieces, and the parameters get its text
      and the `int` sum of its counts. */
  function PiecesUpdate(s: State, m: map<string, int>, ks: seq<string>): State
    requires IsKeyOrder(m, ks)
  {
    s.(pieces := s.pieces + m,
       params := s.params["pieces" := StrV(EntriesText(m, ks, ": "))]["totalPieces" := IntV(IntSum(m, ks))])
  }

  function ChessStep(order: KeyOrder): ((State, Board), Node) -> Result<(State, Board)> {
    (run, c) => ChessChild(order, run, c)
  }

  /** `interpretChessDeclaration`: the loop, then the type CHESS and the board size,
      8 by 8 unless a child gave another, written to the fields and to the parameters. */
  function ChessDeclaration(order: KeyOrder, s: State, n: Node): Result<State> {
    var run :- Fold(ChessStep(order), (s, Board(8, 8)), n.children);
    var (t, b) := run;
    Ok(t.(problemType := Some(Chess), boardHeight := b.height, boardWidth := b.width,
          params := t.params["boardHeight" := IntV(b.height)]["boardWidth" := IntV(b.width)]))
  }

  /** The loop keeps the last height and the last width it was given, 8 when none was. */
  lemma {:induction false} BoardIsLast(order: KeyOrder, s: State, cs: seq<Node>)
    ensures var r := Fold(ChessStep(order), (s, Board(8, 8)), cs);
      r.Ok? ==> r.value.1 == Board(LastInteger(cs, "BOARD_HEIGHT").GetOr(8), LastInteger(cs, "BOARD_WIDTH").GetOr(8))
    decreases |cs|
  {
    if |cs| > 0 {
      BoardIsLast(order, s, cs[..|cs| - 1]);
      LastSnoc(cs, "BOARD_HEIGHT");
      LastSnoc(cs, "BOARD_WIDTH");
    }
  }

  /** After a chess declaration the type is CHESS, and the board height and width are
      the last ones given, or 8; the typed fields and the parameters agree on them. */
  lemma ChessBoardDefaults(order: KeyOrder, s: State, n: Node)
    requires ChessDeclaration(order, s, n).Ok?
    ensures var t := ChessDeclaration(order, s, n).value;
      var h := LastInteger(n.children, "BOARD_HEIGHT").GetOr(8);
      var w := LastInteger(n.children, "BOARD_WIDTH").GetOr(8);
      t.problemType == Some(Chess)
      && t.boardHeight == h && t.boardWidth == w
      && t.params["boardHeight"] == IntV(h) && t.params["boardWidth"] == IntV(w)
  {
    BoardIsLast(order, s, n.children);
  }

  /** The text of a map's entries, built as the interpreter's loops build it: each entry
      `key sep value`, with `", "` between entries. */
  /** One pass of the loops that print a map's entries: the separator unless it is the
      first entry, then key, separator and value. */
  method AppendEntry(text: string, m: map<string, int>, ks: seq<string>, i: nat, sep: string) returns (t: string)
    requires forall j :: 0 <= j < |ks| ==> ks[j] in m
    requires i < |ks| && text == EntriesText(m, ks[..i], sep)
    ensures t == EntriesText(m, ks[..i + 1], sep)
  {
    EntriesTextStep(m, ks, i, sep);
    t := text;
    if i > 0 {
      t := t + ", ";
    }
    var k := ks[i];
    t := t + (k + sep + IntToString(m[k]));
  }

  method EntriesString(m: map<string, int>, ks: seq<string>, sep: string) returns (text: string)
    requires forall i :: 0 <= i < |ks| ==> ks[i] in m
    ensures text == EntriesText(m, ks, sep)
  {
    text := "";
    var i := 0;
    while i < |ks|
      invariant 0 <= i <= |ks|
      invariant text == EntriesText(m, ks[..i], sep)
    {
      text := AppendEntry(text, m, ks, i, sep);
      i := i + 1;
    }
    assert ks[..i] == ks;
  }

  method ChessChildStep(child: Node, ctx: ProblemContext, order: KeyOrder, b: Board) returns (r: Result<Board>)
    modifies ctx
    ensures StepReaches(r, ctx.Snapshot(), ChessChild(order, (old(ctx.Snapshot()), b), child))
  {
    r := Ok(b);
    if child.kind == "BOARD_HEIGHT" {
      var height := AsInt(child.value);
      if height.Err? {
        return Err(height.msg);
      }
      ctx.SetBoardHeight(height.value);
      ctx.SetAdditionalParam("boardHeight", IntV(height.value));
      r := Ok(b.(height := height.value));
    } else if child.kind == "BOARD_WIDTH" {
      var width := AsInt(child.value);
      if width.Err? {
        return Err(width.msg);
      }
      ctx.SetBoardWidth(width.value);
      ctx.SetAdditionalParam("boardWidth", IntV(width.value));
      r := Ok(b.(width := width.value));
    } else if child.kind == "PIECES" {
      if child.value.MapV? {
        PutPieces(child.value.m, ctx, order(child.value.m));
      }
    } else if child.kind == "ATTACKING" {
      var attacking := AsBool(child.value);
      if attacking.Err? {
        return Err(attacking.msg);
      }
      ctx.SetAttacking(attacking.value);
      ctx.SetAdditionalParam("attacking", BoolV(attacking.value));
    }
  }

  method PutPieces(piecesMap: map<string, int>, ctx: ProblemContext, ks: seq<string>)
    requires IsKeyOrder(piecesMap, ks)
    modifies ctx
    ensures ctx.Snapshot() == PiecesUpdate(old(ctx.Snapshot()), piecesMap, ks)
  {
    ctx.PutAllPieces(piecesMap);
    var piecesStr := EntriesString(piecesMap, ks, ": ");
    ctx.SetAdditionalParam("pieces", StrV(piecesStr));
    ctx.SetAdditionalParam("totalPieces", IntV(IntSum(piecesMap, ks)));
  }

  /** `interpretChessDeclaration`. */
  method InterpretChessDeclaration(node: Node, ctx: ProblemContext, order: KeyOrder) returns (r: Result<()>)
    modifies ctx
    ensures Reaches(r, ctx.Snapshot(), ChessDeclaration(order, old(ctx.Snapshot()), node))
  {
    ghost var s0 := ctx.Snapshot();
    ghost var step := ChessStep(order);
    var cs := node.children;
    var board := Board(8, 8);
    var i := 0;
    while i < |cs|
      invariant 0 <= i <= |cs|
      invariant Fold(step, (s0, Board(8, 8)), cs[..i]) == Ok((ctx.Snapshot(), board))
    {
      ghost var before := ctx.Snapshot();
      var next := ChessChildStep(cs[i], ctx, order, board);
      if next.Err? {
        FoldStopsAt(step, (s0, Board(8, 8)), cs, i, (before, board));
        return Err(next.msg);
      }
      FoldStep(step, (s0, Board(8, 8)), cs, i, (before, board));
      board := next.value;
      i := i + 1;
    }
    FoldDone((s0, Board(8, 8)), step, cs);
    ctx.SetProblemType(Some(Chess));
    ctx.SetBoardHeight(board.height);
    ctx.SetBoardWidth(board.width);
    ctx.SetAdditionalParam("boardHeight", IntV(board.height));
    ctx.SetAdditionalParam("boardWidth", IntV(board.width));
    r := Ok(());
  }

  // ---------------------------------------------------------------- NUMBERS

  /** `getOrderText`: the Russian adjective for a known order name, in any letter case;
      any other name is returned as it was given. */
  function GetOrderText(order: string): (r: string)
    ensures var u := ToUpper(order);
      (u == "ASCENDING" || u == "ASC" ==> r == "возрастающем")
      && (u == "DESCENDING" || u == "DESC" ==> r == "убывающем")
      && (u == "NON_DECREASING" ==> r == "неубывающем")
      && (u == "NON_INCREASING" ==> r == "невозрастающем")
      && (!IsOrderName(u) ==> r == order)
  {
    var u := ToUpper(order);
    if u == "ASCENDING" || u == "ASC" then "возрастающем"
    else if u == "DESCENDING" || u == "DESC" then "убывающем"
    else if u == "NON_DECREASING" then "неубывающем"
    else if u == "NON_INCREASING" then "невозрастающем"
    else order
  }

  predicate IsOrderName(u: string) {
    u == "ASCENDING" || u == "ASC" || u == "DESCENDING" || u == "DESC"
    || u == "NON_DECREASING" || u == "NON_INCREASING"
  }

  /** Two spellings of a known order name that differ only in letter case read alike. */
  lemma OrderTextIgnoresCase(a: string, b: string)
    requires EqualsIgnoreCase(a, b) && IsOrderName(ToUpper(a))
    ensures GetOrderText(a) == GetOrderText(b)
  {
  }

  /** `formatPositions`: the positions written one after the other. */
  function FormatPositions(positions: seq<string>): (r: string)
    ensures |positions| == 1 ==> r == positions[0]
  {
    Join(positions, "")
  }

  /** Positions that are one character each (the digits `1`, `2`, ...) give a text with
      one character per position, in order. */
  lemma {:induction false} FormatSingleCharacters(positions: seq<string>)
    requires forall i :: 0 <= i < |positions| ==> |positions[i]| == 1
    ensures var r := FormatPositions(positions);
      |r| == |positions| && forall i :: 0 <= i < |r| ==> r[i] == positions[i][0]
    decreases |positions|
  {
    if |positions| > 1 {
      FormatSingleCharacters(positions[1..]);
      var r := FormatPositions(positions);
      assert r == positions[0] + "" + FormatPositions(positions[1..]);
      forall i | 0 < i < |r| ensures r[i] == positions[i][0] {
        assert positions[1..][i - 1] == positions[i];
      }
    }
  }

  /** The locals of `interpretNumbersDeclaration`. */
  datatype NumbersLocals = NumbersLocals(
    digits: int, maxDigit: int,
    firstNotZero: bool, distinct: bool, adjacentDifferent: bool,
    order: Option<string>,
    compareLeft: seq<string>, compareRight: seq<string>, compareOperator: Option<string>)

  /** Their initial values: 3 digits from 0 to 9, no flag, no order, no comparison. */
  const NumbersStart := NumbersLocals(3, 9, false, false, false, None, [], [], None)

  /** One child of a NUMBERS declaration. A flag is set by the child's presence, whatever
      value it carries; SUM_LEFT and SUM_RIGHT are COMPARE_LEFT and COMPARE_RIGHT under
      another name, and SUM_OPERATOR means `=`. */
  function NumbersChild(run: (State, NumbersLocals), c: Node): Result<(State, NumbersLocals)> {
    var s := run.0;
    var l := run.1;
    if c.kind == "DIGITS" then
      var n :- AsInt(c.value);
      Ok((s.(digits := n, params := s.params["digits" := IntV(n)]), l.(digits := n)))
    else if c.kind == "MAX_DIGIT" then
      var n :- AsInt(c.value);
      Ok((s.(params := s.params["maxDigit" := IntV(n)]), l.(maxDigit := n)))
    else if c.kind == "FIRST_NOT_ZERO" then
      Ok((s.(params := s.params["firstNotZero" := BoolV(true)]), l.(firstNotZero := true)))
    else if c.kind == "DISTINCT" then
      Ok((s.(params := s.params["distinct" := BoolV(true)]), l.(distinct := true)))
    else if c.kind == "ADJACENT_DIFFERENT" then
      Ok((s.(params := s.params["adjacentDifferent" := BoolV(true)]), l.(adjacentDifferent := true)))
    else if c.kind == "ORDER" then
      var t :- AsString(c.value);
      Ok((s.(params := s.params["order" := StrParam(t)]), l.(order := t)))
    else if c.kind == "COMPARE_LEFT" || c.kind == "SUM_LEFT" then
      var xs :- AsList(c.value);
      Ok((s.(params := s.params["compareLeft" := ListV(xs)]), l.(compareLeft := xs)))
    else if c.kind == "COMPARE_OPERATOR" then
      var t :- AsString(c.value);
      Ok((s.(params := s.params["compareOperator" := StrParam(t)]), l.(compareOperator := t)))
    else if c.kind == "COMPARE_RIGHT" || c.kind == "SUM_RIGHT" then
      var xs :- AsList(c.value);
      Ok((s.(params := s.params["compareRight" := ListV(xs)]), l.(compareRight := xs)))
    else if c.kind == "SUM_OPERATOR" then
      Ok((s.(params := s.params["compareOperator" := StrV("=")]), l.(compareOperator := Some("="))))
    else Ok(run)
  }

  /** The description of a NUMBERS problem: the digit count and range, then the clauses
      first digit, all distinct, adjacent distinct, order and the comparison of position
      sums, each only when it applies and always in that order. */
  function NumbersDescription(l: NumbersLocals): string {
    NumbersHead(l) + FirstNotZeroClause(l) + DistinctClause(l) + AdjacentClause(l)
    + OrderClause(l) + CompareClause(l)
  }

  function NumbersHead(l: NumbersLocals): string {
    "Найти все наборы из " + IntToString(l.digits) + " цифр"
    + " (цифры от 0 до " + IntToString(l.maxDigit) + ")"
  }

  function FirstNotZeroClause(l: NumbersLocals): string {
    if l.firstNotZero then ", первая цифра ≠ 0" else ""
  }

  function DistinctClause(l: NumbersLocals): string {
    if l.distinct then ", все цифры различны" else ""
  }

  function AdjacentClause(l: NumbersLocals): string {
    if l.adjacentDifferent then ", соседние цифры различны" else ""
  }

  function OrderClause(l: NumbersLocals): string {
    if l.order.Some? then ", цифры в " + GetOrderText(l.order.value) + " порядке" else ""
  }

  /** The comparison of position sums, only when both sides and the operator are there. */
  function CompareClause(l: NumbersLocals): string {
    if |l.compareLeft| > 0 && |l.compareRight| > 0 && l.compareOperator.Some? then
      ", где сумма " + FormatPositions(l.compareLeft) + " " + l.compareOperator.value
      + " сумма " + FormatPositions(l.compareRight)
    else ""
  }

  /** `interpretNumbersDeclaration`: the loop, then the description and the type NUMBERS. */
  function NumbersDeclaration(s: State, n: Node): Result<State> {
    var run :- Fold(NumbersChild, (s, NumbersStart), n.children);
    var (t, l) := run;
    Ok(t.(problemType := Some(Numbers), params := t.params["description" := StrV(NumbersDescription(l))]))
  }

  /** What one child does to the locals alone. */
  function NumbersLocalsAfter(l: NumbersLocals, c: Node): NumbersLocals {
    if c.kind == "DIGITS" then l.(digits := IntegerOf(c.value).GetOr(l.digits))
    else if c.kind == "MAX_DIGIT" then l.(maxDigit := IntegerOf(c.value).GetOr(l.maxDigit))
    else if c.kind == "FIRST_NOT_ZERO" then l.(firstNotZero := true)
    else if c.kind == "DISTINCT" then l.(distinct := true)
    else if c.kind == "ADJACENT_DIFFERENT" then l.(adjacentDifferent := true)
    else if c.kind == "ORDER" then l.(order := TextOf(c.value))
    else l
  }

  lemma NumbersChildLocals(run: (State, NumbersLocals), c: Node)
    requires NumbersChild(run, c).Ok?
    ensures var l := NumbersChild(run, c).value.1;
      var m := NumbersLocalsAfter(run.1, c);
      l.digits == m.digits && l.maxDigit == m.maxDigit && l.order == m.order
      && l.firstNotZero == m.firstNotZero && l.distinct == m.distinct
      && l.adjacentDifferent == m.adjacentDifferent
  {
    if c.kind == "DIGITS" {
    } else if c.kind == "MAX_DIGIT" {
    } else if c.kind == "FIRST_NOT_ZERO" {
    } else if c.kind == "DISTINCT" {
    } else if c.kind == "ADJACENT_DIFFERENT" {
    } else if c.kind == "ORDER" {
    } else {
      assert NumbersLocalsAfter(run.1, c) == run.1;
    }
  }

  /** The loop keeps the last digit count (3 when none is given), the last maximum digit
      (9 when none is given) and the last order, and a flag is on exactly when a child of
      its kind is present. */
  lemma {:induction false} NumbersLocalsAreLast(s: State, cs: seq<Node>)
    ensures var r := Fold(NumbersChild, (s, NumbersStart), cs);
      r.Ok? ==>
        var l := r.value.1;
        l.digits == LastInteger(cs, "DIGITS").GetOr(3)
        && l.maxDigit == LastInteger(cs, "MAX_DIGIT").GetOr(9)
        && l.order == LastText(cs, "ORDER")
        && (l.firstNotZero <==> HasKind(cs, "FIRST_NOT_ZERO"))
        && (l.distinct <==> HasKind(cs, "DISTINCT"))
        && (l.adjacentDifferent <==> HasKind(cs, "ADJACENT_DIFFERENT"))
    decreases |cs|
  {
    if |cs| > 0 {
      var init := cs[..|cs| - 1];
      var last := cs[|cs| - 1];
      NumbersLocalsAreLast(s, init);
      var r0 := Fold(NumbersChild, (s, NumbersStart), init);
      if r0.Ok? {
        assert Fold(NumbersChild, (s, NumbersStart), cs) == NumbersChild(r0.value, last);
        if NumbersChild(r0.value, last).Ok? {
          NumbersChildLocals(r0.value, last);
          LastSnoc(cs, "DIGITS");
          LastSnoc(cs, "MAX_DIGIT");
          LastSnoc(cs, "ORDER");
          HasKindSnoc(cs, "FIRST_NOT_ZERO");
          HasKindSnoc(cs, "DISTINCT");
          HasKindSnoc(cs, "ADJACENT_DIFFERENT");
        }
      }
    }
  }

  /** After a NUMBERS declaration the type is NUMBERS and its description starts with the
      last digit count given (3 by default) and the last maximum digit given (9 by
      default); the first-digit clause appears exactly when a FIRST_NOT_ZERO child is
      present. */
  lemma NumbersDefaults(s: State, n: Node)
    requires NumbersDeclaration(s, n).Ok?
    ensures var t := NumbersDeclaration(s, n).value;
      var cs := n.children;
      exists l: NumbersLocals ::
        t.problemType == Some(Numbers)
        && t.params["description"] == StrV(NumbersDescription(l))
        && l.digits == LastInteger(cs, "DIGITS").GetOr(3)
        && l.maxDigit == LastInteger(cs, "MAX_DIGIT").GetOr(9)
        && (l.firstNotZero <==> HasKind(cs, "FIRST_NOT_ZERO"))
        && (l.distinct <==> HasKind(cs, "DISTINCT"))
        && (l.adjacentDifferent <==> HasKind(cs, "ADJACENT_DIFFERENT"))
        && l.order == LastText(cs, "ORDER")
  {
    NumbersLocalsAreLast(s, n.children);
    var run := Fold(NumbersChild, (s, NumbersStart), n.children).value;
    assert NumbersDeclaration(s, n).value.params["description"] == StrV(NumbersDescription(run.1));
  }

  method NumbersChildStep(child: Node, ctx: ProblemContext, l: NumbersLocals) returns (r: Result<NumbersLocals>)
    modifies ctx
    ensures StepReaches(r, ctx.Snapshot(), NumbersChild((old(ctx.Snapshot()), l), child))
  {
    r := Ok(l);
    if child.kind == "DIGITS" {
      var digits := AsInt(child.value);
      if digits.Err? {
        return Err(digits.msg);
      }
      ctx.SetDigits(digits.value);
      ctx.SetAdditionalParam("digits", IntV(digits.value));
      r := Ok(l.(digits := digits.value));
    } else if child.kind == "MAX_DIGIT" {
      var maxDigit := AsInt(child.value);
      if maxDigit.Err? {
        return Err(maxDigit.msg);
      }
      ctx.SetAdditionalParam("maxDigit", IntV(maxDigit.value));
      r := Ok(l.(maxDigit := maxDigit.value));
    } else if child.kind == "FIRST_NOT_ZERO" {
      ctx.SetAdditionalParam("firstNotZero", BoolV(true));
      r := Ok(l.(firstNotZero := true));
    } else if child.kind == "DISTINCT" {
      ctx.SetAdditionalParam("distinct", BoolV(true));
      r := Ok(l.(distinct := true));
    } else if child.kind == "ADJACENT_DIFFERENT" {
      ctx.SetAdditionalParam("adjacentDifferent", BoolV(true));
      r := Ok(l.(adjacentDifferent := true));
    } else if child.kind == "ORDER" {
      var order := AsString(child.value);
      if order.Err? {
        return Err(order.msg);
      }
      ctx.SetAdditionalParam("order", StrParam(order.value));
      r := Ok(l.(order := order.value));
    } else if child.kind == "COMPARE_LEFT" || child.kind == "SUM_LEFT" {
      var compareLeft := AsList(child.value);
      if compareLeft.Err? {
        return Err(compareLeft.msg);
      }
      ctx.SetAdditionalParam("compareLeft", ListV(compareLeft.value));
      r := Ok(l.(compareLeft := compareLeft.value));
    } else if child.kind == "COMPARE_OPERATOR" {
      var compareOperator := AsString(child.value);
      if compareOperator.Err? {
        return Err(compareOperator.msg);
      }
      ctx.SetAdditionalParam("compareOperator", StrParam(compareOperator.value));
      r := Ok(l.(compareOperator := compareOperator.value));
    } else if child.kind == "COMPARE_RIGHT" || child.kind == "SUM_RIGHT" {
      var compareRight := AsList(child.value);
      if compareRight.Err? {
        return Err(compareRight.msg);
      }
      ctx.SetAdditionalParam("compareRight", ListV(compareRight.value));
      r := Ok(l.(compareRight := compareRight.value));
    } else if child.kind == "SUM_OPERATOR" {
      ctx.SetAdditionalParam("compareOperator", StrV("="));
      r := Ok(l.(compareOperator := Some("=")));
    }
  }

  /** The description, appended clause by clause. */
  method BuildNumbersDescription(l: NumbersLocals) returns (description: string)
    ensures description == NumbersDescription(l)
  {
    description := "Найти все наборы из " + IntToString(l.digits) + " цифр";
    description := description + " (цифры от 0 до " + IntToString(l.maxDigit) + ")";
    ghost var d := description;
    if l.firstNotZero {
      description := description + ", первая цифра ≠ 0";
    }
    assert description == d + FirstNotZeroClause(l);
    d := description;
    if l.distinct {
      description := description + ", все цифры различны";
    }
    assert description == d + DistinctClause(l);
    d := description;
    if l.adjacentDifferent {
      description := description + ", соседние цифры различны";
    }
    assert description == d + AdjacentClause(l);
    d := description;
    if l.order.Some? {
      var orderText := GetOrderText(l.order.value);
      description := description + (", цифры в " + orderText + " порядке");
    }
    assert description == d + OrderClause(l);
    d := description;
    if |l.compareLeft| > 0 && |l.compareRight| > 0 && l.compareOperator.Some? {
      description := description + (", где сумма " + FormatPositions(l.compareLeft)
        + " " + l.compareOperator.value + " сумма " + FormatPositions(l.compareRight));
    }
    assert description == d + CompareClause(l);
  }

  /** `interpretNumbersDeclaration`. */
  method InterpretNumbersDeclaration(node: Node, ctx: ProblemContext) returns (r: Result<()>)
    modifies ctx
    ensures Reaches(r, ctx.Snapshot(), NumbersDeclaration(old(ctx.Snapshot()), node))
  {
    ghost var s0 := ctx.Snapshot();
    var cs := node.children;
    var l := NumbersStart;
    var i := 0;
    while i < |cs|
      invariant 0 <= i <= |cs|
      invariant Fold(NumbersChild, (s0, NumbersStart), cs[..i]) == Ok((ctx.Snapshot(), l))
    {
      ghost var before := ctx.Snapshot();
      var next := NumbersChildStep(cs[i], ctx, l);
      if next.Err? {
        FoldStopsAt(NumbersChild, (s0, NumbersStart), cs, i, (before, l));
        return Err(next.msg);
      }
      FoldStep(NumbersChild, (s0, NumbersStart), cs, i, (before, l));
      l := next.value;
      i := i + 1;
    }
    FoldDone((s0, NumbersStart), NumbersChild, cs);
    var description := BuildNumbersDescription(l);
    ctx.SetAdditionalParam("description", StrV(description));
    ctx.SetProblemType(Some(Numbers));
    r := Ok(());
  }

  // ---------------------------------------------------------------- BALLS

  /** Some child satisfies `p`. */
  predicate AnyChild(cs: seq<Node>, p: Node -> bool) {
    exists i :: 0 <= i < |cs| && p(cs[i])
  }

  lemma AnyChildSnoc(cs: seq<Node>, p: Node -> bool)
    requires |cs| > 0
    ensures AnyChild(cs, p) <==> AnyChild(cs[..|cs| - 1], p) || p(cs[|cs| - 1])
  {
    var init := cs[..|cs| - 1];
    if AnyChild(init, p) {
      var i :| 0 <= i < |init| && p(init[i]);
      assert cs[i] == init[i];
    }
    if AnyChild(cs, p) && !p(cs[|cs| - 1]) {
      var i :| 0 <= i < |cs| && p(cs[i]);
      assert init[i] == cs[i];
    }
  }

  /** A URN_CONTENTS child that names at least one colour. */
  predicate FillsUrn(c: Node) {
    c.kind == "URN_CONTENTS" && c.value.MapV? && |c.value.m| > 0
  }

  /** A DRAW_BALLS child whose value is a map, or a DRAW_COUNT child. */
  predicate SetsDraw(c: Node) {
    (c.kind == "DRAW_BALLS" && c.value.MapV?) || c.kind == "DRAW_COUNT"
  }

  /** The locals of `interpretBallsDeclaration`. */
  datatype BallsLocals = BallsLocals(urn: map<string, int>, draw: map<string, int>, sequential: bool, drawCount: int)

  const BallsStart := BallsLocals(map[], map[], true, 1)

  /** The loop over a map's entries that stores each count under `prefix` followed by the
      colour in lower case; entries are taken in the order `ks`, so of two colours that
      differ only in case the later one stays. */
  function PutCounts(p: map<string, Value>, prefix: string, m: map<string, int>, ks: seq<string>): map<string, Value>
    requires forall i :: 0 <= i < |ks| ==> ks[i] in m
    decreases |ks|
  {
    if |ks| == 0 then p
    else PutCounts(p, prefix, m, ks[..|ks| - 1])[prefix + ToLower(ks[|ks| - 1]) := IntV(m[ks[|ks| - 1]])]
  }

  /** One more colour of the loop writes one more key. */
  lemma PutCountsSnoc(p: map<string, Value>, prefix: string, m: map<string, int>, ks: seq<string>, i: nat)
    requires forall j :: 0 <= j < |ks| ==> ks[j] in m
    requires i < |ks|
    ensures PutCounts(p, prefix, m, ks[..i + 1])
            == PutCounts(p, prefix, m, ks[..i])[prefix + ToLower(ks[i]) := IntV(m[ks[i]])]
  {
    assert ks[..i + 1][..i] == ks[..i];
  }

  /** A key the loop writes holds the count of the colour it came from, when no other
      colour of `ks` has the same lower case. */
  lemma {:induction false} PutCountsAt(p: map<string, Value>, prefix: string, m: map<string, int>, ks: seq<string>, i: nat)
    requires forall j :: 0 <= j < |ks| ==> ks[j] in m
    requires i < |ks|
    requires forall j :: 0 <= j < |ks| && j != i ==> ToLower(ks[j]) != ToLower(ks[i])
    ensures prefix + ToLower(ks[i]) in PutCounts(p, prefix, m, ks)
    ensures PutCounts(p, prefix, m, ks)[prefix + ToLower(ks[i])] == IntV(m[ks[i]])
    decreases |ks|
  {
    var n := |ks| - 1;
    if i < n {
      PutCountsAt(p, prefix, m, ks[..n], i);
      PrefixCancels(prefix, ToLower(ks[n]), ToLower(ks[i]));
    }
  }

  lemma PrefixCancels(prefix: string, a: string, b: string)
    ensures prefix + a == prefix + b ==> a == b
  {
    if prefix + a == prefix + b {
      assert a == (prefix + a)[|prefix|..];
      assert b == (prefix + b)[|prefix|..];
    }
  }

  /** What a map of urn contents writes: the counts, the text and the `int` total. */
  function UrnUpdate(s: State, m: map<string, int>, ks: seq<string>): State
    requires IsKeyOrder(m, ks)
  {
    s.(params := PutCounts(s.params, "ball_", m, ks)["contents" := StrV(EntriesText(m, ks, " "))]
                   ["totalBalls" := IntV(IntSum(m, ks))])
  }

  /** What a map of drawn balls writes: the counts, the text and the `int` total as the
      draw count. */
  function DrawUpdate(s: State, m: map<string, int>, ks: seq<string>): State
    requires IsKeyOrder(m, ks)
  {
    s.(params := PutCounts(s.params, "draw_", m, ks)["draw_balls" := StrV(EntriesText(m, ks, " "))]
                   ["drawCount" := IntV(IntSum(m, ks))])
  }

  /** One child of a BALLS declaration; a map value of the wrong class is skipped by the
      `instanceof` test, a draw type or draw count of the wrong class throws. */
  function BallsChild(order: KeyOrder, run: (State, BallsLocals), c: Node): Result<(State, BallsLocals)> {
    var s := run.0;
    var l := run.1;
    if c.kind == "URN_CONTENTS" then
      if c.value.MapV? then
        var m := c.value.m;
        Ok((UrnUpdate(s, m, order(m)), l.(urn := l.urn + m)))
      else Ok(run)
    else if c.kind == "DRAW_BALLS" then
      if c.value.MapV? then
        var m := c.value.m;
        Ok((DrawUpdate(s, m, order(m)), l.(draw := l.draw + m, drawCount := IntSum(m, order(m)))))
      else Ok(run)
    else if c.kind == "DRAW_TYPE" then
      var b :- AsBool(c.value);
      Ok((s.(params := s.params["drawType" := StrV(if b then "SEQUENTIAL" else "SIMULTANEOUS")]), l.(sequential := b)))
    else if c.kind == "DRAW_COUNT" then
      var n :- AsInt(c.value);
      Ok((s.(params := s.params["drawCount" := IntV(n)]), l.(drawCount := n)))
    else Ok(run)
  }

  function BallsStep(order: KeyOrder): ((State, BallsLocals), Node) -> Result<(State, BallsLocals)> {
    (run, c) => BallsChild(order, run, c)
  }

  /** The balls drawn when none were named and the draw count is positive: one red, one
      blue from two on, one green from three on. */
  function DefaultDraw(drawCount: int): (m: map<string, int>)
    requires drawCount > 0
    ensures m.Keys == {"RED"} + (if drawCount > 1 then {"BLUE"} else {}) + (if drawCount > 2 then {"GREEN"} else {})
    ensures forall k :: k in m ==> m[k] == 1
  {
    var red := map["RED" := if 1 < drawCount then 1 else drawCount];
    var blue := if drawCount > 1 then red["BLUE" := 1] else red;
    if drawCount > 2 then blue["GREEN" := 1] else blue
  }

  /** The urn used when none was named. */
  const DefaultUrn: map<string, int> := map["RED" := 3, "BLUE" := 5, "GREEN" := 2, "WHITE" := 1, "BLACK" := 4]

  /** The default draw, written when no ball was drawn by name and the draw count is
      positive. */
  function DrawDefaults(order: KeyOrder, p: map<string, Value>, l: BallsLocals): map<string, Value> {
    if |l.draw| == 0 && l.drawCount > 0 then
      var d := DefaultDraw(l.drawCount);
      p["draw_balls" := StrV(EntriesText(d, order(d), " "))]
    else p
  }

  /** The default urn, written when the urn is still empty. */
  function UrnDefaults(order: KeyOrder, p: map<string, Value>, l: BallsLocals): map<string, Value> {
    if |l.urn| == 0 then
      var ks := order(DefaultUrn);
      PutCounts(p, "ball_", DefaultUrn, ks)["contents" := StrV(EntriesText(DefaultUrn, ks, " "))]
    else p
  }

  /** After the loop: the default draw, the default urn, and the type BALLS_AND_URNS. */
  function BallsFinish(order: KeyOrder, s: State, l: BallsLocals): State {
    s.(params := UrnDefaults(order, DrawDefaults(order, s.params, l), l), problemType := Some(BallsAndUrns))
  }

  /** `interpretBallsDeclaration`. */
  function BallsDeclaration(order: KeyOrder, s: State, n: Node): Result<State> {
    var run :- Fold(BallsStep(order), (s, BallsStart), n.children);
    Ok(BallsFinish(order, run.0, run.1))
  }

  lemma UnionEmpty(a: map<string, int>, b: map<string, int>)
    ensures |a + b| == 0 <==> |a| == 0 && |b| == 0
  {
    if |a| > 0 {
      var k :| k in a;
      assert k in a + b;
    } else if |b| > 0 {
      var k :| k in b;
      assert k in a + b;
    } else {
      assert a == map[] && b == map[];
      assert a + b == map[];
    }
  }

  /** What one child does to the urn, the draw and the draw count. */
  lemma BallsChildLocals(order: KeyOrder, run: (State, BallsLocals), c: Node)
    requires BallsChild(order, run, c).Ok?
    ensures var l := BallsChild(order, run, c).value.1;
      (|l.urn| == 0 <==> |run.1.urn| == 0 && !FillsUrn(c))
      && (!SetsDraw(c) ==> l.draw == run.1.draw && l.drawCount == run.1.drawCount)
  {
    if c.kind == "URN_CONTENTS" {
      if c.value.MapV? {
        UnionEmpty(run.1.urn, c.value.m);
      }
    } else if c.kind == "DRAW_BALLS" {
    } else if c.kind == "DRAW_TYPE" {
    } else if c.kind == "DRAW_COUNT" {
    } else {
      assert BallsChild(order, run, c) == Ok(run);
    }
  }

  /** After the loop the urn is empty exactly when no child named a colour for it, and
      with no draw map and no draw count the draw is empty and its count is 1. */
  lemma {:induction false} BallsLocalsFacts(order: KeyOrder, s: State, cs: seq<Node>)
    ensures var r := Fold(BallsStep(order), (s, BallsStart), cs);
      r.Ok? ==>
        (|r.value.1.urn| == 0 <==> !AnyChild(cs, FillsUrn))
        && (!AnyChild(cs, SetsDraw) ==> |r.value.1.draw| == 0 && r.value.1.drawCount == 1)
    decreases |cs|
  {
    if |cs| > 0 {
      var init := cs[..|cs| - 1];
      var last := cs[|cs| - 1];
      BallsLocalsFacts(order, s, init);
      var r0 := Fold(BallsStep(order), (s, BallsStart), init);
      if r0.Ok? {
        assert Fold(BallsStep(order), (s, BallsStart), cs) == BallsChild(order, r0.value, last);
        if BallsChild(order, r0.value, last).Ok? {
          BallsChildLocals(order, r0.value, last);
          AnyChildSnoc(cs, FillsUrn);
          AnyChildSnoc(cs, SetsDraw);
        }
      }
    } else {
      assert |BallsStart.urn| == 0;
    }
  }

  lemma DefaultUrnLowerCasesDiffer(ks: seq<string>, i: nat)
    requires IsKeyOrder(DefaultUrn, ks) && i < |ks|
    ensures forall j :: 0 <= j < |ks| && j != i ==> ToLower(ks[j]) != ToLower(ks[i])
  {
    forall j | 0 <= j < |ks| && j != i
      ensures ToLower(ks[j]) != ToLower(ks[i])
    {
      var a, b := ks[j], ks[i];
      assert a != b;
      if |a| == |b| && |a| == 5 {
        assert ToLower(a)[0] == LowerChar(a[0]) && ToLower(b)[0] == LowerChar(b[0]);
        assert ToLower(a)[2] == LowerChar(a[2]) && ToLower(b)[2] == LowerChar(b[2]);
      }
    }
  }

  /** The parameter `k` holds the integer `v`. */
  predicate Holds(p: map<string, Value>, k: string, v: int) {
    k in p && p[k] == IntV(v)
  }

  /** The loop leaves every key outside its prefix as it was. */
  lemma {:induction false} PutCountsKeeps(p: map<string, Value>, prefix: string, m: map<string, int>, ks: seq<string>, k: string)
    requires forall j :: 0 <= j < |ks| ==> ks[j] in m
    requires !(|prefix| <= |k| && k[..|prefix|] == prefix)
    ensures k in PutCounts(p, prefix, m, ks) <==> k in p
    ensures k in p ==> PutCounts(p, prefix, m, ks)[k] == p[k]
    decreases |ks|
  {
    if |ks| > 0 {
      var w := prefix + ToLower(ks[|ks| - 1]);
      assert w[..|prefix|] == prefix;
      PutCountsKeeps(p, prefix, m, ks[..|ks| - 1], k);
    }
  }

  lemma DefaultUrnCount(p: map<string, Value>, ks: seq<string>, k: string)
    requires IsKeyOrder(DefaultUrn, ks) && k in DefaultUrn
    ensures Holds(PutCounts(p, "ball_", DefaultUrn, ks), "ball_" + ToLower(k), DefaultUrn[k])
  {
    var i :| 0 <= i < |ks| && ks[i] == k;
    DefaultUrnLowerCasesDiffer(ks, i);
    PutCountsAt(p, "ball_", DefaultUrn, ks, i);
  }

  /** The parameter names of the default urn's colours. */
  lemma DefaultUrnNames()
    ensures "ball_" + ToLower("RED") == "ball_red" && "ball_" + ToLower("BLUE") == "ball_blue"
    ensures "ball_" + ToLower("GREEN") == "ball_green" && "ball_" + ToLower("WHITE") == "ball_white"
    ensures "ball_" + ToLower("BLACK") == "ball_black"
  {
    assert ToLower("RED") == "red";
    assert ToLower("BLUE") == "blue";
    assert ToLower("GREEN") == "green";
    assert ToLower("WHITE") == "white";
    assert ToLower("BLACK") == "black";
  }

  /** The default urn, written in any order, gives red 3, blue 5, green 2, white 1 and
      black 4. */
  lemma DefaultUrnCounts(p: map<string, Value>, ks: seq<string>)
    requires IsKeyOrder(DefaultUrn, ks)
    ensures var q := PutCounts(p, "ball_", DefaultUrn, ks);
      Holds(q, "ball_red", 3) && Holds(q, "ball_blue", 5) && Holds(q, "ball_green", 2)
      && Holds(q, "ball_white", 1) && Holds(q, "ball_black", 4)
  {
    DefaultUrnNames();
    DefaultUrnCount(p, ks, "RED");
    DefaultUrnCount(p, ks, "BLUE");
    DefaultUrnCount(p, ks, "GREEN");
    DefaultUrnCount(p, ks, "WHITE");
    DefaultUrnCount(p, ks, "BLACK");
  }

  /** A map with one key is iterated as that key alone. */
  lemma SingleKeyOrder(m: map<string, int>, k: string, ks: seq<string>)
    requires IsKeyOrder(m, ks) && m.Keys == {k}
    ensures ks == [k]
  {
    assert IsKeyOrder(m, [k]);
    KeyOrdersArePermutations(m, ks, [k]);
    assert |ks| == |multiset(ks)| == 1;
    assert ks[0] in multiset(ks);
  }

  /** The default draw for a count of 1 is one red ball, whatever the iteration order. */
  lemma DefaultDrawOne(ks: seq<string>)
    requires IsKeyOrder(DefaultDraw(1), ks)
    ensures EntriesText(DefaultDraw(1), ks, " ") == "RED 1"
  {
    var d := DefaultDraw(1);
    assert d.Keys == {"RED"};
    assert "RED" in d;
    SingleKeyOrder(d, "RED", ks);
    assert DigitChar(1) == '1';
    assert IntToString(1) == "1";
    assert Entry(d, "RED", " ") == "RED 1";
    assert Entries(d, ks, " ") == ["RED 1"];
  }

  /** After the loop an empty urn is replaced by the default one. */
  lemma FinishDefaultUrn(order: KeyOrder, p: map<string, Value>, l: BallsLocals)
    requires |l.urn| == 0
    ensures var q := UrnDefaults(order, p, l);
      Holds(q, "ball_red", 3) && Holds(q, "ball_blue", 5) && Holds(q, "ball_green", 2)
      && Holds(q, "ball_white", 1) && Holds(q, "ball_black", 4)
      && "contents" in q && q["contents"] == StrV(EntriesText(DefaultUrn, order(DefaultUrn), " "))
  {
    DefaultUrnCounts(p, order(DefaultUrn));
  }

  /** After the loop an empty draw with a count of 1 becomes one red ball, which the
      default urn leaves alone. */
  lemma FinishDefaultDraw(order: KeyOrder, p: map<string, Value>, l: BallsLocals)
    requires |l.draw| == 0 && l.drawCount == 1
    ensures var q := UrnDefaults(order, DrawDefaults(order, p, l), l);
      "draw_balls" in q && q["draw_balls"] == StrV("RED 1")
  {
    DefaultDrawOne(order(DefaultDraw(1)));
    assert "draw_balls"[..5][0] == 'd';
    PutCountsKeeps(DrawDefaults(order, p, l), "ball_", DefaultUrn, order(DefaultUrn), "draw_balls");
  }

  /** A BALLS declaration with no colour named for the urn stores the default urn: red 3,
      blue 5, green 2, white 1, black 4, and its text as the contents. */
  lemma BallsDefaultUrn(order: KeyOrder, s: State, n: Node)
    requires BallsDeclaration(order, s, n).Ok?
    requires !AnyChild(n.children, FillsUrn)
    ensures var p := BallsDeclaration(order, s, n).value.params;
      Holds(p, "ball_red", 3) && Holds(p, "ball_blue", 5) && Holds(p, "ball_green", 2)
      && Holds(p, "ball_white", 1) && Holds(p, "ball_black", 4)
      && "contents" in p && p["contents"] == StrV(EntriesText(DefaultUrn, order(DefaultUrn), " "))
  {
    BallsLocalsFacts(order, s, n.children);
    var run := Fold(BallsStep(order), (s, BallsStart), n.children).value;
    FinishDefaultUrn(order, DrawDefaults(order, run.0.params, run.1), run.1);
  }

  /** A BALLS declaration with no draw map and no draw count draws one red ball. */
  lemma BallsDefaultDraw(order: KeyOrder, s: State, n: Node)
    requires BallsDeclaration(order, s, n).Ok?
    requires !AnyChild(n.children, SetsDraw)
    ensures var p := BallsDeclaration(order, s, n).value.params;
      "draw_balls" in p && p["draw_balls"] == StrV("RED 1")
  {
    BallsLocalsFacts(order, s, n.children);
    var run := Fold(BallsStep(order), (s, BallsStart), n.children).value;
    FinishDefaultDraw(order, run.0.params, run.1);
  }

  /** However the urn map is iterated, its total is the same `int` sum of its counts. */
  lemma UrnTotalAnyOrder(s: State, m: map<string, int>, a: seq<string>, b: seq<string>)
    requires IsKeyOrder(m, a) && IsKeyOrder(m, b)
    ensures UrnUpdate(s, m, a).params["totalBalls"] == UrnUpdate(s, m, b).params["totalBalls"]
    ensures UrnUpdate(s, m, a).params["totalBalls"] == IntV(Wrap32(SumAt(m, a)))
  {
    IntSumAnyOrder(m, a, b);
  }

  /** The loop over a map's entries in `interpretBallsDeclaration`: each count goes to
      the parameters under `prefix` and the colour in lower case, and the entries are
      joined into one text. */
  method PutEntries(ctx: ProblemContext, m: map<string, int>, ks: seq<string>, prefix: string, sep: string)
    returns (text: string)
    requires forall i :: 0 <= i < |ks| ==> ks[i] in m
    modifies ctx
    ensures ctx.Snapshot() == old(ctx.Snapshot()).(params := PutCounts(old(ctx.params), prefix, m, ks))
    ensures text == EntriesText(m, ks, sep)
  {
    ghost var s0 := ctx.Snapshot();
    text := "";
    var i := 0;
    while i < |ks|
      invariant 0 <= i <= |ks|
      invariant ctx.Snapshot() == s0.(params := PutCounts(s0.params, prefix, m, ks[..i]))
      invariant text == EntriesText(m, ks[..i], sep)
    {
      var k := ks[i];
      text := AppendEntry(text, m, ks, i, sep);
      PutCountsSnoc(s0.params, prefix, m, ks, i);
      ctx.SetAdditionalParam(prefix + ToLower(k), IntV(m[k]));
      i := i + 1;
    }
    assert ks[..i] == ks;
  }

  method PutUrn(ctx: ProblemContext, contents: map<string, int>, ks: seq<string>)
    requires IsKeyOrder(contents, ks)
    modifies ctx
    ensures ctx.Snapshot() == UrnUpdate(old(ctx.Snapshot()), contents, ks)
  {
    var contentsStr := PutEntries(ctx, contents, ks, "ball_", " ");
    ctx.SetAdditionalParam("contents", StrV(contentsStr));
    var totalBalls := IntSum(contents, ks);
    ctx.SetAdditionalParam("totalBalls", IntV(totalBalls));
  }

  method PutDraw(ctx: ProblemContext, draw: map<string, int>, ks: seq<string>) returns (totalDraw: int)
    requires IsKeyOrder(draw, ks)
    modifies ctx
    ensures ctx.Snapshot() == DrawUpdate(old(ctx.Snapshot()), draw, ks)
    ensures totalDraw == IntSum(draw, ks)
  {
    var drawStr := PutEntries(ctx, draw, ks, "draw_", " ");
    ctx.SetAdditionalParam("draw_balls", StrV(drawStr));
    totalDraw := IntSum(draw, ks);
    ctx.SetAdditionalParam("drawCount", IntV(totalDraw));
  }

  method BallsChildStep(child: Node, ctx: ProblemContext, order: KeyOrder, l: BallsLocals) returns (r: Result<BallsLocals>)
    modifies ctx
    ensures StepReaches(r, ctx.Snapshot(), BallsChild(order, (old(ctx.Snapshot()), l), child))
  {
    r := Ok(l);
    if child.kind == "URN_CONTENTS" {
      if child.value.MapV? {
        var contents := child.value.m;
        PutUrn(ctx, contents, order(contents));
        r := Ok(l.(urn := l.urn + contents));
      }
    } else if child.kind == "DRAW_BALLS" {
      if child.value.MapV? {
        var draw := child.value.m;
        var totalDraw := PutDraw(ctx, draw, order(draw));
        r := Ok(l.(draw := l.draw + draw, drawCount := totalDraw));
      }
    } else if child.kind == "DRAW_TYPE" {
      var sequential := AsBool(child.value);
      if sequential.Err? {
        return Err(sequential.msg);
      }
      ctx.SetAdditionalParam("drawType", StrV(if sequential.value then "SEQUENTIAL" else "SIMULTANEOUS"));
      r := Ok(l.(sequential := sequential.value));
    } else if child.kind == "DRAW_COUNT" {
      var drawCount := AsInt(child.value);
      if drawCount.Err? {
        return Err(drawCount.msg);
      }
      ctx.SetAdditionalParam("drawCount", IntV(drawCount.value));
      r := Ok(l.(drawCount := drawCount.value));
    }
  }

  /** The default draw of `interpretBallsDeclaration`. */
  method PutDefaultDraw(ctx: ProblemContext, order: KeyOrder, drawCount: int)
    requires drawCount > 0
    modifies ctx
    ensures var d := DefaultDraw(drawCount);
      ctx.Snapshot() == old(ctx.Snapshot()).(params := old(ctx.params)["draw_balls" := StrV(EntriesText(d, order(d), " "))])
  {
    var drawBalls := map["RED" := if 1 < drawCount then 1 else drawCount];
    if drawCount > 1 {
      drawBalls := drawBalls["BLUE" := 1];
    }
    if drawCount > 2 {
      drawBalls := drawBalls["GREEN" := 1];
    }
    assert drawBalls == DefaultDraw(drawCount);
    var drawStr := EntriesString(drawBalls, order(drawBalls), " ");
    ctx.SetAdditionalParam("draw_balls", StrV(drawStr));
  }

  /** The default urn of `interpretBallsDeclaration`. */
  method PutDefaultUrn(ctx: ProblemContext, order: KeyOrder)
    modifies ctx
    ensures var ks := order(DefaultUrn);
      ctx.Snapshot() == old(ctx.Snapshot()).(params := PutCounts(old(ctx.params), "ball_", DefaultUrn, ks)
                                                       ["contents" := StrV(EntriesText(DefaultUrn, ks, " "))])
  {
    var urnContents := map["RED" := 3];
    urnContents := urnContents["BLUE" := 5];
    urnContents := urnContents["GREEN" := 2];
    urnContents := urnContents["WHITE" := 1];
    urnContents := urnContents["BLACK" := 4];
    assert urnContents == DefaultUrn;
    var contentsStr := PutEntries(ctx, urnContents, order(urnContents), "ball_", " ");
    ctx.SetAdditionalParam("contents", StrV(contentsStr));
  }

  method FinishBalls(ctx: ProblemContext, order: KeyOrder, l: BallsLocals)
    modifies ctx
    ensures ctx.Snapshot() == BallsFinish(order, old(ctx.Snapshot()), l)
  {
    if |l.draw| == 0 && l.drawCount > 0 {
      PutDefaultDraw(ctx, order, l.drawCount);
    }
    if |l.urn| == 0 {
      PutDefaultUrn(ctx, order);
    }
    ctx.SetProblemType(Some(BallsAndUrns));
  }

  /** `interpretBallsDeclaration`. */
  method InterpretBallsDeclaration(node: Node, ctx: ProblemContext, order: KeyOrder) returns (r: Result<()>)
    modifies ctx
    ensures Reaches(r, ctx.Snapshot(), BallsDeclaration(order, old(ctx.Snapshot()), node))
  {
    ghost var s0 := ctx.Snapshot();
    ghost var step := BallsStep(order);
    var cs := node.children;
    var l := BallsStart;
    var i := 0;
    while i < |cs|
      invariant 0 <= i <= |cs|
      invariant Fold(step, (s0, BallsStart), cs[..i]) == Ok((ctx.Snapshot(), l))
    {
      ghost var before := ctx.Snapshot();
      var next := BallsChildStep(cs[i], ctx, order, l);
      if next.Err? {
        FoldStopsAt(step, (s0, BallsStart), cs, i, (before, l));
        return Err(next.msg);
      }
      FoldStep(step, (s0, BallsStart), cs, i, (before, l));
      l := next.value;
      i := i + 1;
    }
    FoldDone((s0, BallsStart), step, cs);
    FinishBalls(ctx, order, l);
    r := Ok(());
  }

  // ---------------------------------------------------------------- DIVISIBILITY

  /** The transformation every divisibility problem describes; no child changes it. */
  const Transformation := "увеличивается в целое число раз"

  const DefaultRule := "цифры переставляются"

  /** The locals of `interpretDivisibilityDeclaration`; `None` is Java's `null`. */
  datatype DivLocals = DivLocals(digits: int, rule: Option<string>, factor: int, operationType: Option<string>,
                                 conditions: seq<Option<string>>, positions: seq<Option<string>>,
                                 sequence: Option<string>)

  const DivStart := DivLocals(2, Some(DefaultRule), 2, Some("INCREASE"), [], [], None)

  /** One child of a DIVISIBILITY declaration. */
  function DivChild(run: (State, DivLocals), c: Node): Result<(State, DivLocals)> {
    var s := run.0;
    var l := run.1;
    if c.kind == "DIGITS" then
      var n :- AsInt(c.value);
      Ok((s.(digits := n, params := s.params["digits" := IntV(n)]), l.(digits := n)))
    else if c.kind == "RULE" then
      var t :- AsString(c.value);
      Ok((s.(params := s.params["rule" := StrParam(t)]), l.(rule := t)))
    else if c.kind == "TRANSFORMATION" || c.kind == "TRANSFORMATION_SEQUENCE" then
      var t :- AsString(c.value);
      Ok((s.(params := s.params["transformationSequence" := StrParam(t)]), l.(sequence := t)))
    else if c.kind == "FACTOR" then
      var n :- AsInt(c.value);
      Ok((s.(params := s.params["factor" := IntV(n)]), l.(factor := n)))
    else if c.kind == "OPERATION_TYPE" then
      var t :- AsString(c.value);
      Ok((s.(params := s.params["operationType" := StrParam(t)]), l.(operationType := t)))
    else if c.kind == "CONDITION" then
      var t :- AsString(c.value);
      Ok((s.(generalConditions := s.generalConditions + [t]), l.(conditions := l.conditions + [t])))
    else if c.kind == "DIGIT_POSITION" then
      var t :- AsString(c.value);
      Ok((s, l.(positions := l.positions + [t])))
    else Ok(run)
  }

  /** A string that is present and not empty. */
  predicate Given(t: Option<string>) {
    t.Some? && |t.value| > 0
  }

  /** The description of a DIVISIBILITY problem: the digit count, then the first that
      applies of the transformation sequence, the digit positions and the rule, each
      followed by the transformation, then the conditions when there are any. */
  function DivDescription(l: DivLocals): string {
    "Найти все " + IntToString(l.digits) + "-значные натуральные числа" + DivHow(l) + DivConditions(l)
  }

  function DivHow(l: DivLocals): string {
    if Given(l.sequence) then ", которые при преобразовании " + l.sequence.value + " " + Transformation
    else if |l.positions| > 0 then
      ", которые при изменении цифр по позициям: " + Join(OptTexts(l.positions), " ") + " " + Transformation
    else if Given(l.rule) then ", которые при преобразовании по правилу: " + l.rule.value + " " + Transformation
    else ", которые " + Transformation
  }

  function DivConditions(l: DivLocals): string {
    if |l.conditions| > 0 then " (условия: " + Join(OptTexts(l.conditions), ", ") + ")" else ""
  }

  /** The parameters written after the loop, before the description: the digit
      positions, the transformation sequence once more, the collected values and the
      conditions. */
  function DivSummary(p: map<string, Value>, l: DivLocals): map<string, Value> {
    ConditionsParam(CollectedParams(SequenceParam(PositionsParams(p, l), l), l), l)
  }

  function PositionsParams(p: map<string, Value>, l: DivLocals): map<string, Value> {
    if |l.positions| > 0 then
      p["digitPositions" := ListV(OptTexts(l.positions))]["digitPositionsStr" := StrV(Join(OptTexts(l.positions), ", "))]
    else p
  }

  function SequenceParam(p: map<string, Value>, l: DivLocals): map<string, Value> {
    if Given(l.sequence) then p["transformationSequence" := StrV(l.sequence.value)] else p
  }

  function CollectedParams(p: map<string, Value>, l: DivLocals): map<string, Value> {
    p["digits" := IntV(l.digits)]["rule" := StrParam(l.rule)]["transformation" := StrV(Transformation)]
     ["factor" := IntV(l.factor)]["operationType" := StrParam(l.operationType)]
  }

  function ConditionsParam(p: map<string, Value>, l: DivLocals): map<string, Value> {
    if |l.conditions| > 0 then p["conditions" := StrV(Join(OptTexts(l.conditions), "; "))] else p
  }

  /** `interpretDivisibilityDeclaration`. */
  function DivisibilityDeclaration(s: State, n: Node): Result<State> {
    var run :- Fold(DivChild, (s, DivStart), n.children);
    var t := run.0;
    var l := run.1;
    Ok(t.(params := DivSummary(t.params, l)["description" := StrV(DivDescription(l))],
          problemType := Some(Divisibility)))
  }

  /** The string values of the children of kind `k`, in order; `None` for a null. */
  function TextsOf(cs: seq<Node>, k: string): seq<Option<string>>
    decreases |cs|
  {
    if |cs| == 0 then []
    else TextsOf(cs[..|cs| - 1], k) + (if cs[|cs| - 1].kind == k then [TextOf(cs[|cs| - 1].value)] else [])
  }

  /** The last string value of a kind, `None` for a null, or `d` when no child has it. */
  function LastOr(cs: seq<Node>, k: string, d: Option<string>): Option<string> {
    match LastValue(cs, k)
    case Some(v) => TextOf(v)
    case None => d
  }

  lemma LastOrSnoc(cs: seq<Node>, k: string, d: Option<string>)
    requires |cs| > 0
    ensures LastOr(cs, k, d) == if cs[|cs| - 1].kind == k then TextOf(cs[|cs| - 1].value)
                                else LastOr(cs[..|cs| - 1], k, d)
  {
  }

  /** The last string given by either of the two spellings of the transformation sequence. */
  function LastSequence(cs: seq<Node>): Option<string>
    decreases |cs|
  {
    if |cs| == 0 then None
    else if cs[|cs| - 1].kind == "TRANSFORMATION" || cs[|cs| - 1].kind == "TRANSFORMATION_SEQUENCE" then
      TextOf(cs[|cs| - 1].value)
    else LastSequence(cs[..|cs| - 1])
  }

  /** What one child does to the locals and to the general conditions. */
  lemma DivChildLocals(run: (State, DivLocals), c: Node)
    requires DivChild(run, c).Ok?
    ensures var r := DivChild(run, c).value;
      var l := r.1;
      l.digits == (if c.kind == "DIGITS" then c.value.i else run.1.digits)
      && l.factor == (if c.kind == "FACTOR" then c.value.i else run.1.factor)
      && l.rule == (if c.kind == "RULE" then TextOf(c.value) else run.1.rule)
      && l.operationType == (if c.kind == "OPERATION_TYPE" then TextOf(c.value) else run.1.operationType)
      && l.sequence == (if c.kind == "TRANSFORMATION" || c.kind == "TRANSFORMATION_SEQUENCE" then TextOf(c.value)
                        else run.1.sequence)
      && l.conditions == run.1.conditions + (if c.kind == "CONDITION" then [TextOf(c.value)] else [])
      && l.positions == run.1.positions + (if c.kind == "DIGIT_POSITION" then [TextOf(c.value)] else [])
      && r.0.generalConditions == run.0.generalConditions + (if c.kind == "CONDITION" then [TextOf(c.value)] else [])
  {
    if c.kind == "DIGITS" {
    } else if c.kind == "RULE" {
    } else if c.kind == "TRANSFORMATION" || c.kind == "TRANSFORMATION_SEQUENCE" {
    } else if c.kind == "FACTOR" {
    } else if c.kind == "OPERATION_TYPE" {
    } else if c.kind == "CONDITION" {
    } else if c.kind == "DIGIT_POSITION" {
    } else {
      assert DivChild(run, c) == Ok(run);
    }
  }

  /** After the loop the digit count and the factor are the last ones given (2 by
      default), the rule and the operation type the last ones given or their defaults,
      the transformation sequence the last one given by either spelling, and the
      conditions and the digit positions all those given, in order; the conditions are
      also added to the context's general conditions. */
  /** The digit count, the factor, the rule and the operation type are the last ones
      given, or their defaults. */
  lemma {:induction false} DivNumbersAreLast(s: State, cs: seq<Node>)
    ensures var r := Fold(DivChild, (s, DivStart), cs);
      r.Ok? ==>
        var l := r.value.1;
        l.digits == LastInteger(cs, "DIGITS").GetOr(2)
        && l.factor == LastInteger(cs, "FACTOR").GetOr(2)
        && l.rule == LastOr(cs, "RULE", Some(DefaultRule))
        && l.operationType == LastOr(cs, "OPERATION_TYPE", Some("INCREASE"))
    decreases |cs|
  {
    if |cs| > 0 {
      var init := cs[..|cs| - 1];
      var last := cs[|cs| - 1];
      DivNumbersAreLast(s, init);
      var r0 := Fold(DivChild, (s, DivStart), init);
      if r0.Ok? {
        assert Fold(DivChild, (s, DivStart), cs) == DivChild(r0.value, last);
        if DivChild(r0.value, last).Ok? {
          DivChildLocals(r0.value, last);
          LastSnoc(cs, "DIGITS");
          LastSnoc(cs, "FACTOR");
          LastOrSnoc(cs, "RULE", Some(DefaultRule));
          LastOrSnoc(cs, "OPERATION_TYPE", Some("INCREASE"));
        }
      }
    }
  }

  /** The transformation sequence is the last one given; the conditions and the digit
      positions are all those given, in order, and the conditions are also added to the
      general conditions. */
  lemma {:induction false} DivTextsAreLast(s: State, cs: seq<Node>)
    ensures var r := Fold(DivChild, (s, DivStart), cs);
      r.Ok? ==>
        var l := r.value.1;
        l.sequence == LastSequence(cs)
        && l.conditions == TextsOf(cs, "CONDITION")
        && l.positions == TextsOf(cs, "DIGIT_POSITION")
        && r.value.0.generalConditions == s.generalConditions + TextsOf(cs, "CONDITION")
    decreases |cs|
  {
    if |cs| > 0 {
      var init := cs[..|cs| - 1];
      var last := cs[|cs| - 1];
      DivTextsAreLast(s, init);
      var r0 := Fold(DivChild, (s, DivStart), init);
      if r0.Ok? {
        assert Fold(DivChild, (s, DivStart), cs) == DivChild(r0.value, last);
        if DivChild(r0.value, last).Ok? {
          DivChildLocals(r0.value, last);
        }
      }
    }
  }

  lemma DivLocalsAreLast(s: State, cs: seq<Node>)
    ensures var r := Fold(DivChild, (s, DivStart), cs);
      r.Ok? ==>
        var l := r.value.1;
        l.digits == LastInteger(cs, "DIGITS").GetOr(2)
        && l.factor == LastInteger(cs, "FACTOR").GetOr(2)
        && l.rule == LastOr(cs, "RULE", Some(DefaultRule))
        && l.operationType == LastOr(cs, "OPERATION_TYPE", Some("INCREASE"))
        && l.sequence == LastSequence(cs)
        && l.conditions == TextsOf(cs, "CONDITION")
        && l.positions == TextsOf(cs, "DIGIT_POSITION")
        && r.value.0.generalConditions == s.generalConditions + TextsOf(cs, "CONDITION")
  {
    DivNumbersAreLast(s, cs);
    DivTextsAreLast(s, cs);
  }

  /** After a DIVISIBILITY declaration the type is DIVISIBILITY, the digit count and the
      factor are the last ones given (2 by default) in both the parameters and the
      description, the transformation parameter is always the fixed one, and every
      condition is added to the general conditions. */
  lemma DivisibilityFacts(s: State, n: Node)
    requires DivisibilityDeclaration(s, n).Ok?
    ensures var t := DivisibilityDeclaration(s, n).value;
      var cs := n.children;
      exists l: DivLocals ::
        t.problemType == Some(Divisibility)
        && t.params["description"] == StrV(DivDescription(l))
        && t.params["digits"] == IntV(l.digits) && t.params["factor"] == IntV(l.factor)
        && t.params["transformation"] == StrV(Transformation)
        && l.digits == LastInteger(cs, "DIGITS").GetOr(2)
        && l.factor == LastInteger(cs, "FACTOR").GetOr(2)
        && l.rule == LastOr(cs, "RULE", Some(DefaultRule))
        && l.sequence == LastSequence(cs)
        && l.conditions == TextsOf(cs, "CONDITION")
        && l.positions == TextsOf(cs, "DIGIT_POSITION")
        && t.generalConditions == s.generalConditions + l.conditions
  {
    var cs := n.children;
    DivLocalsAreLast(s, cs);
    var run := Fold(DivChild, (s, DivStart), cs).value;
    var l := run.1;
    var t := DivisibilityDeclaration(s, n).value;
    var q := DivSummary(run.0.params, l);
    assert t.params == q["description" := StrV(DivDescription(l))];
    assert t.problemType == Some(Divisibility) && t.generalConditions == run.0.generalConditions;
    DivSummaryFacts(run.0.params, l);
    assert t.params["digits"] == IntV(l.digits) && t.params["factor"] == IntV(l.factor);
    assert t.params["transformation"] == StrV(Transformation);
    assert t.params["description"] == StrV(DivDescription(l));
  }

  lemma DivSummaryFacts(p: map<string, Value>, l: DivLocals)
    ensures var q := DivSummary(p, l);
      "digits" in q && q["digits"] == IntV(l.digits) && "factor" in q && q["factor"] == IntV(l.factor)
      && "transformation" in q && q["transformation"] == StrV(Transformation)
  {
  }

  method DivChildStep(child: Node, ctx: ProblemContext, l: DivLocals) returns (r: Result<DivLocals>)
    modifies ctx
    ensures StepReaches(r, ctx.Snapshot(), DivChild((old(ctx.Snapshot()), l), child))
  {
    r := Ok(l);
    if child.kind == "DIGITS" {
      var digits := AsInt(child.value);
      if digits.Err? {
        return Err(digits.msg);
      }
      ctx.SetDigits(digits.value);
      ctx.SetAdditionalParam("digits", IntV(digits.value));
      r := Ok(l.(digits := digits.value));
    } else if child.kind == "RULE" {
      var rule := AsString(child.value);
      if rule.Err? {
        return Err(rule.msg);
      }
      ctx.SetAdditionalParam("rule", StrParam(rule.value));
      r := Ok(l.(rule := rule.value));
    } else if child.kind == "TRANSFORMATION" || child.kind == "TRANSFORMATION_SEQUENCE" {
      var sequence := AsString(child.value);
      if sequence.Err? {
        return Err(sequence.msg);
      }
      ctx.SetAdditionalParam("transformationSequence", StrParam(sequence.value));
      r := Ok(l.(sequence := sequence.value));
    } else if child.kind == "FACTOR" {
      var factor := AsInt(child.value);
      if factor.Err? {
        return Err(factor.msg);
      }
      ctx.SetAdditionalParam("factor", IntV(factor.value));
      r := Ok(l.(factor := factor.value));
    } else if child.kind == "OPERATION_TYPE" {
      var operationType := AsString(child.value);
      if operationType.Err? {
        return Err(operationType.msg);
      }
      ctx.SetAdditionalParam("operationType", StrParam(operationType.value));
      r := Ok(l.(operationType := operationType.value));
    } else if child.kind == "CONDITION" {
      var condition := AsString(child.value);
      if condition.Err? {
        return Err(condition.msg);
      }
      ctx.AddGeneralCondition(condition.value);
      r := Ok(l.(conditions := l.conditions + [condition.value]));
    } else if child.kind == "DIGIT_POSITION" {
      var digitPos := AsString(child.value);
      if digitPos.Err? {
        return Err(digitPos.msg);
      }
      r := Ok(l.(positions := l.positions + [digitPos.value]));
    }
  }

  /** The parameters `interpretDivisibilityDeclaration` writes after its loop. */
  method PutDivSummary(ctx: ProblemContext, l: DivLocals)
    modifies ctx
    ensures ctx.Snapshot() == old(ctx.Snapshot()).(params := DivSummary(old(ctx.params), l))
  {
    PutPositions(ctx, l);
    PutSequence(ctx, l);
    PutCollected(ctx, l);
    PutConditions(ctx, l);
  }

  method PutPositions(ctx: ProblemContext, l: DivLocals)
    modifies ctx
    ensures ctx.Snapshot() == old(ctx.Snapshot()).(params := PositionsParams(old(ctx.params), l))
  {
    if |l.positions| > 0 {
      ctx.SetAdditionalParam("digitPositions", ListV(OptTexts(l.positions)));
      ctx.SetAdditionalParam("digitPositionsStr", StrV(Join(OptTexts(l.positions), ", ")));
    }
  }

  method PutSequence(ctx: ProblemContext, l: DivLocals)
    modifies ctx
    ensures ctx.Snapshot() == old(ctx.Snapshot()).(params := SequenceParam(old(ctx.params), l))
  {
    if l.sequence.Some? && |l.sequence.value| > 0 {
      ctx.SetAdditionalParam("transformationSequence", StrV(l.sequence.value));
    }
  }

  method PutConditions(ctx: ProblemContext, l: DivLocals)
    modifies ctx
    ensures ctx.Snapshot() == old(ctx.Snapshot()).(params := ConditionsParam(old(ctx.params), l))
  {
    if |l.conditions| > 0 {
      ctx.SetAdditionalParam("conditions", StrV(Join(OptTexts(l.conditions), "; ")));
    }
  }

  method PutCollected(ctx: ProblemContext, l: DivLocals)
    modifies ctx
    ensures ctx.Snapshot() == old(ctx.Snapshot()).(params := CollectedParams(old(ctx.params), l))
  {
    ctx.SetAdditionalParam("digits", IntV(l.digits));
    ctx.SetAdditionalParam("rule", StrParam(l.rule));
    ctx.SetAdditionalParam("transformation", StrV(Transformation));
    ctx.SetAdditionalParam("factor", IntV(l.factor));
    ctx.SetAdditionalParam("operationType", StrParam(l.operationType));
  }

  method BuildDivDescription(l: DivLocals) returns (description: string)
    ensures description == DivDescription(l)
  {
    description := "Найти все " + IntToString(l.digits) + "-значные натуральные числа";
    ghost var d := description;
    if l.sequence.Some? && |l.sequence.value| > 0 {
      description := description + (", которые при преобразовании " + l.sequence.value + " " + Transformation);
    } else if |l.positions| > 0 {
      description := description + (", которые при изменении цифр по позициям: " + Join(OptTexts(l.positions), " ")
        + " " + Transformation);
    } else if l.rule.Some? && |l.rule.value| > 0 {
      description := description + (", которые при преобразовании по правилу: " + l.rule.value + " " + Transformation);
    } else {
      description := description + (", которые " + Transformation);
    }
    assert description == d + DivHow(l);
    d := description;
    if |l.conditions| > 0 {
      description := description + (" (условия: " + Join(OptTexts(l.conditions), ", ") + ")");
    }
    assert description == d + DivConditions(l);
  }

  /** `interpretDivisibilityDeclaration`. */
  method InterpretDivisibilityDeclaration(node: Node, ctx: ProblemContext) returns (r: Result<()>)
    modifies ctx
    ensures Reaches(r, ctx.Snapshot(), DivisibilityDeclaration(old(ctx.Snapshot()), node))
  {
    ghost var s0 := ctx.Snapshot();
    var cs := node.children;
    var l := DivStart;
    var i := 0;
    while i < |cs|
      invariant 0 <= i <= |cs|
      invariant Fold(DivChild, (s0, DivStart), cs[..i]) == Ok((ctx.Snapshot(), l))
    {
      ghost var before := ctx.Snapshot();
      var next := DivChildStep(cs[i], ctx, l);
      if next.Err? {
        FoldStopsAt(DivChild, (s0, DivStart), cs, i, (before, l));
        return Err(next.msg);
      }
      FoldStep(DivChild, (s0, DivStart), cs, i, (before, l));
      l := next.value;
      i := i + 1;
    }
    FoldDone((s0, DivStart), DivChild, cs);
    PutDivSummary(ctx, l);
    var description := BuildDivDescription(l);
    ctx.SetAdditionalParam("description", StrV(description));
    ctx.SetProblemType(Some(Divisibility));
    r := Ok(());
  }
}
