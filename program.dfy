/** `ProblemInterpreter.interpret`: a fresh context, then every declaration of the
    program in order, each handed to the routine for its kind; a declaration of an
    unknown kind is skipped. */
module ProgramInterpreter {
  import opened Wrappers
  import opened JavaMaps
  import opened Ast
  import opened ProblemTypes
  import opened Context
  import opened Interpreter
  import opened InterpreterBlocks

  /** The problem type a declaration of this kind always sets. */
  function BlockType(kind: string): (t: Option<ProblemType>)
    ensures t.Some? <==> kind in {"REMAINDERS_DECLARATION", "DIVISIBILITY_DECLARATION", "BALLS_DECLARATION",
                                  "NUMBERS_DECLARATION", "CHESS_DECLARATION"}
  {
    if kind == "REMAINDERS_DECLARATION" then Some(Remainders)
    else if kind == "DIVISIBILITY_DECLARATION" then Some(Divisibility)
    else if kind == "BALLS_DECLARATION" then Some(BallsAndUrns)
    else if kind == "NUMBERS_DECLARATION" then Some(Numbers)
    else if kind == "CHESS_DECLARATION" then Some(Chess)
    else None
  }

  /** The kinds whose routines never touch the problem type. */
  predicate KeepsTypeKind(kind: string) {
    kind in {"DECK_DECLARATION", "ALPHABET_DECLARATION", "LENGTH_DECLARATION", "UNIQUE_DECLARATION",
             "TARGET_DECLARATION", "DRAW_DECLARATION", "CONDITION", "CALCULATE", "UNKNOWNS_DECLARATION",
             "SUM_DECLARATION", "DOMAIN_DECLARATION", "CONSTRAINTS_DECLARATION"}
  }

  /** The kinds the dispatch knows. */
  predicate KnownKind(kind: string) {
    kind == "TASK_DECLARATION" || KeepsTypeKind(kind) || BlockType(kind).Some?
  }

  /** The kinds that may change the problem type. */
  predicate SetsType(kind: string) {
    kind == "TASK_DECLARATION" || BlockType(kind).Some?
  }

  /** The first nine cases of the `switch` in `interpret`: the task, the card and word
      declarations, the general condition and the calculation. */
  predicate CommonKind(kind: string) {
    kind in {"TASK_DECLARATION", "DECK_DECLARATION", "ALPHABET_DECLARATION", "LENGTH_DECLARATION",
             "UNIQUE_DECLARATION", "TARGET_DECLARATION", "DRAW_DECLARATION", "CONDITION", "CALCULATE"}
  }

  /** One pass of the loop in `interpret`. */
  function InterpretNode(order: KeyOrder, s: State, n: Node): Result<State> {
    if CommonKind(n.kind) then InterpretCommon(s, n) else InterpretOther(order, s, n)
  }

  function InterpretCommon(s: State, n: Node): Result<State> {
    if n.kind == "TASK_DECLARATION" then TaskDeclaration(s, n)
    else if n.kind == "DECK_DECLARATION" then DeckDeclaration(s, n)
    else if n.kind == "ALPHABET_DECLARATION" then AlphabetDeclaration(s, n)
    else if n.kind == "LENGTH_DECLARATION" then LengthDeclaration(s, n)
    else if n.kind == "UNIQUE_DECLARATION" then UniqueDeclaration(s, n)
    else if n.kind == "TARGET_DECLARATION" then TargetDeclaration(s, n)
    else if n.kind == "DRAW_DECLARATION" then DrawDeclaration(s, n)
    else if n.kind == "CONDITION" then GeneralCondition(s, n)
    else if n.kind == "CALCULATE" then Calculate(s, n)
    else Ok(s)
  }

  /** The rest of the `switch`: the equation declarations and the blocks; any other kind
      is skipped. */
  function InterpretOther(order: KeyOrder, s: State, n: Node): Result<State> {
    if n.kind == "UNKNOWNS_DECLARATION" then UnknownsDeclaration(s, n)
    else if n.kind == "SUM_DECLARATION" then SumDeclaration(s, n)
    else if n.kind == "DOMAIN_DECLARATION" then DomainDeclaration(s, n)
    else if n.kind == "CONSTRAINTS_DECLARATION" then ConstraintsDeclaration(s, n)
    else if n.kind == "REMAINDERS_DECLARATION" then RemaindersDeclaration(s, n)
    else if n.kind == "DIVISIBILITY_DECLARATION" then DivisibilityDeclaration(s, n)
    else if n.kind == "BALLS_DECLARATION" then BallsDeclaration(order, s, n)
    else if n.kind == "NUMBERS_DECLARATION" then NumbersDeclaration(s, n)
    else if n.kind == "CHESS_DECLARATION" then ChessDeclaration(order, s, n)
    else Ok(s)
  }

  function ProgramStep(order: KeyOrder): (State, Node) -> Result<State> {
    (s, n) => InterpretNode(order, s, n)
  }

  /** `interpret`: the declarations of the program, in order, from a fresh context. */
  function InterpretProgram(order: KeyOrder, ast: Node): Result<State> {
    Fold(ProgramStep(order), Defaults, ast.children)
  }

  // ---------------------------------------------------------------- the problem type

  /** A pass that never changes the problem type. */
  ghost predicate StepKeepsType(step: (State, Node) -> Result<State>) {
    forall b: State, c: Node :: step(b, c).Ok? ==> step(b, c).value.problemType == b.problemType
  }

  lemma FoldKeepsType(step: (State, Node) -> Result<State>, s: State, cs: seq<Node>)
    requires StepKeepsType(step)
    ensures Fold(step, s, cs).Ok? ==> Fold(step, s, cs).value.problemType == s.problemType
  {
    FoldKeeps(step, s, cs, (b: State) => b.problemType == s.problemType);
  }

  /** No pass of these loops touches the problem type. */
  lemma CardChildrenKeepType()
    ensures StepKeepsType(DeckChild) && StepKeepsType(AlphabetChild)
    ensures StepKeepsType(LengthChild) && StepKeepsType(UniqueChild)
  {
  }

  lemma ConditionChildrenKeepType()
    ensures StepKeepsType(DrawChild) && StepKeepsType(GeneralConditionChild)
    ensures StepKeepsType(CalculateChild) && StepKeepsType(WordConditionChild)
  {
  }

  lemma EquationChildrenKeepType()
    ensures StepKeepsType(UnknownsChild) && StepKeepsType(SumChild)
    ensures StepKeepsType(DomainChild) && StepKeepsType(ConstraintsChild)
  {
  }

  /** The card and word declarations, the general condition and the calculation leave
      the problem type alone. */
  lemma CommonKeepsType(s: State, n: Node)
    requires CommonKind(n.kind) && n.kind != "TASK_DECLARATION"
    ensures InterpretCommon(s, n).Ok? ==> InterpretCommon(s, n).value.problemType == s.problemType
  {
    CardChildrenKeepType();
    ConditionChildrenKeepType();
    var cs := n.children;
    if n.kind == "DECK_DECLARATION" {
      FoldKeepsType(DeckChild, s, cs);
    } else if n.kind == "ALPHABET_DECLARATION" {
      FoldKeepsType(AlphabetChild, s, cs);
    } else if n.kind == "LENGTH_DECLARATION" {
      FoldKeepsType(LengthChild, s, cs);
    } else if n.kind == "UNIQUE_DECLARATION" {
      FoldKeepsType(UniqueChild, s, cs);
    } else if n.kind == "TARGET_DECLARATION" {
      TargetKeepsType(s, n);
    } else if n.kind == "DRAW_DECLARATION" {
      FoldKeepsType(DrawChild, s, cs);
    } else if n.kind == "CONDITION" {
      FoldKeepsType(GeneralConditionChild, s, cs);
    } else {
      FoldKeepsType(CalculateChild, s, cs);
    }
  }

  lemma TargetKeepsType(s: State, n: Node)
    ensures TargetDeclaration(s, n).Ok? ==> TargetDeclaration(s, n).value.problemType == s.problemType
  {
    TargetItemKeepsType();
    if |n.children| > 0 && n.children[0].kind == "TARGET_LIST" {
      FoldKeepsType(TargetItem, s, n.children[0].children);
    }
  }

  /** Cards, count conditions and word conditions leave the problem type alone. */
  lemma TargetItemKeepsType()
    ensures StepKeepsType(TargetItem)
  {
    forall b: State, c: Node | TargetItem(b, c).Ok?
      ensures TargetItem(b, c).value.problemType == b.problemType
    {
      if c.kind == "CONDITION" {
        FoldKeepsType(WordConditionChild, b, c.children);
      }
    }
  }

  /** The equation declarations leave the problem type alone, the five blocks set their
      type whatever the children were, and any other kind changes nothing. */
  lemma OtherType(order: KeyOrder, s: State, n: Node)
    requires !CommonKind(n.kind)
    ensures var r := InterpretOther(order, s, n);
      (r.Ok? && BlockType(n.kind).Some? ==> r.value.problemType == BlockType(n.kind))
      && (r.Ok? && KeepsTypeKind(n.kind) ==> r.value.problemType == s.problemType)
      && (!KnownKind(n.kind) ==> r == Ok(s))
  {
    EquationChildrenKeepType();
    var cs := n.children;
    if n.kind == "UNKNOWNS_DECLARATION" {
      FoldKeepsType(UnknownsChild, s, cs);
    } else if n.kind == "SUM_DECLARATION" {
      FoldKeepsType(SumChild, s, cs);
    } else if n.kind == "DOMAIN_DECLARATION" {
      FoldKeepsType(DomainChild, s, cs);
    } else if n.kind == "CONSTRAINTS_DECLARATION" {
      FoldKeepsType(ConstraintsChild, s, cs);
    }
  }

  /** The routines of the type-setting kinds set their type whatever the children were;
      the other known routines, apart from the task's, leave it alone; an unknown kind
      changes nothing. */
  lemma DispatchType(order: KeyOrder, s: State, n: Node)
    ensures var r := InterpretNode(order, s, n);
      (r.Ok? && BlockType(n.kind).Some? ==> r.value.problemType == BlockType(n.kind))
      && (r.Ok? && KeepsTypeKind(n.kind) ==> r.value.problemType == s.problemType)
      && (!KnownKind(n.kind) ==> r == Ok(s))
  {
    if CommonKind(n.kind) {
      if n.kind != "TASK_DECLARATION" {
        CommonKeepsType(s, n);
      }
    } else {
      OtherType(order, s, n);
    }
  }

  /** A run of declarations none of which may set the type keeps it. */
  lemma {:induction false} TypeKeptAcross(order: KeyOrder, s: State, cs: seq<Node>)
    requires forall j :: 0 <= j < |cs| ==> !SetsType(cs[j].kind)
    ensures Fold(ProgramStep(order), s, cs).Ok? ==> Fold(ProgramStep(order), s, cs).value.problemType == s.problemType
    decreases |cs|
  {
    if |cs| > 0 {
      var init := cs[..|cs| - 1];
      TypeKeptAcross(order, s, init);
      var r0 := Fold(ProgramStep(order), s, init);
      if r0.Ok? {
        DispatchType(order, r0.value, cs[|cs| - 1]);
      }
    }
  }

  /** The loop over `xs + ys` is the loop over `xs` followed by the loop over `ys`. */
  lemma {:induction false} FoldAppend<A>(step: (A, Node) -> Result<A>, a: A, xs: seq<Node>, ys: seq<Node>)
    ensures Fold(step, a, xs + ys) == match Fold(step, a, xs) {
              case Err(m) => Err(m)
              case Ok(b) => Fold(step, b, ys)
            }
    decreases |ys|
  {
    if |ys| == 0 {
      assert xs + ys == xs;
    } else {
      var ys0 := ys[..|ys| - 1];
      FoldAppend(step, a, xs, ys0);
      assert (xs + ys)[..|xs + ys| - 1] == xs + ys0;
    }
  }

  /** The last declaration that may set the type decides it: when it is a remainders,
      divisibility, balls, numbers or chess declaration and the program runs to the end,
      the type is that declaration's. */
  lemma LastBlockWins(order: KeyOrder, ast: Node, i: nat)
    requires i < |ast.children| && BlockType(ast.children[i].kind).Some?
    requires forall j :: i < j < |ast.children| ==> !SetsType(ast.children[j].kind)
    requires InterpretProgram(order, ast).Ok?
    ensures InterpretProgram(order, ast).value.problemType == BlockType(ast.children[i].kind)
  {
    var cs := ast.children;
    var step := ProgramStep(order);
    assert cs == cs[..i + 1] + cs[i + 1..];
    FoldAppend(step, Defaults, cs[..i + 1], cs[i + 1..]);
    var r0 := Fold(step, Defaults, cs[..i + 1]);
    assert cs[..i + 1][..i] == cs[..i];
    var r1 := Fold(step, Defaults, cs[..i]);
    assert r1.Ok? && r0 == InterpretNode(order, r1.value, cs[i]);
    DispatchType(order, r1.value, cs[i]);
    TypeKeptAcross(order, r0.value, cs[i + 1..]);
  }

  /** A program with no declaration that may set the type leaves it unset. */
  lemma TypeUnsetWithoutBlocks(order: KeyOrder, ast: Node)
    requires forall j :: 0 <= j < |ast.children| ==> !SetsType(ast.children[j].kind)
    requires InterpretProgram(order, ast).Ok?
    ensures InterpretProgram(order, ast).value.problemType.None?
  {
    TypeKeptAcross(order, Defaults, ast.children);
  }

  // ---------------------------------------------------------------- the methods

  /** The `switch` in `interpret`. */
  method InterpretNodeStep(node: Node, ctx: ProblemContext, order: KeyOrder) returns (r: Result<()>)
    modifies ctx
    ensures Reaches(r, ctx.Snapshot(), InterpretNode(order, old(ctx.Snapshot()), node))
  {
    if CommonKind(node.kind) {
      r := InterpretCommonStep(node, ctx);
    } else {
      r := InterpretOtherStep(node, ctx, order);
    }
  }

  method InterpretCommonStep(node: Node, ctx: ProblemContext) returns (r: Result<()>)
    modifies ctx
    ensures Reaches(r, ctx.Snapshot(), InterpretCommon(old(ctx.Snapshot()), node))
  {
    r := Ok(());
    if node.kind == "TASK_DECLARATION" {
      r := InterpretTaskDeclaration(node, ctx);
    } else if node.kind == "DECK_DECLARATION" {
      r := InterpretDeckDeclaration(node, ctx);
    } else if node.kind == "ALPHABET_DECLARATION" {
      r := InterpretAlphabetDeclaration(node, ctx);
    } else if node.kind == "LENGTH_DECLARATION" {
      r := InterpretLengthDeclaration(node, ctx);
    } else if node.kind == "UNIQUE_DECLARATION" {
      r := InterpretUniqueDeclaration(node, ctx);
    } else if node.kind == "TARGET_DECLARATION" {
      r := InterpretTargetDeclaration(node, ctx);
    } else if node.kind == "DRAW_DECLARATION" {
      r := InterpretDrawDeclaration(node, ctx);
    } else if node.kind == "CONDITION" {
      r := InterpretGeneralCondition(node, ctx);
    } else if node.kind == "CALCULATE" {
      r := InterpretCalculate(node, ctx);
    }
  }

  method InterpretOtherStep(node: Node, ctx: ProblemContext, order: KeyOrder) returns (r: Result<()>)
    modifies ctx
    ensures Reaches(r, ctx.Snapshot(), InterpretOther(order, old(ctx.Snapshot()), node))
  {
    r := Ok(());
    if node.kind == "UNKNOWNS_DECLARATION" {
      r := InterpretUnknownsDeclaration(node, ctx);
    } else if node.kind == "SUM_DECLARATION" {
      r := InterpretSumDeclaration(node, ctx);
    } else if node.kind == "DOMAIN_DECLARATION" {
      r := InterpretDomainDeclaration(node, ctx);
    } else if node.kind == "CONSTRAINTS_DECLARATION" {
      r := InterpretConstraintsDeclaration(node, ctx);
    } else if node.kind == "REMAINDERS_DECLARATION" {
      r := InterpretRemaindersDeclaration(node, ctx);
    } else if node.kind == "DIVISIBILITY_DECLARATION" {
      r := InterpretDivisibilityDeclaration(node, ctx);
    } else if node.kind == "BALLS_DECLARATION" {
      r := InterpretBallsDeclaration(node, ctx, order);
    } else if node.kind == "NUMBERS_DECLARATION" {
      r := InterpretNumbersDeclaration(node, ctx);
    } else if node.kind == "CHESS_DECLARATION" {
      r := InterpretChessDeclaration(node, ctx, order);
    }
  }

  /** `interpret`: a new context, and the program's declarations applied to it in order;
      a routine that throws ends the run. */
  method Interpret(ast: Node, order: KeyOrder) returns (context: ProblemContext, r: Result<()>)
    ensures fresh(context)
    ensures Reaches(r, context.Snapshot(), InterpretProgram(order, ast))
  {
    context := new ProblemContext();
    ghost var step := ProgramStep(order);
    var cs := ast.children;
    var i := 0;
    while i < |cs|
      invariant 0 <= i <= |cs|
      invariant Fold(step, Defaults, cs[..i]) == Ok(context.Snapshot())
    {
      ghost var before := context.Snapshot();
      r := InterpretNodeStep(cs[i], context, order);
      if r.Err? {
        FoldStopsAt(step, Defaults, cs, i, before);
        return;
      }
      FoldStep(step, Defaults, cs, i, before);
      i := i + 1;
    }
    FoldDone(Defaults, step, cs);
    r := Ok(());
  }
}
