/** The interpreter: it walks the children of the `PROGRAM` node in order and fills a
    `ProblemContext`. Each declaration routine loops over the children of its node,
    updating the context as it goes; some keep local defaults that they write back at the
    end. A Java cast that does not fit the node's value throws, and the exception ends
    the whole interpretation; the model returns `Err` for it.

    Every routine is a method on the context, proved against a function on `State` (the
    values of all the context's fields): the state it leaves is the function's value, and
    it throws exactly when the function is `Err`. */
module Interpreter {
  import opened Wrappers
  import opened JavaText
  import opened JavaMaps
  import opened Ast
  import opened ProblemTypes
  import opened Cards
  import opened Context

  // ---------------------------------------------------------------- Java casts

  /** `(String) value`: a string, or `null`; any other class throws. */
  function AsString(v: Value): (r: Result<Option<string>>)
    ensures r.Ok? <==> v.StrV? || v.Null?
    ensures v.StrV? ==> r == Ok(Some(v.s))
    ensures v.Null? ==> r == Ok(None)
  {
    match v
    case Null => Ok(None)
    case StrV(t) => Ok(Some(t))
    case _ => Err("ClassCastException")
  }

  /** `int x = (Integer) value`: unboxing `null` throws as well. */
  function AsInt(v: Value): (r: Result<int>)
    ensures r.Ok? <==> v.IntV?
    ensures v.IntV? ==> r == Ok(v.i)
  {
    match v
    case IntV(i) => Ok(i)
    case Null => Err("NullPointerException")
    case _ => Err("ClassCastException")
  }

  /** `Integer x = (Integer) value`: `null` stays `null`. */
  function AsInteger(v: Value): (r: Result<Option<int>>)
    ensures r.Ok? <==> v.IntV? || v.Null?
    ensures v.IntV? ==> r == Ok(Some(v.i))
    ensures v.Null? ==> r == Ok(None)
  {
    match v
    case IntV(i) => Ok(Some(i))
    case Null => Ok(None)
    case _ => Err("ClassCastException")
  }

  /** `boolean b = (Boolean) value`. */
  function AsBool(v: Value): (r: Result<bool>)
    ensures r.Ok? <==> v.BoolV?
    ensures v.BoolV? ==> r == Ok(v.b)
  {
    match v
    case BoolV(b) => Ok(b)
    case Null => Err("NullPointerException")
    case _ => Err("ClassCastException")
  }

  /** `(List<String>) value` followed by `new ArrayList<>(list)`, which throws on `null`. */
  function AsList(v: Value): (r: Result<seq<string>>)
    ensures r.Ok? <==> v.ListV?
    ensures v.ListV? ==> r == Ok(v.items)
  {
    match v
    case ListV(items) => Ok(items)
    case Null => Err("NullPointerException")
    case _ => Err("ClassCastException")
  }

  /** A `String` passed to `setParameter`: `null` is stored as `null`. */
  function StrParam(t: Option<string>): (v: Value)
    ensures v.Null? <==> t.None?
    ensures t.Some? ==> v == StrV(t.value)
  {
    if t.None? then Null else StrV(t.value)
  }

  // ---------------------------------------------------------------- loops over children

  /** The outcome of a loop over `cs` whose body is `step`: the steps applied first to
      last, stopping at the first one that throws. */
  function Fold<A>(step: (A, Node) -> Result<A>, a: A, cs: seq<Node>): Result<A>
    decreases |cs|
  {
    if |cs| == 0 then Ok(a)
    else
      match Fold(step, a, cs[..|cs| - 1])
      case Err(m) => Err(m)
      case Ok(b) => step(b, cs[|cs| - 1])
  }

  /** The loop has run `i` times and reached `b`: the next pass applies `step` to the next
      child. */
  lemma FoldStep<A>(step: (A, Node) -> Result<A>, a: A, cs: seq<Node>, i: nat, b: A)
    requires i < |cs| && Fold(step, a, cs[..i]) == Ok(b)
    ensures Fold(step, a, cs[..i + 1]) == step(b, cs[i])
  {
    assert cs[..i + 1][..i] == cs[..i];
  }

  /** Once a pass throws, the whole loop throws. */
  lemma {:induction false} FoldErrSticks<A>(step: (A, Node) -> Result<A>, a: A, cs: seq<Node>, k: nat)
    requires k <= |cs| && Fold(step, a, cs[..k]).Err?
    ensures Fold(step, a, cs).Err?
    decreases |cs|
  {
    if k == |cs| {
      assert cs[..k] == cs;
    } else {
      var init := cs[..|cs| - 1];
      assert init[..k] == cs[..k];
      FoldErrSticks(step, a, init, k);
    }
  }

  /** The pass over child `i` threw, so the loop throws. */
  lemma FoldStopsAt<A>(step: (A, Node) -> Result<A>, a: A, cs: seq<Node>, i: nat, b: A)
    requires i < |cs| && Fold(step, a, cs[..i]) == Ok(b) && step(b, cs[i]).Err?
    ensures Fold(step, a, cs).Err?
  {
    FoldStep(step, a, cs, i, b);
    FoldErrSticks(step, a, cs, i + 1);
  }

  /** The loop ran to the end. */
  lemma FoldDone<A>(a: A, step: (A, Node) -> Result<A>, cs: seq<Node>)
    ensures Fold(step, a, cs[..|cs|]) == Fold(step, a, cs)
  {
    assert cs[..|cs|] == cs;
  }

  /** A property every pass keeps holds after the loop. */
  lemma {:induction false} FoldKeeps<A>(step: (A, Node) -> Result<A>, a: A, cs: seq<Node>, keep: A -> bool)
    requires keep(a)
    requires forall b, c :: keep(b) && step(b, c).Ok? ==> keep(step(b, c).value)
    ensures Fold(step, a, cs).Ok? ==> keep(Fold(step, a, cs).value)
    decreases |cs|
  {
    if |cs| > 0 {
      FoldKeeps(step, a, cs[..|cs| - 1], keep);
    }
  }

  /** A method's outcome agrees with its specification: it throws exactly when the
      specification does, and otherwise leaves the specified state. */
  predicate Reaches(r: Result<()>, after: State, spec: Result<State>) {
    (r.Err? <==> spec.Err?) && (r.Ok? ==> after == spec.value)
  }

  // ---------------------------------------------------------------- TASK

  /** `fromCdslName(taskType)`, and CARDS when it throws; `null` matches no name. */
  function TaskType(name: Option<string>): (t: ProblemType)
    ensures t == Cards || (name.Some? && EqualsIgnoreCase(t.CdslName(), name.value))
  {
    if name.None? then Cards
    else match FromCdslName(name.value)
      case Ok(t) => t
      case Err(_) => Cards
  }

  /** A task type names the type whose CDSL name it spells, in any letter case. */
  lemma TaskTypeIgnoresCase(t: ProblemType, name: string)
    requires EqualsIgnoreCase(name, t.CdslName())
    ensures TaskType(Some(name)) == t
  {
    FromCdslNameRoundTrip(t, name);
  }

  /** A name that is no type's CDSL name, and `null`, give CARDS. */
  lemma TaskTypeFallsBack(name: Option<string>)
    requires name.Some? ==> forall t: ProblemType :: !EqualsIgnoreCase(t.CdslName(), name.value)
    ensures TaskType(name) == Cards
  {
  }

  function TaskChild(s: State, c: Node): Result<State> {
    if c.kind == "TASK_TYPE" then
      var t :- AsString(c.value);
      Ok(s.(problemType := Some(TaskType(t))))
    else if c.kind == "TASK_NAME" then
      var t :- AsString(c.value);
      Ok(s.(taskName := t))
    else Ok(s)
  }

  /** `interpretTaskDeclaration`. */
  function TaskDeclaration(s: State, n: Node): Result<State> {
    Fold(TaskChild, s, n.children)
  }

  method InterpretTaskDeclaration(node: Node, ctx: ProblemContext) returns (r: Result<()>)
    modifies ctx
    ensures Reaches(r, ctx.Snapshot(), TaskDeclaration(old(ctx.Snapshot()), node))
  {
    ghost var s0 := ctx.Snapshot();
    var cs := node.children;
    var i := 0;
    while i < |cs|
      invariant 0 <= i <= |cs|
      invariant Fold(TaskChild, s0, cs[..i]) == Ok(ctx.Snapshot())
    {
      ghost var before := ctx.Snapshot();
      r := TaskChildStep(cs[i], ctx);
      if r.Err? {
        FoldStopsAt(TaskChild, s0, cs, i, before);
        return;
      }
      FoldStep(TaskChild, s0, cs, i, before);
      i := i + 1;
    }
    FoldDone(s0, TaskChild, cs);
    r := Ok(());
  }

  /** One pass of the loop in `interpretTaskDeclaration`. */
  method TaskChildStep(child: Node, ctx: ProblemContext) returns (r: Result<()>)
    modifies ctx
    ensures Reaches(r, ctx.Snapshot(), TaskChild(old(ctx.Snapshot()), child))
  {
    r := Ok(());
    if child.kind == "TASK_TYPE" {
      var taskType := AsString(child.value);
      if taskType.Err? {
        return Err(taskType.msg);
      }
      var problemType := if taskType.value.Some? then FromCdslName(taskType.value.value) else Err("null");
      if problemType.Ok? {
        ctx.SetProblemType(Some(problemType.value));
      } else {
        ctx.SetProblemType(Some(Cards));
      }
    } else if child.kind == "TASK_NAME" {
      var taskName := AsString(child.value);
      if taskName.Err? {
        return Err(taskName.msg);
      }
      ctx.SetTaskName(taskName.value);
    }
  }

  // ---------------------------------------------------------------- DECK

  function DeckChild(s: State, c: Node): Result<State> {
    if c.kind == "DECK_TYPE" then
      var t :- AsString(c.value);
      Ok(s.(deckType := t))
    else if c.kind == "DECK_SIZE" then
      var n :- AsInt(c.value);
      Ok(s.(deckSize := n))
    else Ok(s)
  }

  /** `interpretDeckDeclaration`. */
  function DeckDeclaration(s: State, n: Node): Result<State> {
    Fold(DeckChild, s, n.children)
  }

  method InterpretDeckDeclaration(node: Node, ctx: ProblemContext) returns (r: Result<()>)
    modifies ctx
    ensures Reaches(r, ctx.Snapshot(), DeckDeclaration(old(ctx.Snapshot()), node))
  {
    ghost var s0 := ctx.Snapshot();
    var cs := node.children;
    var i := 0;
    while i < |cs|
      invariant 0 <= i <= |cs|
      invariant Fold(DeckChild, s0, cs[..i]) == Ok(ctx.Snapshot())
    {
      ghost var before := ctx.Snapshot();
      r := DeckChildStep(cs[i], ctx);
      if r.Err? {
        FoldStopsAt(DeckChild, s0, cs, i, before);
        return;
      }
      FoldStep(DeckChild, s0, cs, i, before);
      i := i + 1;
    }
    FoldDone(s0, DeckChild, cs);
    r := Ok(());
  }

  method DeckChildStep(child: Node, ctx: ProblemContext) returns (r: Result<()>)
    modifies ctx
    ensures Reaches(r, ctx.Snapshot(), DeckChild(old(ctx.Snapshot()), child))
  {
    r := Ok(());
    if child.kind == "DECK_TYPE" {
      var deckType := AsString(child.value);
      if deckType.Err? {
        return Err(deckType.msg);
      }
      ctx.SetDeckType(deckType.value);
    } else if child.kind == "DECK_SIZE" {
      var deckSize := AsInt(child.value);
      if deckSize.Err? {
        return Err(deckSize.msg);
      }
      ctx.SetDeckSize(deckSize.value);
    }
  }
  // ---------------------------------------------------------------- WORDS

  function AlphabetChild(s: State, c: Node): Result<State> {
    if c.kind == "ALPHABET" then
      var a :- AsString(c.value);
      Ok(s.(alphabet := a, params := s.params["alphabet" := StrParam(a)]))
    else Ok(s)
  }

  function AlphabetDeclaration(s: State, n: Node): Result<State> {
    Fold(AlphabetChild, s, n.children)
  }

  /** `interpretAlphabetDeclaration`. */
  method InterpretAlphabetDeclaration(node: Node, ctx: ProblemContext) returns (r: Result<()>)
    modifies ctx
    ensures Reaches(r, ctx.Snapshot(), AlphabetDeclaration(old(ctx.Snapshot()), node))
  {
    ghost var s0 := ctx.Snapshot();
    var cs := node.children;
    var i := 0;
    while i < |cs|
      invariant 0 <= i <= |cs|
      invariant Fold(AlphabetChild, s0, cs[..i]) == Ok(ctx.Snapshot())
    {
      ghost var before := ctx.Snapshot();
      r := AlphabetChildStep(cs[i], ctx);
      if r.Err? {
        FoldStopsAt(AlphabetChild, s0, cs, i, before);
        return;
      }
      FoldStep(AlphabetChild, s0, cs, i, before);
      i := i + 1;
    }
    FoldDone(s0, AlphabetChild, cs);
    r := Ok(());
  }

  method AlphabetChildStep(child: Node, ctx: ProblemContext) returns (r: Result<()>)
    modifies ctx
    ensures Reaches(r, ctx.Snapshot(), AlphabetChild(old(ctx.Snapshot()), child))
  {
    r := Ok(());
    if child.kind == "ALPHABET" {
      var alphabet := AsString(child.value);
      if alphabet.Err? {
        return Err(alphabet.msg);
      }
      ctx.SetAlphabet(alphabet.value);
      ctx.SetAdditionalParam("alphabet", StrParam(alphabet.value));
    }
  }

  function LengthChild(s: State, c: Node): Result<State> {
    if c.kind == "LENGTH" then
      var n :- AsInt(c.value);
      Ok(s.(wordLength := n, params := s.params["wordLength" := IntV(n)]))
    else Ok(s)
  }

  function LengthDeclaration(s: State, n: Node): Result<State> {
    Fold(LengthChild, s, n.children)
  }

  /** `interpretLengthDeclaration`. */
  method InterpretLengthDeclaration(node: Node, ctx: ProblemContext) returns (r: Result<()>)
    modifies ctx
    ensures Reaches(r, ctx.Snapshot(), LengthDeclaration(old(ctx.Snapshot()), node))
  {
    ghost var s0 := ctx.Snapshot();
    var cs := node.children;
    var i := 0;
    while i < |cs|
      invariant 0 <= i <= |cs|
      invariant Fold(LengthChild, s0, cs[..i]) == Ok(ctx.Snapshot())
    {
      ghost var before := ctx.Snapshot();
      r := LengthChildStep(cs[i], ctx);
      if r.Err? {
        FoldStopsAt(LengthChild, s0, cs, i, before);
        return;
      }
      FoldStep(LengthChild, s0, cs, i, before);
      i := i + 1;
    }
    FoldDone(s0, LengthChild, cs);
    r := Ok(());
  }

  method LengthChildStep(child: Node, ctx: ProblemContext) returns (r: Result<()>)
    modifies ctx
    ensures Reaches(r, ctx.Snapshot(), LengthChild(old(ctx.Snapshot()), child))
  {
    r := Ok(());
    if child.kind == "LENGTH" {
      var wordLength := AsInt(child.value);
      if wordLength.Err? {
        return Err(wordLength.msg);
      }
      ctx.SetWordLength(wordLength.value);
      ctx.SetAdditionalParam("wordLength", IntV(wordLength.value));
    }
  }

  function UniqueChild(s: State, c: Node): Result<State> {
    if c.kind == "UNIQUE" then
      var b :- AsBool(c.value);
      Ok(s.(uniqueLetters := b, params := s.params["uniqueLetters" := BoolV(b)]))
    else Ok(s)
  }

  function UniqueDeclaration(s: State, n: Node): Result<State> {
    Fold(UniqueChild, s, n.children)
  }

  /** `interpretUniqueDeclaration`. */
  method InterpretUniqueDeclaration(node: Node, ctx: ProblemContext) returns (r: Result<()>)
    modifies ctx
    ensures Reaches(r, ctx.Snapshot(), UniqueDeclaration(old(ctx.Snapshot()), node))
  {
    ghost var s0 := ctx.Snapshot();
    var cs := node.children;
    var i := 0;
    while i < |cs|
      invariant 0 <= i <= |cs|
      invariant Fold(UniqueChild, s0, cs[..i]) == Ok(ctx.Snapshot())
    {
      ghost var before := ctx.Snapshot();
      r := UniqueChildStep(cs[i], ctx);
      if r.Err? {
        FoldStopsAt(UniqueChild, s0, cs, i, before);
        return;
      }
      FoldStep(UniqueChild, s0, cs, i, before);
      i := i + 1;
    }
    FoldDone(s0, UniqueChild, cs);
    r := Ok(());
  }

  method UniqueChildStep(child: Node, ctx: ProblemContext) returns (r: Result<()>)
    modifies ctx
    ensures Reaches(r, ctx.Snapshot(), UniqueChild(old(ctx.Snapshot()), child))
  {
    r := Ok(());
    if child.kind == "UNIQUE" {
      var uniqueLetters := AsBool(child.value);
      if uniqueLetters.Err? {
        return Err(uniqueLetters.msg);
      }
      ctx.SetUniqueLetters(uniqueLetters.value);
      ctx.SetAdditionalParam("uniqueLetters", BoolV(uniqueLetters.value));
    }
  }

  // ---------------------------------------------------------------- CONDITION

  /** A condition is always a general condition, and also a word condition when the
      problem type at that moment is WORDS. */
  function GeneralConditionChild(s: State, c: Node): (r: Result<State>)
    ensures r.Ok? && c.kind == "CONDITION_EXPR" ==>
      AsString(c.value).Ok? &&
      var t := AsString(c.value).value;
      r.value.generalConditions == s.generalConditions + [t]
      && r.value.wordConditions
         == (if s.problemType == Some(Words) then s.wordConditions + [t] else s.wordConditions)
  {
    if c.kind == "CONDITION_EXPR" then
      var t :- AsString(c.value);
      var s1 := s.(generalConditions := s.generalConditions + [t]);
      Ok(if s.problemType == Some(Words) then s1.(wordConditions := s1.wordConditions + [t]) else s1)
    else Ok(s)
  }

  function GeneralCondition(s: State, n: Node): Result<State> {
    Fold(GeneralConditionChild, s, n.children)
  }

  /** `interpretGeneralCondition`. */
  method InterpretGeneralCondition(node: Node, ctx: ProblemContext) returns (r: Result<()>)
    modifies ctx
    ensures Reaches(r, ctx.Snapshot(), GeneralCondition(old(ctx.Snapshot()), node))
  {
    ghost var s0 := ctx.Snapshot();
    var cs := node.children;
    var i := 0;
    while i < |cs|
      invariant 0 <= i <= |cs|
      invariant Fold(GeneralConditionChild, s0, cs[..i]) == Ok(ctx.Snapshot())
    {
      ghost var before := ctx.Snapshot();
      r := GeneralConditionChildStep(cs[i], ctx);
      if r.Err? {
        FoldStopsAt(GeneralConditionChild, s0, cs, i, before);
        return;
      }
      FoldStep(GeneralConditionChild, s0, cs, i, before);
      i := i + 1;
    }
    FoldDone(s0, GeneralConditionChild, cs);
    r := Ok(());
  }

  method GeneralConditionChildStep(child: Node, ctx: ProblemContext) returns (r: Result<()>)
    modifies ctx
    ensures Reaches(r, ctx.Snapshot(), GeneralConditionChild(old(ctx.Snapshot()), child))
  {
    r := Ok(());
    if child.kind == "CONDITION_EXPR" {
      var condition := AsString(child.value);
      if condition.Err? {
        return Err(condition.msg);
      }
      ctx.AddGeneralCondition(condition.value);
      if ctx.problemType == Some(Words) {
        ctx.AddWordCondition(condition.value);
      }
    }
  }

  // ---------------------------------------------------------------- DRAW and CALCULATE

  /** Draws are with replacement exactly when the REPLACEMENT value is the string
      `"REPLACEMENT"`; `null` and `"NO_REPLACEMENT"` both mean without. */
  function DrawChild(s: State, c: Node): (r: Result<State>)
    ensures c.kind == "REPLACEMENT" ==>
      (r.Ok? <==> c.value.StrV? || c.value.Null?)
      && (r.Ok? ==> r.value == s.(withReplacement := r.value.withReplacement)
                    && (r.value.withReplacement <==> c.value == StrV("REPLACEMENT")))
  {
    if c.kind == "DRAW_COUNT" then
      var n :- AsInt(c.value);
      Ok(s.(drawCount := n))
    else if c.kind == "REPLACEMENT" then
      var t :- AsString(c.value);
      Ok(s.(withReplacement := t == Some("REPLACEMENT")))
    else Ok(s)
  }

  function DrawDeclaration(s: State, n: Node): Result<State> {
    Fold(DrawChild, s, n.children)
  }

  /** `interpretDrawDeclaration`. */
  method InterpretDrawDeclaration(node: Node, ctx: ProblemContext) returns (r: Result<()>)
    modifies ctx
    ensures Reaches(r, ctx.Snapshot(), DrawDeclaration(old(ctx.Snapshot()), node))
  {
    ghost var s0 := ctx.Snapshot();
    var cs := node.children;
    var i := 0;
    while i < |cs|
      invariant 0 <= i <= |cs|
      invariant Fold(DrawChild, s0, cs[..i]) == Ok(ctx.Snapshot())
    {
      ghost var before := ctx.Snapshot();
      r := DrawChildStep(cs[i], ctx);
      if r.Err? {
        FoldStopsAt(DrawChild, s0, cs, i, before);
        return;
      }
      FoldStep(DrawChild, s0, cs, i, before);
      i := i + 1;
    }
    FoldDone(s0, DrawChild, cs);
    r := Ok(());
  }

  method DrawChildStep(child: Node, ctx: ProblemContext) returns (r: Result<()>)
    modifies ctx
    ensures Reaches(r, ctx.Snapshot(), DrawChild(old(ctx.Snapshot()), child))
  {
    r := Ok(());
    if child.kind == "DRAW_COUNT" {
      var drawCount := AsInt(child.value);
      if drawCount.Err? {
        return Err(drawCount.msg);
      }
      ctx.SetDrawCount(drawCount.value);
    } else if child.kind == "REPLACEMENT" {
      var replacement := AsString(child.value);
      if replacement.Err? {
        return Err(replacement.msg);
      }
      var withReplacement := replacement.value.Some? && replacement.value.value == "REPLACEMENT";
      ctx.SetWithReplacement(withReplacement);
    }
  }

  function CalculateChild(s: State, c: Node): Result<State> {
    if c.kind == "CALCULATION_TYPE" then
      var t :- AsString(c.value);
      Ok(s.(calculationType := t))
    else Ok(s)
  }

  function Calculate(s: State, n: Node): Result<State> {
    Fold(CalculateChild, s, n.children)
  }

  /** `interpretCalculate`. */
  method InterpretCalculate(node: Node, ctx: ProblemContext) returns (r: Result<()>)
    modifies ctx
    ensures Reaches(r, ctx.Snapshot(), Calculate(old(ctx.Snapshot()), node))
  {
    ghost var s0 := ctx.Snapshot();
    var cs := node.children;
    var i := 0;
    while i < |cs|
      invariant 0 <= i <= |cs|
      invariant Fold(CalculateChild, s0, cs[..i]) == Ok(ctx.Snapshot())
    {
      ghost var before := ctx.Snapshot();
      r := CalculateChildStep(cs[i], ctx);
      if r.Err? {
        FoldStopsAt(CalculateChild, s0, cs, i, before);
        return;
      }
      FoldStep(CalculateChild, s0, cs, i, before);
      i := i + 1;
    }
    FoldDone(s0, CalculateChild, cs);
    r := Ok(());
  }

  method CalculateChildStep(child: Node, ctx: ProblemContext) returns (r: Result<()>)
    modifies ctx
    ensures Reaches(r, ctx.Snapshot(), CalculateChild(old(ctx.Snapshot()), child))
  {
    r := Ok(());
    if child.kind == "CALCULATION_TYPE" {
      var calculationType := AsString(child.value);
      if calculationType.Err? {
        return Err(calculationType.msg);
      }
      ctx.SetCalculationType(calculationType.value);
    }
  }

  // ---------------------------------------------------------------- EQUATIONS

  function UnknownsChild(s: State, c: Node): Result<State> {
    if c.kind == "UNKNOWNS_COUNT" then
      var n :- AsInt(c.value);
      Ok(s.(unknowns := n, params := s.params["unknowns" := IntV(n)]))
    else Ok(s)
  }

  function UnknownsDeclaration(s: State, n: Node): Result<State> {
    Fold(UnknownsChild, s, n.children)
  }

  /** `interpretUnknownsDeclaration`. */
  method InterpretUnknownsDeclaration(node: Node, ctx: ProblemContext) returns (r: Result<()>)
    modifies ctx
    ensures Reaches(r, ctx.Snapshot(), UnknownsDeclaration(old(ctx.Snapshot()), node))
  {
    ghost var s0 := ctx.Snapshot();
    var cs := node.children;
    var i := 0;
    while i < |cs|
      invariant 0 <= i <= |cs|
      invariant Fold(UnknownsChild, s0, cs[..i]) == Ok(ctx.Snapshot())
    {
      ghost var before := ctx.Snapshot();
      r := UnknownsChildStep(cs[i], ctx);
      if r.Err? {
        FoldStopsAt(UnknownsChild, s0, cs, i, before);
        return;
      }
      FoldStep(UnknownsChild, s0, cs, i, before);
      i := i + 1;
    }
    FoldDone(s0, UnknownsChild, cs);
    r := Ok(());
  }

  method UnknownsChildStep(child: Node, ctx: ProblemContext) returns (r: Result<()>)
    modifies ctx
    ensures Reaches(r, ctx.Snapshot(), UnknownsChild(old(ctx.Snapshot()), child))
  {
    r := Ok(());
    if child.kind == "UNKNOWNS_COUNT" {
      var unknowns := AsInt(child.value);
      if unknowns.Err? {
        return Err(unknowns.msg);
      }
      ctx.SetAdditionalParam("unknowns", IntV(unknowns.value));
      ctx.SetUnknowns(unknowns.value);
    }
  }

  function SumChild(s: State, c: Node): Result<State> {
    if c.kind == "SUM_VALUE" then
      var n :- AsInt(c.value);
      Ok(s.(sum := n, params := s.params["sum" := IntV(n)]))
    else Ok(s)
  }

  function SumDeclaration(s: State, n: Node): Result<State> {
    Fold(SumChild, s, n.children)
  }

  /** `interpretSumDeclaration`. */
  method InterpretSumDeclaration(node: Node, ctx: ProblemContext) returns (r: Result<()>)
    modifies ctx
    ensures Reaches(r, ctx.Snapshot(), SumDeclaration(old(ctx.Snapshot()), node))
  {
    ghost var s0 := ctx.Snapshot();
    var cs := node.children;
    var i := 0;
    while i < |cs|
      invariant 0 <= i <= |cs|
      invariant Fold(SumChild, s0, cs[..i]) == Ok(ctx.Snapshot())
    {
      ghost var before := ctx.Snapshot();
      r := SumChildStep(cs[i], ctx);
      if r.Err? {
        FoldStopsAt(SumChild, s0, cs, i, before);
        return;
      }
      FoldStep(SumChild, s0, cs, i, before);
      i := i + 1;
    }
    FoldDone(s0, SumChild, cs);
    r := Ok(());
  }

  method SumChildStep(child: Node, ctx: ProblemContext) returns (r: Result<()>)
    modifies ctx
    ensures Reaches(r, ctx.Snapshot(), SumChild(old(ctx.Snapshot()), child))
  {
    r := Ok(());
    if child.kind == "SUM_VALUE" {
      var sum := AsInt(child.value);
      if sum.Err? {
        return Err(sum.msg);
      }
      ctx.SetAdditionalParam("sum", IntV(sum.value));
      ctx.SetSum(sum.value);
    }
  }

  function DomainChild(s: State, c: Node): Result<State> {
    if c.kind == "DOMAIN" then
      var d :- AsString(c.value);
      Ok(s.(domain := d, params := s.params["domain" := StrParam(d)]))
    else Ok(s)
  }

  function DomainDeclaration(s: State, n: Node): Result<State> {
    Fold(DomainChild, s, n.children)
  }

  /** `interpretDomainDeclaration`. */
  method InterpretDomainDeclaration(node: Node, ctx: ProblemContext) returns (r: Result<()>)
    modifies ctx
    ensures Reaches(r, ctx.Snapshot(), DomainDeclaration(old(ctx.Snapshot()), node))
  {
    ghost var s0 := ctx.Snapshot();
    var cs := node.children;
    var i := 0;
    while i < |cs|
      invariant 0 <= i <= |cs|
      invariant Fold(DomainChild, s0, cs[..i]) == Ok(ctx.Snapshot())
    {
      ghost var before := ctx.Snapshot();
      r := DomainChildStep(cs[i], ctx);
      if r.Err? {
        FoldStopsAt(DomainChild, s0, cs, i, before);
        return;
      }
      FoldStep(DomainChild, s0, cs, i, before);
      i := i + 1;
    }
    FoldDone(s0, DomainChild, cs);
    r := Ok(());
  }

  method DomainChildStep(child: Node, ctx: ProblemContext) returns (r: Result<()>)
    modifies ctx
    ensures Reaches(r, ctx.Snapshot(), DomainChild(old(ctx.Snapshot()), child))
  {
    r := Ok(());
    if child.kind == "DOMAIN" {
      var domain := AsString(child.value);
      if domain.Err? {
        return Err(domain.msg);
      }
      ctx.SetAdditionalParam("domain", StrParam(domain.value));
      ctx.SetDomain(domain.value);
    }
  }

  function ConstraintsChild(s: State, c: Node): Result<State> {
    if c.kind == "CONSTRAINT" then
      var t :- AsString(c.value);
      Ok(s.(constraints := s.constraints + [t]))
    else Ok(s)
  }

  function ConstraintsDeclaration(s: State, n: Node): Result<State> {
    Fold(ConstraintsChild, s, n.children)
  }

  /** `interpretConstraintsDeclaration`. */
  method InterpretConstraintsDeclaration(node: Node, ctx: ProblemContext) returns (r: Result<()>)
    modifies ctx
    ensures Reaches(r, ctx.Snapshot(), ConstraintsDeclaration(old(ctx.Snapshot()), node))
  {
    ghost var s0 := ctx.Snapshot();
    var cs := node.children;
    var i := 0;
    while i < |cs|
      invariant 0 <= i <= |cs|
      invariant Fold(ConstraintsChild, s0, cs[..i]) == Ok(ctx.Snapshot())
    {
      ghost var before := ctx.Snapshot();
      r := ConstraintsChildStep(cs[i], ctx);
      if r.Err? {
        FoldStopsAt(ConstraintsChild, s0, cs, i, before);
        return;
      }
      FoldStep(ConstraintsChild, s0, cs, i, before);
      i := i + 1;
    }
    FoldDone(s0, ConstraintsChild, cs);
    r := Ok(());
  }

  method ConstraintsChildStep(child: Node, ctx: ProblemContext) returns (r: Result<()>)
    modifies ctx
    ensures Reaches(r, ctx.Snapshot(), ConstraintsChild(old(ctx.Snapshot()), child))
  {
    r := Ok(());
    if child.kind == "CONSTRAINT" {
      var constraint := AsString(child.value);
      if constraint.Err? {
        return Err(constraint.msg);
      }
      ctx.AddConstraint(constraint.value);
    }
  }

  // ---------------------------------------------------------------- REMAINDERS

  function RemaindersChild(s: State, c: Node): Result<State> {
    if c.kind == "DIVIDEND" then
      var d :- AsString(c.value);
      Ok(s.(dividend := d, params := s.params["dividend" := StrParam(d)]))
    else if c.kind == "DIVISOR" then
      var n :- AsInt(c.value);
      Ok(s.(divisor := n, params := s.params["divisor" := IntV(n)]))
    else if c.kind == "REMAINDER" then
      var n :- AsInt(c.value);
      Ok(s.(remainder := n, params := s.params["remainder" := IntV(n)]))
    else Ok(s)
  }

  /** `interpretRemaindersDeclaration`: the loop, then the type REMAINDERS whatever the
      children were. */
  function RemaindersDeclaration(s: State, n: Node): Result<State> {
    var t :- Fold(RemaindersChild, s, n.children);
    Ok(t.(problemType := Some(Remainders)))
  }

  /** `interpretRemaindersDeclaration`. */
  method InterpretRemaindersDeclaration(node: Node, ctx: ProblemContext) returns (r: Result<()>)
    modifies ctx
    ensures Reaches(r, ctx.Snapshot(), RemaindersDeclaration(old(ctx.Snapshot()), node))
  {
    ghost var s0 := ctx.Snapshot();
    var cs := node.children;
    var i := 0;
    while i < |cs|
      invariant 0 <= i <= |cs|
      invariant Fold(RemaindersChild, s0, cs[..i]) == Ok(ctx.Snapshot())
    {
      ghost var before := ctx.Snapshot();
      r := RemaindersChildStep(cs[i], ctx);
      if r.Err? {
        FoldStopsAt(RemaindersChild, s0, cs, i, before);
        return;
      }
      FoldStep(RemaindersChild, s0, cs, i, before);
      i := i + 1;
    }
    FoldDone(s0, RemaindersChild, cs);
    ctx.SetProblemType(Some(Remainders));
    r := Ok(());
  }

  method RemaindersChildStep(child: Node, ctx: ProblemContext) returns (r: Result<()>)
    modifies ctx
    ensures Reaches(r, ctx.Snapshot(), RemaindersChild(old(ctx.Snapshot()), child))
  {
    r := Ok(());
    if child.kind == "DIVIDEND" {
      var dividend := AsString(child.value);
      if dividend.Err? {
        return Err(dividend.msg);
      }
      ctx.SetDividend(dividend.value);
      ctx.SetAdditionalParam("dividend", StrParam(dividend.value));
    } else if child.kind == "DIVISOR" {
      var divisor := AsInt(child.value);
      if divisor.Err? {
        return Err(divisor.msg);
      }
      ctx.SetDivisor(divisor.value);
      ctx.SetAdditionalParam("divisor", IntV(divisor.value));
    } else if child.kind == "REMAINDER" {
      var remainder := AsInt(child.value);
      if remainder.Err? {
        return Err(remainder.msg);
      }
      ctx.SetRemainder(remainder.value);
      ctx.SetAdditionalParam("remainder", IntV(remainder.value));
    }
  }
  // ---------------------------------------------------------------- TARGET

  /** The value of the last child of kind `k`, if there is one. */
  function LastValue(cs: seq<Node>, k: string): (r: Option<Value>)
    ensures r.None? <==> !HasKind(cs, k)
    ensures r.Some? ==> exists i :: 0 <= i < |cs| && cs[i].kind == k && cs[i].value == r.value
    decreases |cs|
  {
    if |cs| == 0 then None
    else if cs[|cs| - 1].kind == k then Some(cs[|cs| - 1].value)
    else
      var r := LastValue(cs[..|cs| - 1], k);
      assert HasKind(cs, k) ==> HasKind(cs[..|cs| - 1], k) by {
        if HasKind(cs, k) {
          var i :| 0 <= i < |cs| && cs[i].kind == k;
          assert cs[..|cs| - 1][i] == cs[i];
        }
      }
      r
  }

  predicate HasKind(cs: seq<Node>, k: string) {
    exists i :: 0 <= i < |cs| && cs[i].kind == k
  }

  /** A string-valued part that the loop leaves as it found it when no child gives it. */
  function LastText(cs: seq<Node>, k: string): Option<string> {
    match LastValue(cs, k)
    case Some(v) => TextOf(v)
    case None => None
  }

  /** The string a value holds, if it holds one. */
  function TextOf(v: Value): Option<string> {
    if v.StrV? then Some(v.s) else None
  }

  /** The integer a value holds, if it holds one. */
  function IntegerOf(v: Value): Option<int> {
    if v.IntV? then Some(v.i) else None
  }

  /** Some child of kind `k` has a value a `(String)` cast refuses. */
  predicate BadText(cs: seq<Node>, k: string) {
    exists i :: 0 <= i < |cs| && cs[i].kind == k && AsString(cs[i].value).Err?
  }

  datatype CardParts = CardParts(rank: Option<string>, suit: Option<string>)

  function CardChild(p: CardParts, c: Node): Result<CardParts> {
    if c.kind == "RANK" then
      var t :- AsString(c.value);
      Ok(p.(rank := t))
    else if c.kind == "SUIT" then
      var t :- AsString(c.value);
      Ok(p.(suit := t))
    else Ok(p)
  }

  /** `interpretCard`: a card with the last rank and suit given, added only when both are
      there. */
  function CardItem(s: State, n: Node): Result<State> {
    var p :- Fold(CardChild, CardParts(None, None), n.children);
    Ok(if p.rank.Some? && p.suit.Some? then
         s.(targetCards := s.targetCards + [NewCard(p.rank, p.suit)])
       else s)
  }

  /** The loop over a card's children throws exactly when a RANK or SUIT child is not a
      string, and otherwise keeps the last rank and the last suit. */
  lemma {:induction false} CardPartsAreLast(cs: seq<Node>)
    ensures Fold(CardChild, CardParts(None, None), cs).Err? <==> BadText(cs, "RANK") || BadText(cs, "SUIT")
    ensures Fold(CardChild, CardParts(None, None), cs).Ok? ==>
      Fold(CardChild, CardParts(None, None), cs).value == CardParts(LastText(cs, "RANK"), LastText(cs, "SUIT"))
    decreases |cs|
  {
    if |cs| > 0 {
      CardPartsAreLast(cs[..|cs| - 1]);
      BadTextSnoc(cs, "RANK");
      BadTextSnoc(cs, "SUIT");
      LastSnoc(cs, "RANK");
      LastSnoc(cs, "SUIT");
    }
  }

  lemma BadTextSnoc(cs: seq<Node>, k: string)
    requires |cs| > 0
    ensures BadText(cs, k) <==>
      BadText(cs[..|cs| - 1], k) || (cs[|cs| - 1].kind == k && AsString(cs[|cs| - 1].value).Err?)
  {
    var init := cs[..|cs| - 1];
    if BadText(cs, k) {
      var i :| 0 <= i < |cs| && cs[i].kind == k && AsString(cs[i].value).Err?;
      if i < |init| {
        assert init[i] == cs[i];
      }
    }
    if BadText(init, k) {
      var i :| 0 <= i < |init| && init[i].kind == k && AsString(init[i].value).Err?;
      assert cs[i] == init[i];
    }
  }

  /** A card is added exactly when the card's last RANK and last SUIT are both strings;
      otherwise the record is unchanged. */
  lemma CardAddedWhenComplete(s: State, n: Node)
    requires CardItem(s, n).Ok?
    ensures var rank := LastText(n.children, "RANK");
      var suit := LastText(n.children, "SUIT");
      CardItem(s, n).value
      == if rank.Some? && suit.Some? then s.(targetCards := s.targetCards + [NewCard(rank, suit)]) else s
  {
    CardPartsAreLast(n.children);
  }

  method InterpretCard(cardNode: Node, ctx: ProblemContext) returns (r: Result<()>)
    modifies ctx
    ensures Reaches(r, ctx.Snapshot(), CardItem(old(ctx.Snapshot()), cardNode))
  {
    var cs := cardNode.children;
    var rank: Option<string> := None;
    var suit: Option<string> := None;
    var i := 0;
    while i < |cs|
      invariant 0 <= i <= |cs|
      invariant Fold(CardChild, CardParts(None, None), cs[..i]) == Ok(CardParts(rank, suit))
      invariant unchanged(ctx)
    {
      var child := cs[i];
      FoldStep(CardChild, CardParts(None, None), cs, i, CardParts(rank, suit));
      if child.kind == "RANK" {
        var t := AsString(child.value);
        if t.Err? {
          FoldErrSticks(CardChild, CardParts(None, None), cs, i + 1);
          return Err(t.msg);
        }
        rank := t.value;
      } else if child.kind == "SUIT" {
        var t := AsString(child.value);
        if t.Err? {
          FoldErrSticks(CardChild, CardParts(None, None), cs, i + 1);
          return Err(t.msg);
        }
        suit := t.value;
      }
      i := i + 1;
    }
    FoldDone(CardParts(None, None), CardChild, cs);
    if rank.Some? && suit.Some? {
      var card := NewCard(rank, suit);
      ctx.AddTargetCard(card);
    }
    r := Ok(());
  }

  datatype CountParts =
    CountParts(countType: Option<string>, countValue: Option<string>, operator: Option<string>, targetValue: Option<int>)

  function CountChild(p: CountParts, c: Node): Result<CountParts> {
    if c.kind == "COUNT_TYPE" then
      var t :- AsString(c.value);
      Ok(p.(countType := t))
    else if c.kind == "COUNT_VALUE" then
      var t :- AsString(c.value);
      Ok(p.(countValue := t))
    else if c.kind == "OPERATOR" then
      var t :- AsString(c.value);
      Ok(p.(operator := t))
    else if c.kind == "TARGET_VALUE" then
      var n :- AsInteger(c.value);
      Ok(p.(targetValue := n))
    else Ok(p)
  }

  predicate Complete(p: CountParts) {
    p.countType.Some? && p.countValue.Some? && p.operator.Some? && p.targetValue.Some?
  }

  /** `interpretCountCondition`: the condition is added only when all four parts are
      there; an incomplete one changes nothing. */
  function CountConditionItem(s: State, n: Node): (r: Result<State>)
    ensures r.Ok? ==>
      (r.value == s
       || (|r.value.countConditions| == |s.countConditions| + 1
           && r.value == s.(countConditions := r.value.countConditions)
           && r.value.countConditions[..|s.countConditions|] == s.countConditions))
  {
    var p :- Fold(CountChild, CountParts(None, None, None, None), n.children);
    Ok(if Complete(p) then
         var c := Context.CountCondition(p.countType.value, p.countValue.value, p.operator.value, p.targetValue.value);
         s.(countConditions := s.countConditions + [c])
       else s)
  }

  function LastInteger(cs: seq<Node>, k: string): Option<int> {
    match LastValue(cs, k)
    case Some(v) => IntegerOf(v)
    case None => None
  }

  /** Some child of kind `k` has a value an `(Integer)` cast refuses. */
  predicate BadInteger(cs: seq<Node>, k: string) {
    exists i :: 0 <= i < |cs| && cs[i].kind == k && AsInteger(cs[i].value).Err?
  }

  lemma BadIntegerSnoc(cs: seq<Node>, k: string)
    requires |cs| > 0
    ensures BadInteger(cs, k) <==>
      BadInteger(cs[..|cs| - 1], k) || (cs[|cs| - 1].kind == k && AsInteger(cs[|cs| - 1].value).Err?)
  {
    var init := cs[..|cs| - 1];
    if BadInteger(cs, k) {
      var i :| 0 <= i < |cs| && cs[i].kind == k && AsInteger(cs[i].value).Err?;
      if i < |init| {
        assert init[i] == cs[i];
      }
    }
    if BadInteger(init, k) {
      var i :| 0 <= i < |init| && init[i].kind == k && AsInteger(init[i].value).Err?;
      assert cs[i] == init[i];
    }
  }

  lemma LastSnoc(cs: seq<Node>, k: string)
    requires |cs| > 0
    ensures LastText(cs, k) == if cs[|cs| - 1].kind == k then TextOf(cs[|cs| - 1].value)
                               else LastText(cs[..|cs| - 1], k)
    ensures LastInteger(cs, k) == if cs[|cs| - 1].kind == k then IntegerOf(cs[|cs| - 1].value)
                                  else LastInteger(cs[..|cs| - 1], k)
  {
  }

  /** The loop over a count condition's children throws exactly when one of its parts
      has a value of the wrong class. */
  lemma {:induction false} CountPartsFail(cs: seq<Node>)
    ensures Fold(CountChild, CountParts(None, None, None, None), cs).Err?
      <==> BadText(cs, "COUNT_TYPE") || BadText(cs, "COUNT_VALUE") || BadText(cs, "OPERATOR")
           || BadInteger(cs, "TARGET_VALUE")
    decreases |cs|
  {
    if |cs| > 0 {
      CountPartsFail(cs[..|cs| - 1]);
      BadTextSnoc(cs, "COUNT_TYPE");
      BadTextSnoc(cs, "COUNT_VALUE");
      BadTextSnoc(cs, "OPERATOR");
      BadIntegerSnoc(cs, "TARGET_VALUE");
    }
  }

  /** When it does not throw, it keeps the last value of each part. */
  lemma {:induction false} CountPartsAreLast(cs: seq<Node>)
    ensures var r := Fold(CountChild, CountParts(None, None, None, None), cs);
      r.Ok? ==> r.value == CountParts(LastText(cs, "COUNT_TYPE"), LastText(cs, "COUNT_VALUE"),
                                      LastText(cs, "OPERATOR"), LastInteger(cs, "TARGET_VALUE"))
    decreases |cs|
  {
    if |cs| > 0 {
      CountPartsAreLast(cs[..|cs| - 1]);
      LastSnoc(cs, "COUNT_TYPE");
      LastSnoc(cs, "COUNT_VALUE");
      LastSnoc(cs, "OPERATOR");
      LastSnoc(cs, "TARGET_VALUE");
    }
  }

  /** A count condition is added exactly when its last COUNT_TYPE, COUNT_VALUE and
      OPERATOR are strings and its last TARGET_VALUE is an integer; otherwise the record
      is unchanged. */
  lemma CountConditionAddedWhenComplete(s: State, n: Node)
    requires CountConditionItem(s, n).Ok?
    ensures var cs := n.children;
      var p := CountParts(LastText(cs, "COUNT_TYPE"), LastText(cs, "COUNT_VALUE"),
                          LastText(cs, "OPERATOR"), LastInteger(cs, "TARGET_VALUE"));
      CountConditionItem(s, n).value
      == if Complete(p) then
           s.(countConditions := s.countConditions
                + [Context.CountCondition(p.countType.value, p.countValue.value, p.operator.value, p.targetValue.value)])
         else s
  {
    CountPartsAreLast(n.children);
  }

  method InterpretCountCondition(node: Node, ctx: ProblemContext) returns (r: Result<()>)
    modifies ctx
    ensures Reaches(r, ctx.Snapshot(), CountConditionItem(old(ctx.Snapshot()), node))
  {
    var cs := node.children;
    var countType: Option<string> := None;
    var countValue: Option<string> := None;
    var operator: Option<string> := None;
    var targetValue: Option<int> := None;
    ghost var p0 := CountParts(None, None, None, None);
    var i := 0;
    while i < |cs|
      invariant 0 <= i <= |cs|
      invariant Fold(CountChild, p0, cs[..i]) == Ok(CountParts(countType, countValue, operator, targetValue))
      invariant unchanged(ctx)
    {
      var child := cs[i];
      FoldStep(CountChild, p0, cs, i, CountParts(countType, countValue, operator, targetValue));
      if child.kind == "COUNT_TYPE" {
        var t := AsString(child.value);
        if t.Err? {
          FoldErrSticks(CountChild, p0, cs, i + 1);
          return Err(t.msg);
        }
        countType := t.value;
      } else if child.kind == "COUNT_VALUE" {
        var t := AsString(child.value);
        if t.Err? {
          FoldErrSticks(CountChild, p0, cs, i + 1);
          return Err(t.msg);
        }
        countValue := t.value;
      } else if child.kind == "OPERATOR" {
        var t := AsString(child.value);
        if t.Err? {
          FoldErrSticks(CountChild, p0, cs, i + 1);
          return Err(t.msg);
        }
        operator := t.value;
      } else if child.kind == "TARGET_VALUE" {
        var n := AsInteger(child.value);
        if n.Err? {
          FoldErrSticks(CountChild, p0, cs, i + 1);
          return Err(n.msg);
        }
        targetValue := n.value;
      }
      i := i + 1;
    }
    FoldDone(p0, CountChild, cs);
    if countType.Some? && countValue.Some? && operator.Some? && targetValue.Some? {
      var condition := Context.CountCondition(countType.value, countValue.value, operator.value, targetValue.value);
      ctx.AddCountCondition(condition);
    }
    r := Ok(());
  }

  /** A condition inside a target is a word condition and a general condition. */
  function WordConditionChild(s: State, c: Node): Result<State> {
    if c.kind == "CONDITION_TYPE" then
      var t :- AsString(c.value);
      Ok(s.(wordConditions := s.wordConditions + [t], generalConditions := s.generalConditions + [t]))
    else Ok(s)
  }

  function WordCondition(s: State, n: Node): Result<State> {
    Fold(WordConditionChild, s, n.children)
  }

  /** `interpretWordCondition`. */
  method InterpretWordCondition(node: Node, ctx: ProblemContext) returns (r: Result<()>)
    modifies ctx
    ensures Reaches(r, ctx.Snapshot(), WordCondition(old(ctx.Snapshot()), node))
  {
    ghost var s0 := ctx.Snapshot();
    var cs := node.children;
    var i := 0;
    while i < |cs|
      invariant 0 <= i <= |cs|
      invariant Fold(WordConditionChild, s0, cs[..i]) == Ok(ctx.Snapshot())
    {
      ghost var before := ctx.Snapshot();
      r := WordConditionChildStep(cs[i], ctx);
      if r.Err? {
        FoldStopsAt(WordConditionChild, s0, cs, i, before);
        return;
      }
      FoldStep(WordConditionChild, s0, cs, i, before);
      i := i + 1;
    }
    FoldDone(s0, WordConditionChild, cs);
    r := Ok(());
  }

  method WordConditionChildStep(child: Node, ctx: ProblemContext) returns (r: Result<()>)
    modifies ctx
    ensures Reaches(r, ctx.Snapshot(), WordConditionChild(old(ctx.Snapshot()), child))
  {
    r := Ok(());
    if child.kind == "CONDITION_TYPE" {
      var condition := AsString(child.value);
      if condition.Err? {
        return Err(condition.msg);
      }
      ctx.AddWordCondition(condition.value);
      ctx.AddGeneralCondition(condition.value);
    }
  }

  /** `interpretTargetItem`: cards, count conditions and word conditions; any other item
      is skipped. */
  function TargetItem(s: State, item: Node): Result<State> {
    if item.kind == "CARD" then CardItem(s, item)
    else if item.kind == "COUNT_CONDITION" then CountConditionItem(s, item)
    else if item.kind == "CONDITION" then WordCondition(s, item)
    else Ok(s)
  }

  method InterpretTargetItem(item: Node, ctx: ProblemContext) returns (r: Result<()>)
    modifies ctx
    ensures Reaches(r, ctx.Snapshot(), TargetItem(old(ctx.Snapshot()), item))
  {
    if item.kind == "CARD" {
      r := InterpretCard(item, ctx);
    } else if item.kind == "COUNT_CONDITION" {
      r := InterpretCountCondition(item, ctx);
    } else if item.kind == "CONDITION" {
      r := InterpretWordCondition(item, ctx);
    } else {
      r := Ok(());
    }
  }

  /** `interpretTargetDeclaration`: only the first child counts; a TARGET_LIST has its
      items interpreted in order, anything else is one item. */
  function TargetDeclaration(s: State, n: Node): Result<State> {
    if |n.children| == 0 then Ok(s)
    else if n.children[0].kind == "TARGET_LIST" then Fold(TargetItem, s, n.children[0].children)
    else TargetItem(s, n.children[0])
  }

  method InterpretTargetDeclaration(node: Node, ctx: ProblemContext) returns (r: Result<()>)
    modifies ctx
    ensures Reaches(r, ctx.Snapshot(), TargetDeclaration(old(ctx.Snapshot()), node))
  {
    if |node.children| == 0 {
      return Ok(());
    }
    var targetNode := node.children[0];
    if targetNode.kind == "TARGET_LIST" {
      ghost var s0 := ctx.Snapshot();
      var cs := targetNode.children;
      var i := 0;
      while i < |cs|
        invariant 0 <= i <= |cs|
        invariant Fold(TargetItem, s0, cs[..i]) == Ok(ctx.Snapshot())
      {
        ghost var before := ctx.Snapshot();
        r := InterpretTargetItem(cs[i], ctx);
        if r.Err? {
          FoldStopsAt(TargetItem, s0, cs, i, before);
          return;
        }
        FoldStep(TargetItem, s0, cs, i, before);
        i := i + 1;
      }
      FoldDone(s0, TargetItem, cs);
      r := Ok(());
    } else {
      r := InterpretTargetItem(targetNode, ctx);
    }
  }
}
