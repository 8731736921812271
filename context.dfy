/** The problem record the interpreter fills in: typed fields for each kind of problem,
    a few lists the interpreter appends to, and a map of named parameters that the
    renderers read. */
module Context {
  import opened Wrappers
  import opened JavaText
  import opened JavaMaps
  import opened Ast
  import opened ProblemTypes
  import opened Cards

  /** `ProblemContext.CountCondition`: a complete `COUNT(...)` condition. */
  datatype CountCondition =
    CountCondition(countType: string, countValue: string, operator: string, targetValue: int)

  /** The value of every field of a `ProblemContext`; `None` is a `null` reference. */
  datatype State = State(    problemType: Option<ProblemType>,
    taskName: Option<string>,
    calculationType: Option<string>,
    deckType: Option<string>,
    deckSize: int,
    targetCard: Option<Card>,
    targetCards: seq<Card>,
    drawCount: int,
    withReplacement: bool,
    alphabet: Option<string>,
    wordLength: int,
    uniqueLetters: bool,
    wordConditions: seq<Option<string>>,
    boardHeight: int,
    boardWidth: int,
    pieces: map<string, int>,
    attacking: bool,
    dividend: Option<string>,
    divisor: int,
    remainder: int,
    numberLength: int,
    transformations: seq<Option<string>>,
    divisibilityCondition: Option<string>,
    urnContents: map<string, int>,
    sequentialDraw: bool,
    ballDrawCount: int,
    unknowns: int,
    coefficients: seq<int>,
    sum: int,
    domain: Option<string>,
    constraints: seq<Option<string>>,
    digits: int,
    distinctDigits: bool,
    adjacentDifferent: bool,
    numberOrder: Option<string>,
    generalConditions: seq<Option<string>>,
    countConditions: seq<CountCondition>,
    params: map<string, Value>  )

  /** The field initialisers: an 8x8 board, unique letters, draws without replacement and
      one after another, no attacking, every list and map empty, and Java's zero and
      `null` elsewhere. */
  const Defaults: State := State(    None,
    None,
    None,
    None,
    0,
    None,
    [],
    0,
    false,
    None,
    0,
    true,
    [],
    8,
    8,
    map[],
    false,
    None,
    0,
    0,
    0,
    [],
    None,
    map[],
    true,
    0,
    0,
    [],
    0,
    None,
    [],
    0,
    false,
    false,
    None,
    [],
    [],
    map[]  )

  class ProblemContext {
    var problemType: Option<ProblemType>
    var taskName: Option<string>
    var calculationType: Option<string>
    var deckType: Option<string>
    var deckSize: int
    var targetCard: Option<Card>
    var targetCards: seq<Card>
    var drawCount: int
    var withReplacement: bool
    var alphabet: Option<string>
    var wordLength: int
    var uniqueLetters: bool
    var wordConditions: seq<Option<string>>
    var boardHeight: int
    var boardWidth: int
    var pieces: map<string, int>
    var attacking: bool
    var dividend: Option<string>
    var divisor: int
    var remainder: int
    var numberLength: int
    var transformations: seq<Option<string>>
    var divisibilityCondition: Option<string>
    var urnContents: map<string, int>
    var sequentialDraw: bool
    var ballDrawCount: int
    var unknowns: int
    var coefficients: seq<int>
    var sum: int
    var domain: Option<string>
    var constraints: seq<Option<string>>
    var digits: int
    var distinctDigits: bool
    var adjacentDifferent: bool
    var numberOrder: Option<string>
    var generalConditions: seq<Option<string>>
    var countConditions: seq<CountCondition>
    var params: map<string, Value>

    /** All fields at once. */
    function Snapshot(): State
      reads this
    {
      State(problemType, taskName, calculationType, deckType, deckSize, targetCard, targetCards, drawCount, withReplacement, alphabet, wordLength, uniqueLetters, wordConditions, boardHeight, boardWidth, pieces, attacking, dividend, divisor, remainder, numberLength, transformations, divisibilityCondition, urnContents, sequentialDraw, ballDrawCount, unknowns, coefficients, sum, domain, constraints, digits, distinctDigits, adjacentDifferent, numberOrder, generalConditions, countConditions, params)
    }

    /** `new ProblemContext()`. */
    constructor()
      ensures Snapshot() == Defaults
    {
      problemType := None;
      taskName := None;
      calculationType := None;
      deckType := None;
      deckSize := 0;
      targetCard := None;
      targetCards := [];
      drawCount := 0;
      withReplacement := false;
      alphabet := None;
      wordLength := 0;
      uniqueLetters := true;
      wordConditions := [];
      boardHeight := 8;
      boardWidth := 8;
      pieces := map[];
      attacking := false;
      dividend := None;
      divisor := 0;
      remainder := 0;
      numberLength := 0;
      transformations := [];
      divisibilityCondition := None;
      urnContents := map[];
      sequentialDraw := true;
      ballDrawCount := 0;
      unknowns := 0;
      coefficients := [];
      sum := 0;
      domain := None;
      constraints := [];
      digits := 0;
      distinctDigits := false;
      adjacentDifferent := false;
      numberOrder := None;
      generalConditions := [];
      countConditions := [];
      params := map[];
    }

    method SetProblemType(v: Option<ProblemType>)
      modifies this
      ensures Snapshot() == old(Snapshot()).(problemType := v)
    {
      problemType := v;
    }

    method SetTaskName(v: Option<string>)
      modifies this
      ensures Snapshot() == old(Snapshot()).(taskName := v)
    {
      taskName := v;
    }

    method SetCalculationType(v: Option<string>)
      modifies this
      ensures Snapshot() == old(Snapshot()).(calculationType := v)
    {
      calculationType := v;
    }

    method SetDeckType(v: Option<string>)
      modifies this
      ensures Snapshot() == old(Snapshot()).(deckType := v)
    {
      deckType := v;
    }

    method SetDeckSize(v: int)
      modifies this
      ensures Snapshot() == old(Snapshot()).(deckSize := v)
    {
      deckSize := v;
    }

    method SetTargetCard(v: Option<Card>)
      modifies this
      ensures Snapshot() == old(Snapshot()).(targetCard := v)
    {
      targetCard := v;
    }

    method SetTargetCards(v: seq<Card>)
      modifies this
      ensures Snapshot() == old(Snapshot()).(targetCards := v)
    {
      targetCards := v;
    }

    method SetDrawCount(v: int)
      modifies this
      ensures Snapshot() == old(Snapshot()).(drawCount := v)
    {
      drawCount := v;
    }

    method SetWithReplacement(v: bool)
      modifies this
      ensures Snapshot() == old(Snapshot()).(withReplacement := v)
    {
      withReplacement := v;
    }

    method SetAlphabet(v: Option<string>)
      modifies this
      ensures Snapshot() == old(Snapshot()).(alphabet := v)
    {
      alphabet := v;
    }

    method SetWordLength(v: int)
      modifies this
      ensures Snapshot() == old(Snapshot()).(wordLength := v)
    {
      wordLength := v;
    }

    method SetUniqueLetters(v: bool)
      modifies this
      ensures Snapshot() == old(Snapshot()).(uniqueLetters := v)
    {
      uniqueLetters := v;
    }

    method SetWordConditions(v: seq<Option<string>>)
      modifies this
      ensures Snapshot() == old(Snapshot()).(wordConditions := v)
    {
      wordConditions := v;
    }

    method SetBoardHeight(v: int)
      modifies this
      ensures Snapshot() == old(Snapshot()).(boardHeight := v)
    {
      boardHeight := v;
    }

    method SetBoardWidth(v: int)
      modifies this
      ensures Snapshot() == old(Snapshot()).(boardWidth := v)
    {
      boardWidth := v;
    }

    method SetPieces(v: map<string, int>)
      modifies this
      ensures Snapshot() == old(Snapshot()).(pieces := v)
    {
      pieces := v;
    }

    method SetAttacking(v: bool)
      modifies this
      ensures Snapshot() == old(Snapshot()).(attacking := v)
    {
      attacking := v;
    }

    method SetDividend(v: Option<string>)
      modifies this
      ensures Snapshot() == old(Snapshot()).(dividend := v)
    {
      dividend := v;
    }

    method SetDivisor(v: int)
      modifies this
      ensures Snapshot() == old(Snapshot()).(divisor := v)
    {
      divisor := v;
    }

    method SetRemainder(v: int)
      modifies this
      ensures Snapshot() == old(Snapshot()).(remainder := v)
    {
      remainder := v;
    }

    method SetNumberLength(v: int)
      modifies this
      ensures Snapshot() == old(Snapshot()).(numberLength := v)
    {
      numberLength := v;
    }

    method SetTransformations(v: seq<Option<string>>)
      modifies this
      ensures Snapshot() == old(Snapshot()).(transformations := v)
    {
      transformations := v;
    }

    method SetDivisibilityCondition(v: Option<string>)
      modifies this
      ensures Snapshot() == old(Snapshot()).(divisibilityCondition := v)
    {
      divisibilityCondition := v;
    }

    method SetUrnContents(v: map<string, int>)
      modifies this
      ensures Snapshot() == old(Snapshot()).(urnContents := v)
    {
      urnContents := v;
    }

    method SetSequentialDraw(v: bool)
      modifies this
      ensures Snapshot() == old(Snapshot()).(sequentialDraw := v)
    {
      sequentialDraw := v;
    }

    method SetBallDrawCount(v: int)
      modifies this
      ensures Snapshot() == old(Snapshot()).(ballDrawCount := v)
    {
      ballDrawCount := v;
    }

    method SetUnknowns(v: int)
      modifies this
      ensures Snapshot() == old(Snapshot()).(unknowns := v)
    {
      unknowns := v;
    }

    method SetCoefficients(v: seq<int>)
      modifies this
      ensures Snapshot() == old(Snapshot()).(coefficients := v)
    {
      coefficients := v;
    }

    method SetSum(v: int)
      modifies this
      ensures Snapshot() == old(Snapshot()).(sum := v)
    {
      sum := v;
    }

    method SetDomain(v: Option<string>)
      modifies this
      ensures Snapshot() == old(Snapshot()).(domain := v)
    {
      domain := v;
    }

    method SetConstraints(v: seq<Option<string>>)
      modifies this
      ensures Snapshot() == old(Snapshot()).(constraints := v)
    {
      constraints := v;
    }

    method SetDigits(v: int)
      modifies this
      ensures Snapshot() == old(Snapshot()).(digits := v)
    {
      digits := v;
    }

    method SetDistinctDigits(v: bool)
      modifies this
      ensures Snapshot() == old(Snapshot()).(distinctDigits := v)
    {
      distinctDigits := v;
    }

    method SetAdjacentDifferent(v: bool)
      modifies this
      ensures Snapshot() == old(Snapshot()).(adjacentDifferent := v)
    {
      adjacentDifferent := v;
    }

    method SetNumberOrder(v: Option<string>)
      modifies this
      ensures Snapshot() == old(Snapshot()).(numberOrder := v)
    {
      numberOrder := v;
    }

    /** `addWordCondition`: appended at the end, earlier conditions kept. */
    method AddWordCondition(c: Option<string>)
      modifies this
      ensures Snapshot() == old(Snapshot()).(wordConditions := old(wordConditions) + [c])
    {
      wordConditions := wordConditions + [c];
    }

    /** `addGeneralCondition`, which the interpreter calls and which is modelled like
        `addWordCondition`. */
    method AddGeneralCondition(c: Option<string>)
      modifies this
      ensures Snapshot() == old(Snapshot()).(generalConditions := old(generalConditions) + [c])
    {
      generalConditions := generalConditions + [c];
    }

    method AddCountCondition(c: CountCondition)
      modifies this
      ensures Snapshot() == old(Snapshot()).(countConditions := old(countConditions) + [c])
    {
      countConditions := countConditions + [c];
    }

    method AddConstraint(c: Option<string>)
      modifies this
      ensures Snapshot() == old(Snapshot()).(constraints := old(constraints) + [c])
    {
      constraints := constraints + [c];
    }

    /** `getTargetCards().add(card)`. */
    method AddTargetCard(c: Card)
      modifies this
      ensures Snapshot() == old(Snapshot()).(targetCards := old(targetCards) + [c])
    {
      targetCards := targetCards + [c];
    }

    /** `getPieces().putAll(m)`: the entries of `m` replace those with the same key. */
    method PutAllPieces(m: map<string, int>)
      modifies this
      ensures Snapshot() == old(Snapshot()).(pieces := old(pieces) + m)
    {
      pieces := pieces + m;
    }

    /** `setAdditionalParam(key, value)`; the interpreter's `setParameter` is taken to be
        this method. */
    method SetAdditionalParam(key: string, v: Value)
      modifies this
      ensures Snapshot() == old(Snapshot()).(params := old(params)[key := v])
    {
      params := params[key := v];
    }

    /** `getAdditionalParam(key)`: the value stored under `key`, `None` when there is
        none. */
    function GetAdditionalParam(key: string): (r: Option<Value>)
      reads this
      ensures r.Some? <==> key in params
      ensures r.Some? ==> r.value == params[key]
    {
      if key in params then Some(params[key]) else None
    }

    /** `getIntParameter(key)`: an `int` as it is, a numeric string parsed, and 0 for a
        missing key, any other value or a string that is not a number. */
    function GetIntParameter(key: string): (r: int)
      reads this
      ensures key in params && params[key].IntV? ==> r == params[key].i
      ensures key in params && params[key].StrV? && ParseInt(params[key].s).Some?
        ==> r == ParseInt(params[key].s).value
      ensures key !in params ==> r == 0
      ensures key in params && !params[key].IntV? && !params[key].StrV? ==> r == 0
    {
      IntParam(params, key)
    }

    /** `toString`. */
    ghost function ToString(): (r: string)
      reads this
      ensures "Task: " <= r
      ensures var shown := if calculationType.Some? then calculationType.value else "Unknown";
        |shown| < |r| && r[|r| - |shown|..] == shown
    {
      Describe(Snapshot())
    }
  }

  /** `getAdditionalParam(k)` after `setAdditionalParam(k, v)` is `v`, and every other key
      reads as before. */
  lemma SetThenGet(c: ProblemContext, k: string, j: string, v: Value, before: map<string, Value>)
    requires c.params == before[k := v]
    ensures c.GetAdditionalParam(k) == Some(v)
    ensures j != k ==> c.GetAdditionalParam(j) == (if j in before then Some(before[j]) else None)
  {
  }

  // ---------------------------------------------------------------- printing

  /** The value `getIntParameter` reads from a parameter map. */
  function IntParam(p: map<string, Value>, key: string): int {
    if key !in p then 0
    else match p[key]
      case IntV(i) => i
      case StrV(t) => ParseInt(t).GetOr(0)
      case _ => 0
  }

  function YesNo(b: bool): string {
    if b then "yes" else "no"
  }

  /** `String.format`'s `%s` of a `List<String>`. */
  function OptListText(items: seq<Option<string>>): string {
    "[" + Join(OptTexts(items), ", ") + "]"
  }

  function OptTexts(items: seq<Option<string>>): (r: seq<string>)
    ensures |r| == |items|
    decreases |items|
  {
    if |items| == 0 then [] else [Text(items[0])] + OptTexts(items[1..])
  }

  function CardsText(cs: seq<Card>): string {
    "[" + Join(CardTexts(cs), ", ") + "]"
  }

  function CardTexts(cs: seq<Card>): (r: seq<string>)
    ensures |r| == |cs|
    decreases |cs|
  {
    if |cs| == 0 then [] else [Cards.ToString(cs[0])] + CardTexts(cs[1..])
  }

  function IntsText(xs: seq<int>): string {
    "[" + Join(IntTexts(xs), ", ") + "]"
  }

  function IntTexts(xs: seq<int>): (r: seq<string>)
    ensures |r| == |xs|
    decreases |xs|
  {
    if |xs| == 0 then [] else [IntToString(xs[0])] + IntTexts(xs[1..])
  }

  /** The opening of `toString`: the display name of the type and the task name, or
      `Unknown` and `Unnamed` when they are null. */
  function Header(s: State): string {
    "Task: " + (if s.problemType.Some? then s.problemType.value.DisplayName() else "Unknown")
    + " '" + (if s.taskName.Some? then s.taskName.value else "Unnamed") + "'"
  }

  /** The part of `toString` that belongs to one type: its label, then its fields. */
  ghost function Section(t: ProblemType, s: State): string {
    SectionLabel(t) + SectionFields(t, s)
  }

  /** The label a section starts with. */
  function SectionLabel(t: ProblemType): string {
    match t
    case Cards => ", Deck: "
    case Words => ", Alphabet: "
    case Chess => ", Board: "
    case Remainders => ", Dividend: "
    case Divisibility => ", Number Length: "
    case BallsAndUrns => ", Urn: "
    case Equations => ", Unknowns: "
    case Numbers => ", Digits: "
  }

  ghost function SectionFields(t: ProblemType, s: State): string {
    match t
    case Cards =>
      Text(s.deckType) + " (" + IntToString(s.deckSize) + " cards), Draws: "
      + IntToString(s.drawCount) + " ("
      + (if s.withReplacement then "with replacement" else "no replacement") + "), Target: "
      + (if |s.targetCards| == 0 then
           (if s.targetCard.Some? then Cards.ToString(s.targetCard.value) else "None")
         else CardsText(s.targetCards))
    case Words =>
      Text(s.alphabet) + ", Length: " + IntToString(s.wordLength)
      + ", Unique: " + YesNo(s.uniqueLetters) + ", Conditions: " + OptListText(s.wordConditions)
    case Chess =>
      IntToString(s.boardHeight) + "x" + IntToString(s.boardWidth) + ", Pieces: "
      + MapText(s.pieces) + ", Condition: " + (if s.attacking then "attacking" else "non-attacking")
    case Remainders =>
      Text(s.dividend) + ", Divisor: " + IntToString(s.divisor)
      + ", Remainder: " + IntToString(s.remainder)
    case Divisibility =>
      IntToString(s.numberLength) + ", Transformations: "
      + OptListText(s.transformations) + ", Condition: " + Text(s.divisibilityCondition)
    case BallsAndUrns =>
      MapText(s.urnContents) + ", Draw: "
      + (if s.sequentialDraw then "sequential" else "simultaneous") + ", Count: "
      + IntToString(s.ballDrawCount)
    case Equations =>
      IntToString(s.unknowns) + ", Coefficients: " + IntsText(s.coefficients)
      + ", Sum: " + IntToString(s.sum) + ", Domain: " + Text(s.domain) + ", Constraints: "
      + OptListText(s.constraints)
    case Numbers =>
      IntToString(s.digits) + ", Distinct: " + YesNo(s.distinctDigits)
      + ", Adjacent Different: " + YesNo(s.adjacentDifferent) + ", Order: " + Text(s.numberOrder)
  }

  function Footer(s: State): string {
    ", Calculate: " + (if s.calculationType.Some? then s.calculationType.value else "Unknown")
  }

  /** `ProblemContext.toString`. */
  ghost function Describe(s: State): (r: string)
    ensures "Task: " <= r
    ensures |Footer(s)| <= |r| && r[|r| - |Footer(s)|..] == Footer(s)
  {
    Header(s) + (if s.problemType.Some? then Section(s.problemType.value, s) else "") + Footer(s)
  }

  /** `toString` is the header, then exactly the one section of the record's type, which
      opens with that type's label, then the calculation; a record with no type has no
      section. */
  lemma DescribeHasOneSection(s: State)
    ensures s.problemType.None? ==> Describe(s) == Header(s) + Footer(s)
    ensures s.problemType.Some? ==>
      Describe(s) == Header(s) + SectionLabel(s.problemType.value)
        + SectionFields(s.problemType.value, s) + Footer(s)
  {
  }

  /** Different types open their sections with different labels. */
  lemma SectionLabelsDiffer(t: ProblemType, u: ProblemType)
    requires t != u
    ensures SectionLabel(t) != SectionLabel(u)
  {
  }

  /** With no type and no name the record prints `Unknown` and `Unnamed`. */
  lemma HeaderWhenUnset(s: State)
    requires s.problemType.None? && s.taskName.None?
    ensures Header(s) == "Task: Unknown 'Unnamed'"
  {
  }
}
