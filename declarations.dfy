/** The declarations the parser builds, stated on a token list and a position: each
    declaration from the token after its keyword, the target lists, the blocks of numbers,
    divisibility, remainders and chess attributes, what each route of the top-level loop
    yields, and the program that loop builds. The class `Parser.Parser` is proved against
    these definitions. */
module Declarations {
  import opened Wrappers
  import opened JavaText
  import opened Tokens
  import opened Ast
  import opened Grammar

  /** A declaration that cannot throw, as an outcome. */
  function Returned(r: (Node, int)): (o: Outcome<Node>)
    ensures o == Done(r.0, r.1)
  {
    Done(r.0, r.1)
  }

  // ---------------------------------------------------------------- simple declarations

  /** `parseTaskDeclaration` from `p`: the task type as written and the unquoted name, or ""
      when no name follows; without a task type, a declaration without children. */
  function TaskAt(ts: seq<Token>, p: int): (r: (Node, int))
    requires WellEnded(ts) && 0 <= p < |ts|
    ensures p <= r.1 < |ts|
  {
    if At(ts, p, TaskKinds) then
      (Node("TASK_DECLARATION", Null,
            [WithValue("TASK_TYPE", StrV(ts[p].value)),
             WithValue("TASK_NAME", StrV(StringAt(ts, p + 1, "")))]),
       Past(ts, p + 1, {String}))
    else (Leaf("TASK_DECLARATION"), p)
  }

  /** `parseAlphabetDeclaration`: the unquoted string, when one follows. */
  function AlphabetAt(ts: seq<Token>, p: int): (r: (Node, int))
    requires WellEnded(ts) && 0 <= p < |ts|
    ensures p <= r.1 < |ts|
  {
    (Node("ALPHABET_DECLARATION", Null,
          ChildIf(At(ts, p, {String}), WithValue("ALPHABET", StrV(StringAt(ts, p, ""))))),
     Past(ts, p, {String}))
  }

  /** A declaration holding at most one integer: `parseLengthDeclaration`,
      `parseUnknownsDeclaration` and `parseSumDeclaration`. */
  function OptionalIntAt(ts: seq<Token>, p: int, kind: string, child: string): (r: Outcome<Node>)
    requires WellEnded(ts) && 0 <= p < |ts|
    ensures p <= r.Pos() < |ts|
  {
    match IntAt(ts, p)
    case Err(e) => Thrown(e, Past(ts, p, {Integer}))
    case Ok(v) => Done(Node(kind, Null, IntChild(child, v)), Past(ts, p, {Integer}))
  }

  /** `parseUniqueDeclaration`: a BOOLEAN gives whether it says yes; ALLOW_DUPLICATES, which
      is consumed, and nothing at all give false. */
  function UniqueAt(ts: seq<Token>, p: int): (r: (Node, int))
    requires WellEnded(ts) && 0 <= p < |ts|
    ensures p <= r.1 < |ts|
  {
    (Node("UNIQUE_DECLARATION", Null,
          [WithValue("UNIQUE", BoolV(At(ts, p, {Boolean}) && IsYes(ts[p].value)))]),
     Past(ts, p, {Boolean, AllowDuplicates}))
  }

  /** `parseCondition`: a string condition unquoted, or the run of tokens up to the next
      command or semicolon joined and trimmed; nothing when neither follows. */
  function ConditionAt(ts: seq<Token>, p: int): (r: (Node, int))
    requires WellEnded(ts) && 0 <= p < |ts|
    ensures p <= r.1 < |ts|
  {
    if At(ts, p, {String}) then
      (Node("CONDITION", Null, [WithValue("CONDITION_EXPR", StrV(Unquote(ts[p].value)))]), p + 1)
    else
      (Node("CONDITION", Null,
            ChildIf(Continues(ts, p), WithValue("CONDITION_EXPR", StrV(Trim(RunFrom(ts, p).0))))),
       RunFrom(ts, p).1)
  }

  /** `parseDeckDeclaration`: the deck type or STANDARD, then the size or 52. */
  function DeckAt(ts: seq<Token>, p: int): (r: Outcome<Node>)
    requires WellEnded(ts) && 0 <= p < |ts|
    ensures p <= r.Pos() < |ts|
  {
    var q := Past(ts, p, DeckKinds);
    match IntAt(ts, q)
    case Err(e) => Thrown(e, Past(ts, q, {Integer}))
    case Ok(size) =>
      Done(Node("DECK_DECLARATION", Null,
                [WithValue("DECK_TYPE", StrV(TextOr(ts, p, DeckKinds, "STANDARD"))),
                 WithValue("DECK_SIZE", IntV(size.GetOr(52)))]),
           Past(ts, q, {Integer}))
  }

  /** `parseDrawDeclaration`: the count or 1, then the replacement mode or NO_REPLACEMENT. */
  function DrawAt(ts: seq<Token>, p: int): (r: Outcome<Node>)
    requires WellEnded(ts) && 0 <= p < |ts|
    ensures p <= r.Pos() < |ts|
  {
    var q := Past(ts, p, {Integer});
    match IntAt(ts, p)
    case Err(e) => Thrown(e, q)
    case Ok(count) =>
      Done(Node("DRAW_DECLARATION", Null,
                [WithValue("DRAW_COUNT", IntV(count.GetOr(1))),
                 WithValue("REPLACEMENT", StrV(TextOr(ts, q, ReplacementKinds, "NO_REPLACEMENT")))]),
           Past(ts, q, ReplacementKinds))
  }

  /** `parseCalculate`: the calculation type or PROBABILITY. */
  function CalculateAt(ts: seq<Token>, p: int): (r: (Node, int))
    requires WellEnded(ts) && 0 <= p < |ts|
    ensures p <= r.1 < |ts|
  {
    (Node("CALCULATE", Null,
          [WithValue("CALCULATION_TYPE", StrV(TextOr(ts, p, CalculationKinds, "PROBABILITY")))]),
     Past(ts, p, CalculationKinds))
  }

  /** `parseDomainDeclaration`: the unquoted string, when one follows. */
  function DomainAt(ts: seq<Token>, p: int): (r: (Node, int))
    requires WellEnded(ts) && 0 <= p < |ts|
    ensures p <= r.1 < |ts|
  {
    (Node("DOMAIN_DECLARATION", Null,
          ChildIf(At(ts, p, {String}), WithValue("DOMAIN", StrV(StringAt(ts, p, ""))))),
     Past(ts, p, {String}))
  }

  /** `parseConstraintsDeclaration`: after `[`, the string constraints up to `]`, the other
      tokens skipped; without `[`, at most one string constraint. */
  function ConstraintsAt(ts: seq<Token>, p: int): (r: (Node, int))
    requires WellEnded(ts) && 0 <= p < |ts|
    ensures p <= r.1 < |ts|
  {
    if At(ts, p, {Lbracket}) then
      var l := ConstraintsFrom(ts, p + 1);
      (Node("CONSTRAINTS_DECLARATION", Null, ConstraintNodes(l.0)), Past(ts, l.1, {Rbracket}))
    else
      (Node("CONSTRAINTS_DECLARATION", Null,
            ChildIf(At(ts, p, {String}), WithValue("CONSTRAINT", StrV(StringAt(ts, p, ""))))),
       Past(ts, p, {String}))
  }

  // ---------------------------------------------------------------- targets

  /** `parseSingleCard`: a rank (letter ranks spelled out) or an integer, then a suit (letter
      suits spelled out). A missing rank throws at `p`, a missing suit after the rank. */
  function SingleCardAt(ts: seq<Token>, p: int): (r: Outcome<Node>)
    requires WellEnded(ts) && 0 <= p < |ts|
    ensures p <= r.Pos() < |ts|
    ensures r.Done? <==> At(ts, p, RankKinds + {Integer}) && At(ts, p + 1, SuitKinds)
    ensures r.Done? ==> r.next == p + 2
  {
    if !At(ts, p, RankKinds + {Integer}) then Thrown("RuntimeException", p)
    else if !At(ts, p + 1, SuitKinds) then Thrown("RuntimeException", p + 1)
    else
      Done(Node("CARD", Null,
                [WithValue("RANK", StrV(RankText(ts[p]))),
                 WithValue("SUIT", StrV(NormalizeSuit(ts[p + 1].value)))]),
           p + 2)
  }

  /** `parseSingleCondition`: a word condition, an unquoted string, or any other token
      except EOF, `]` and `,`, whose text becomes the condition; at those three it throws. */
  function SingleConditionAt(ts: seq<Token>, p: int): (r: Outcome<Node>)
    requires WellEnded(ts) && 0 <= p < |ts|
    ensures p <= r.Pos() < |ts|
    ensures r.Thrown? <==> ts[p].kind in {Eof, Rbracket, Comma}
    ensures r.Thrown? ==> r.at == p
    ensures r.Done? ==> r.next == p + 1
  {
    if ts[p].kind in {Eof, Rbracket, Comma} then Thrown("RuntimeException", p)
    else
      Done(Node("CONDITION", Null,
                [WithValue("CONDITION_TYPE",
                           StrV(if At(ts, p, {String}) then Unquote(ts[p].value) else ts[p].value))]),
           p + 1)
  }

  /** The choice `parseTargetDeclaration` and `parseTargetList` make for each target: a card
      when a rank and a suit follow, a COUNT condition after `COUNT (`, a single condition
      otherwise. */
  function TargetItemAt(ts: seq<Token>, p: int): (r: Outcome<Node>)
    requires WellEnded(ts) && 0 <= p < |ts|
    ensures p <= r.Pos() < |ts|
    ensures r.Done? ==> r.next > p
  {
    if CardAhead(ts, p) then SingleCardAt(ts, p)
    else if CountAhead(ts, p) then CountConditionAt(ts, p, false)
    else SingleConditionAt(ts, p)
  }

  /** The loop of `parseTargetList` from `p`: the targets up to `]` or EOF, each followed by
      an optional comma, ending at the first target that throws; and where it stops. */
  function TargetsFrom(ts: seq<Token>, p: int): (r: (seq<Node>, int))
    requires WellEnded(ts) && 0 <= p < |ts|
    ensures p <= r.1 < |ts|
    decreases |ts| - p
  {
    if ts[p].kind in {Eof, Rbracket} then ([], p)
    else
      match TargetItemAt(ts, p)
      case Thrown(_, q) => ([], q)
      case Done(n, q) =>
        var rest := TargetsFrom(ts, Past(ts, q, {Comma}));
        ([n] + rest.0, rest.1)
  }

  /** `parseTargetList` after its `[`: the list of targets, then the `]` when it is there. */
  function TargetListAt(ts: seq<Token>, p: int): (r: (Node, int))
    requires WellEnded(ts) && 0 <= p < |ts|
    ensures p <= r.1 < |ts|
  {
    var l := TargetsFrom(ts, p);
    (Node("TARGET_LIST", Null, l.0), Past(ts, l.1, {Rbracket}))
  }

  /** The first position from `p` on that is EOF or a command keyword. */
  function CommandFrom(ts: seq<Token>, p: int): (q: int)
    requires WellEnded(ts) && 0 <= p < |ts|
    ensures p <= q < |ts| && (ts[q].kind == Eof || At(ts, q, CommandKinds))
    decreases |ts| - p
  {
    if ts[p].kind == Eof || At(ts, p, CommandKinds) then p else CommandFrom(ts, p + 1)
  }

  /** `parseTargetDeclaration`: a bracketed list, or one target; when that one throws, the
      tokens up to the next command are skipped and the declaration stays empty. */
  function TargetAt(ts: seq<Token>, p: int): (r: (Node, int))
    requires WellEnded(ts) && 0 <= p < |ts|
    ensures p <= r.1 < |ts|
  {
    if At(ts, p, {Lbracket}) then
      var l := TargetListAt(ts, p + 1);
      (Node("TARGET_DECLARATION", Null, [l.0]), l.1)
    else
      match TargetItemAt(ts, p)
      case Done(n, q) => (Node("TARGET_DECLARATION", Null, [n]), q)
      case Thrown(_, q) => (Leaf("TARGET_DECLARATION"), CommandFrom(ts, q))
  }

  /** A target that parses is a card, a complete COUNT condition or a condition. */
  lemma TargetItemShape(ts: seq<Token>, p: int)
    requires WellEnded(ts) && 0 <= p < |ts|
    ensures TargetItemAt(ts, p).Done? ==> IsTargetItem(TargetItemAt(ts, p).value)
    ensures CardAhead(ts, p) ==> TargetItemAt(ts, p).Done? && IsCardShape(TargetItemAt(ts, p).value)
  {
    if !CardAhead(ts, p) && CountAhead(ts, p) && CountConditionAt(ts, p, false).Done? {
      CountConditionShape(ts, p);
    }
  }

  /** One target of the list, when it parses, goes in front of the targets after it and
      its comma. */
  lemma TargetStep(ts: seq<Token>, p: int) returns (added: seq<Node>, q: int)
    requires WellEnded(ts) && 0 <= p < |ts| && ts[p].kind !in {Eof, Rbracket}
    ensures p <= q < |ts|
    ensures q == p ==> added == [] && TargetsFrom(ts, p).0 == []
    ensures p < q ==> TargetsFrom(ts, p).0 == added + TargetsFrom(ts, q).0
    ensures forall i :: 0 <= i < |added| ==> IsTargetItem(added[i])
  {
    var t := TargetItemAt(ts, p);
    TargetItemShape(ts, p);
    if t.Done? {
      added, q := [t.value], Past(ts, t.next, {Comma});
      assert TargetsFrom(ts, p).0 == [t.value] + TargetsFrom(ts, q).0;
    } else {
      added, q := [], p;
    }
  }

  /** Every entry of a target list is a card, a COUNT condition or a condition. */
  lemma {:induction false} TargetsAreItems(ts: seq<Token>, p: int)
    requires WellEnded(ts) && 0 <= p < |ts|
    ensures forall i :: 0 <= i < |TargetsFrom(ts, p).0| ==> IsTargetItem(TargetsFrom(ts, p).0[i])
    decreases |ts| - p
  {
    if ts[p].kind !in {Eof, Rbracket} {
      var added, q := TargetStep(ts, p);
      if p < q {
        TargetsAreItems(ts, q);
        ItemsJoin(added, TargetsFrom(ts, q).0);
      }
    }
  }

  lemma ItemsJoin(a: seq<Node>, b: seq<Node>)
    requires forall i :: 0 <= i < |a| ==> IsTargetItem(a[i])
    requires forall i :: 0 <= i < |b| ==> IsTargetItem(b[i])
    ensures forall i :: 0 <= i < |a + b| ==> IsTargetItem((a + b)[i])
  {
    forall i | 0 <= i < |a + b|
      ensures IsTargetItem((a + b)[i])
    {
      if i >= |a| {
        assert (a + b)[i] == b[i - |a|];
      }
    }
  }

  /** A target declaration holds a target list after `[`, and otherwise at most one target;
      when that one throws, the declaration is empty and the cursor is left at EOF or at
      the next command. */
  lemma TargetShape(ts: seq<Token>, p: int)
    requires WellEnded(ts) && 0 <= p < |ts|
    ensures var (n, q) := TargetAt(ts, p);
      n.kind == "TARGET_DECLARATION" && n.value == Null && |n.children| <= 1
      && (At(ts, p, {Lbracket}) ==> |n.children| == 1 && IsTargetList(n.children[0]))
      && (!At(ts, p, {Lbracket}) ==> forall i :: 0 <= i < |n.children| ==> IsTargetItem(n.children[i]))
      && (!At(ts, p, {Lbracket}) && CardAhead(ts, p) ==> |n.children| == 1 && IsCardShape(n.children[0]))
      && (!At(ts, p, {Lbracket}) && n.children == [] ==> ts[q].kind == Eof || At(ts, q, CommandKinds))
  {
    if At(ts, p, {Lbracket}) {
      TargetsAreItems(ts, p + 1);
    } else {
      TargetItemShape(ts, p);
    }
  }

  // ---------------------------------------------------------------- attribute blocks

  /** The three blocks whose loops read an attribute after each of their keywords. */
  datatype Block = NumbersBlock | DivisibilityBlock | RemaindersBlock
  {
    /** The keywords the block reads an attribute after. */
    function ValueKinds(): set<TokenKind> {
      match this
      case NumbersBlock => NumbersValueKinds
      case DivisibilityBlock => DivisibilityValueKinds
      case RemaindersBlock => RemaindersValueKinds
    }

    /** The kind of the declaration node. */
    function Name(): string {
      match this
      case NumbersBlock => "NUMBERS_DECLARATION"
      case DivisibilityBlock => "DIVISIBILITY_DECLARATION"
      case RemaindersBlock => "REMAINDERS_DECLARATION"
    }

    /** The attributes the block collects. */
    predicate IsAttribute(c: Node) {
      match this
      case NumbersBlock => IsNumbersAttribute(c)
      case DivisibilityBlock => IsDivisibilityAttribute(c)
      case RemaindersBlock => IsRemaindersAttribute(c)
    }
  }

  /** The attribute a numbers block reads after a keyword of kind `k`, from `p`: an integer
      for DIGITS (or NUMBER_LENGTH) and MAX_DIGIT, a flag that defaults to true, an order, or
      a comparison. */
  function NumbersAttributeAt(ts: seq<Token>, k: TokenKind, p: int): (r: Outcome<seq<Node>>)
    requires WellEnded(ts) && 0 <= p < |ts| && k in NumbersValueKinds
    ensures p <= r.Pos() < |ts|
  {
    if k == Digits || k == NumberLength then IntAttributeAt(ts, p, "DIGITS")
    else if k == MaxDigit then IntAttributeAt(ts, p, "MAX_DIGIT")
    else if k == FirstNotZero || k == Distinct || k == AdjacentDifferent then
      Done([WithValue(FlagName(k), BoolV(FlagAt(ts, p)))], Past(ts, p, {Boolean}))
    else if k == Order then Done(TextChild("ORDER", ts, p, OrderKinds), Past(ts, p, OrderKinds))
    else if k == Compare then
      var c := ComparisonAt(ts, p, CompareKinds, None);
      Done(c.0, c.1)
    else
      var c := ComparisonAt(ts, p, {Equals}, Some("="));
      Done(c.0, c.1)
  }

  /** The attribute a divisibility block reads after a keyword of kind `k`, from `p`: an
      integer after DIGITS (or NUMBER_LENGTH) and DIVIDES_BY, and after RULE (or
      FORMATION_RULE) the run of tokens up to the next command or semicolon, joined and
      trimmed, when the run is not empty. */
  function DivisibilityAttributeAt(ts: seq<Token>, k: TokenKind, p: int): (r: Outcome<seq<Node>>)
    requires WellEnded(ts) && 0 <= p < |ts| && k in DivisibilityValueKinds
    ensures p <= r.Pos() < |ts|
  {
    if k == Digits || k == NumberLength then IntAttributeAt(ts, p, "DIGITS")
    else if k == DividesBy then IntAttributeAt(ts, p, "DIVISOR")
    else
      var run := RunFrom(ts, p);
      Done(ChildIf(run.0 != "", WithValue("RULE", StrV(Trim(run.0)))), run.1)
  }

  /** The attribute a remainders block reads after a keyword of kind `k`, from `p`: the
      dividend (X by default), the divisor (1 by default) or the remainder (0 by default). */
  function RemaindersAttributeAt(ts: seq<Token>, k: TokenKind, p: int): (r: Outcome<seq<Node>>)
    requires WellEnded(ts) && 0 <= p < |ts| && k in RemaindersValueKinds
    ensures p <= r.Pos() < |ts|
  {
    if k == Dividend then
      Done([WithValue("DIVIDEND", StrV(DividendAt(ts, p)))], Past(ts, p, {String, Integer, Variable}))
    else if k == Divisor then IntOrDefaultAt(ts, p, "DIVISOR", 1)
    else IntOrDefaultAt(ts, p, "REMAINDER", 0)
  }

  /** The attribute block `b` reads after a keyword of kind `k`. */
  function AttributeAt(ts: seq<Token>, b: Block, k: TokenKind, p: int): (r: Outcome<seq<Node>>)
    requires WellEnded(ts) && 0 <= p < |ts| && k in b.ValueKinds()
    ensures p <= r.Pos() < |ts|
  {
    match b
    case NumbersBlock => NumbersAttributeAt(ts, k, p)
    case DivisibilityBlock => DivisibilityAttributeAt(ts, k, p)
    case RemaindersBlock => RemaindersAttributeAt(ts, k, p)
  }

  /** Where the loop of block `b` stops: at a command keyword, and in a numbers or a
      divisibility block also at a semicolon. */
  predicate Ends(ts: seq<Token>, b: Block, p: int) {
    At(ts, p, CommandKinds) || (!b.RemaindersBlock? && At(ts, p, {Semicolon}))
  }

  /** No keyword of a block is a place where it stops. */
  lemma ValueKindsDoNotEnd(ts: seq<Token>, b: Block, p: int)
    requires At(ts, p, b.ValueKinds())
    ensures !Ends(ts, b, p)
  {
    match b
    case NumbersBlock => NumbersKeywordsAreNotCommands(ts[p].kind);
    case DivisibilityBlock => DivisibilityKeywordsAreNotCommands(ts[p].kind);
    case RemaindersBlock => RemaindersKeywordsAreNotCommands(ts[p].kind);
  }

  /** One pass of the loop of block `b` at a token other than EOF: after a keyword of the
      block, its attribute; a semicolon (not in a remainders block) ends the block after
      itself; a command keyword ends it one token before itself, handing the cursor back;
      any other token is skipped. */
  function EntryAt(ts: seq<Token>, b: Block, p: int): (r: Outcome<seq<Node>>)
    requires WellEnded(ts) && 0 <= p < |ts| && ts[p].kind != Eof
    requires p > 0 || !At(ts, p, CommandKinds)
    ensures 0 <= r.Pos() < |ts|
    ensures !Ends(ts, b, p) ==> r.Pos() > p
  {
    if At(ts, p, b.ValueKinds()) then AttributeAt(ts, b, ts[p].kind, p + 1)
    else if !b.RemaindersBlock? && At(ts, p, {Semicolon}) then Done([], p + 1)
    else if At(ts, p, CommandKinds) then Done([], p - 1)
    else Done([], p + 1)
  }

  /** The loop of block `b` from `p`: the attributes up to EOF or to where an entry ends the
      block, and where it stops; an attribute that throws ends it with that exception. */
  function BlockFrom(ts: seq<Token>, b: Block, p: int): (r: Outcome<seq<Node>>)
    requires WellEnded(ts) && 0 <= p < |ts| && (p > 0 || !At(ts, p, CommandKinds))
    ensures 0 <= r.Pos() < |ts|
    decreases |ts| - p
  {
    if ts[p].kind == Eof then Done([], p)
    else
      var e := EntryAt(ts, b, p);
      if e.Thrown? || Ends(ts, b, p) then e
      else Prepend(e.value, BlockFrom(ts, b, e.next))
  }

  /** `parseNumbersDeclaration`, `parseDivisibilityDeclaration` and
      `parseRemaindersDeclaration`: the declaration node holding the attributes of the
      block. */
  function BlockAt(ts: seq<Token>, b: Block, p: int): (r: Outcome<Node>)
    requires WellEnded(ts) && 0 <= p < |ts| && (p > 0 || !At(ts, p, CommandKinds))
    ensures 0 <= r.Pos() < |ts|
  {
    match BlockFrom(ts, b, p)
    case Thrown(e, q) => Thrown(e, q)
    case Done(cs, q) => Done(Node(b.Name(), Null, cs), q)
  }

  /** `NUMBERS DIGITS 4` declares a numbers block with one DIGITS attribute of value 4,
      and the block ends at EOF. */
  lemma NumbersDigitsExample()
    ensures var ts := [Token(Numbers, "NUMBERS", 1, 1), Token(Digits, "DIGITS", 1, 9),
                       Token(Integer, "4", 1, 16), Token(Eof, "", 1, 17)];
      WellEnded(ts) && BlockAt(ts, NumbersBlock, 1) == Done(Node("NUMBERS_DECLARATION", Null, [WithValue("DIGITS", IntV(4))]), 3)
  {
    var ts := [Token(Numbers, "NUMBERS", 1, 1), Token(Digits, "DIGITS", 1, 9),
               Token(Integer, "4", 1, 16), Token(Eof, "", 1, 17)];
    assert ParseInt("4") == Some(4) by {
      assert IsDigits("4") && DigitsValue("4") == 4;
    }
    assert IntAt(ts, 2) == Ok(Some(4));
    assert EntryAt(ts, NumbersBlock, 1) == Done([WithValue("DIGITS", IntV(4))], 3);
    assert BlockFrom(ts, NumbersBlock, 3) == Done([], 3);
    ValueKindsDoNotEnd(ts, NumbersBlock, 1);
    var e := EntryAt(ts, NumbersBlock, 1);
    assert !e.Thrown? && e.next == 3;
    assert [WithValue("DIGITS", IntV(4))] + [] == [WithValue("DIGITS", IntV(4))];
    assert BlockFrom(ts, NumbersBlock, 1) == Prepend(e.value, BlockFrom(ts, NumbersBlock, 3));
    assert BlockFrom(ts, NumbersBlock, 1) == Done([WithValue("DIGITS", IntV(4))], 3);
  }

  /** Every attribute a block reads has the shape of that block's attributes. */
  lemma AttributeShape(ts: seq<Token>, b: Block, k: TokenKind, p: int)
    requires WellEnded(ts) && 0 <= p < |ts| && k in b.ValueKinds()
    ensures var a := AttributeAt(ts, b, k, p);
      a.Done? ==> forall i :: 0 <= i < |a.value| ==> b.IsAttribute(a.value[i])
  {
    if b.NumbersBlock? && (k == Compare || k == Total) {
      var c := if k == Compare then ComparisonAt(ts, p, CompareKinds, None)
               else ComparisonAt(ts, p, {Equals}, Some("="));
      assert AttributeAt(ts, b, k, p) == Done(c.0, c.1);
    }
  }

  /** Where a block that parses leaves the cursor: at EOF, on the token before a command
      keyword, or (numbers and divisibility) just past a semicolon. */
  predicate BlockEnd(ts: seq<Token>, b: Block, q: int) {
    0 <= q < |ts|
    && (ts[q].kind == Eof || At(ts, q + 1, CommandKinds)
        || (!b.RemaindersBlock? && q > 0 && ts[q - 1].kind == Semicolon))
  }

  /** A block that parses holds only attributes of its own kind and ends where `BlockEnd`
      says. */
  lemma {:induction false} BlockShape(ts: seq<Token>, b: Block, p: int)
    requires WellEnded(ts) && 0 <= p < |ts| && (p > 0 || !At(ts, p, CommandKinds))
    ensures var r := BlockFrom(ts, b, p);
      r.Done? ==> (forall i :: 0 <= i < |r.value| ==> b.IsAttribute(r.value[i])) && BlockEnd(ts, b, r.next)
    decreases |ts| - p
  {
    if ts[p].kind != Eof {
      var e := EntryAt(ts, b, p);
      if At(ts, p, b.ValueKinds()) {
        AttributeShape(ts, b, ts[p].kind, p + 1);
        ValueKindsDoNotEnd(ts, b, p);
      }
      if e.Done? && !Ends(ts, b, p) {
        BlockShape(ts, b, e.next);
        var rest := BlockFrom(ts, b, e.next);
        assert BlockFrom(ts, b, p) == Prepend(e.value, rest);
        if rest.Done? {
          forall i | 0 <= i < |e.value + rest.value|
            ensures b.IsAttribute((e.value + rest.value)[i])
          {
            if i >= |e.value| {
              assert (e.value + rest.value)[i] == rest.value[i - |e.value|];
            }
          }
        }
      }
    }
  }

  /** Entered on a command keyword, a block is empty and hands the cursor back one token. */
  lemma BlockAtCommand(ts: seq<Token>, b: Block, p: int)
    requires WellEnded(ts) && 0 < p < |ts| && At(ts, p, CommandKinds)
    ensures BlockAt(ts, b, p) == Done(Leaf(b.Name()), p - 1)
  {
    assert !At(ts, p, b.ValueKinds()) by {
      if At(ts, p, b.ValueKinds()) {
        ValueKindsDoNotEnd(ts, b, p);
      }
    }
  }

  // ---------------------------------------------------------------- chess

  /** The loop of `parseChessDeclaration` from `p`: the chess attributes up to EOF or a
      command that is not one of its own, where the cursor stays. */
  function ChessFrom(ts: seq<Token>, p: int): (r: Outcome<seq<Node>>)
    requires WellEnded(ts) && 0 <= p < |ts|
    ensures p <= r.Pos() < |ts|
    decreases |ts| - p
  {
    if ts[p].kind == Eof || IsChessStop(ts, p) then Done([], p)
    else
      match ChessEntryAt(ts, p)
      case Thrown(e, q) => Thrown(e, q)
      case Done(cs, q) => Prepend(cs, ChessFrom(ts, q))
  }

  /** `parseChessDeclaration` from `p`. */
  function ChessAt(ts: seq<Token>, p: int): (r: Outcome<Node>)
    requires WellEnded(ts) && 0 <= p < |ts|
    ensures p <= r.Pos() < |ts|
  {
    match ChessFrom(ts, p)
    case Thrown(e, q) => Thrown(e, q)
    case Done(cs, q) => Done(Node("CHESS_DECLARATION", Null, cs), q)
  }

  /** A chess declaration that parses holds only chess attributes and ends at EOF or at a
      command that is not one of its own. */
  lemma {:induction false} ChessShape(ts: seq<Token>, p: int)
    requires WellEnded(ts) && 0 <= p < |ts|
    ensures var r := ChessFrom(ts, p);
      r.Done? ==> (forall i :: 0 <= i < |r.value| ==> IsChessAttribute(r.value[i]))
                  && (ts[r.next].kind == Eof || IsChessStop(ts, r.next))
    decreases |ts| - p
  {
    if ts[p].kind != Eof && !IsChessStop(ts, p) {
      var e := ChessEntryAt(ts, p);
      ChessEntryShape(ts, p);
      if e.Done? {
        ChessShape(ts, e.next);
        var rest := ChessFrom(ts, e.next);
        if rest.Done? {
          forall i | 0 <= i < |e.value + rest.value|
            ensures IsChessAttribute((e.value + rest.value)[i])
          {
            if i >= |e.value| {
              assert (e.value + rest.value)[i] == rest.value[i - |e.value|];
            }
          }
        }
      }
    }
  }

  // ---------------------------------------------------------------- the top-level loop

  /** A declaration as what a pass of the top-level loop adds. */
  function Declared(o: Outcome<Node>): (d: Outcome<Option<Node>>)
    ensures d.Done? <==> o.Done?
    ensures d.Pos() == o.Pos()
    ensures d.Done? ==> d.value == Some(o.value)
  {
    match o
    case Done(n, q) => Done(Some(n), q)
    case Thrown(e, q) => Thrown(e, q)
  }

  /** One pass of the loop in `parse` at a token other than EOF: the route `Dispatch` takes
      there and what its sub-parser yields. Keyword routes consume the keyword first
      (ALLOW_DUPLICATES hands it back); the remainders and chess routes hand their keyword
      back; a skipped token yields nothing and moves on one token. */
  function DeclarationAt(ts: seq<Token>, p: int): (r: Outcome<Option<Node>>)
    requires WellEnded(ts) && 0 <= p < |ts| && ts[p].kind != Eof
    ensures 0 <= r.Pos() < |ts|
  {
    match Dispatch(ts, p)
    case ToTask => Declared(Returned(TaskAt(ts, p + 1)))
    case ToDeck => Declared(DeckAt(ts, p + 1))
    case ToAlphabet => Declared(Returned(AlphabetAt(ts, p + 1)))
    case ToLength => Declared(OptionalIntAt(ts, p + 1, "LENGTH_DECLARATION", "LENGTH"))
    case ToUnique => Declared(Returned(UniqueAt(ts, p + 1)))
    case ToAllowDuplicates => Declared(Returned(UniqueAt(ts, p)))
    case ToTarget => Declared(Returned(TargetAt(ts, p + 1)))
    case ToDraw => Declared(DrawAt(ts, p + 1))
    case ToCondition => Declared(Returned(ConditionAt(ts, p + 1)))
    case ToCalculate => Declared(Returned(CalculateAt(ts, p + 1)))
    case ToUnknowns => Declared(OptionalIntAt(ts, p + 1, "UNKNOWNS_DECLARATION", "UNKNOWNS_COUNT"))
    case ToSum => Declared(OptionalIntAt(ts, p + 1, "SUM_DECLARATION", "SUM_VALUE"))
    case ToDomain => Declared(Returned(DomainAt(ts, p + 1)))
    case ToConstraints => Declared(Returned(ConstraintsAt(ts, p + 1)))
    case ToNumbers(keyword) => Declared(BlockAt(ts, NumbersBlock, if keyword then p + 1 else p))
    case ToRemainders => Declared(BlockAt(ts, RemaindersBlock, p))
    case ToDivisibility(keyword) => Declared(BlockAt(ts, DivisibilityBlock, if keyword then p + 1 else p))
    case ToBalls => Declared(BallsDeclarationAt(ts, p + 1))
    case ToChess => Declared(ChessAt(ts, p))
    case ToUrnStart => Declared(BallsDeclarationAt(ts, p))
    case ToSimpleBalls => Declared(SimpleBallsDeclarationAt(ts, p))
    case Skip => Done(None, p + 1)
  }

  /** The declarations a pass adds: the one it read, or none. */
  function Added(d: Option<Node>): (s: seq<Node>)
    ensures |s| <= 1 && (s == [] <==> d.None?)
  {
    if d.Some? then [d.value] else []
  }

  /** Where the loop goes on after a pass threw with the cursor at `q`: one token further,
      unless `q` is EOF. */
  function Resume(ts: seq<Token>, q: int): (r: int)
    requires WellEnded(ts) && 0 <= q < |ts|
    ensures q <= r <= q + 1 && r < |ts|
    ensures r == q <==> ts[q].kind == Eof
  {
    if ts[q].kind == Eof then q else q + 1
  }

  /** The loop of `parse` from `p`, for at most `fuel` passes: the declarations added in the
      order they are read, and where the cursor ends. A pass that throws adds nothing and
      moves on one token past where the exception left the cursor, unless that is EOF. */
  function ProgramFrom(ts: seq<Token>, p: int, fuel: nat): (r: (seq<Node>, int))
    requires WellEnded(ts) && 0 <= p < |ts|
    ensures 0 <= r.1 < |ts| && |r.0| <= fuel
    decreases fuel, 2
  {
    if fuel == 0 then ([], p) else WhileFrom(ts, p, fuel - 1)
  }

  /** The test of the loop, with `more` passes allowed after this one: at EOF it ends. */
  function WhileFrom(ts: seq<Token>, p: int, more: nat): (r: (seq<Node>, int))
    requires WellEnded(ts) && 0 <= p < |ts|
    ensures 0 <= r.1 < |ts| && |r.0| <= more + 1
    decreases more + 1, 1
  {
    if ts[p].kind == Eof then ([], p) else PassFrom(ts, p, more)
  }

  /** One pass at a token other than EOF, with its `catch`, then the loop for `more` passes. */
  function PassFrom(ts: seq<Token>, p: int, more: nat): (r: (seq<Node>, int))
    requires WellEnded(ts) && 0 <= p < |ts| && ts[p].kind != Eof
    ensures 0 <= r.1 < |ts| && |r.0| <= more + 1
    decreases more + 1, 0
  {
    match DeclarationAt(ts, p)
    case Thrown(_, q) => ProgramFrom(ts, Resume(ts, q), more)
    case Done(d, q) =>
      var rest := ProgramFrom(ts, q, more);
      (Added(d) + rest.0, rest.1)
  }

  /** A pass that throws at `q` is followed by the passes from one token past `q`, or from
      `q` itself at EOF. */
  lemma ProgramFromThrown(ts: seq<Token>, p: int, fuel: nat, msg: string, q: int)
    requires WellEnded(ts) && 0 <= p < |ts| && ts[p].kind != Eof && fuel > 0
    requires DeclarationAt(ts, p) == Thrown(msg, q)
    ensures 0 <= q < |ts|
    ensures ProgramFrom(ts, p, fuel) == ProgramFrom(ts, Resume(ts, q), fuel - 1)
  {
    assert ProgramFrom(ts, p, fuel) == WhileFrom(ts, p, fuel - 1) == PassFrom(ts, p, fuel - 1);
  }

  /** A pass that returns `d` at `q` adds `d`, if any, in front of the passes from `q`. */
  lemma ProgramFromDone(ts: seq<Token>, p: int, fuel: nat, d: Option<Node>, q: int)
    requires WellEnded(ts) && 0 <= p < |ts| && ts[p].kind != Eof && fuel > 0
    requires DeclarationAt(ts, p) == Done(d, q)
    ensures 0 <= q < |ts|
    ensures ProgramFrom(ts, p, fuel).0 == Added(d) + ProgramFrom(ts, q, fuel - 1).0
    ensures ProgramFrom(ts, p, fuel).1 == ProgramFrom(ts, q, fuel - 1).1
  {
    assert ProgramFrom(ts, p, fuel) == WhileFrom(ts, p, fuel - 1) == PassFrom(ts, p, fuel - 1);
  }

  /** A pass adds nothing exactly when the token is skipped, which moves on by one; any
      other pass that returns adds a declaration of one of the program's kinds. */
  lemma DeclarationKindsAt(ts: seq<Token>, p: int)
    requires WellEnded(ts) && 0 <= p < |ts| && ts[p].kind != Eof
    ensures var d := DeclarationAt(ts, p);
      (d.Done? && d.value.None? <==> Dispatch(ts, p) == Skip)
      && (Dispatch(ts, p) == Skip ==> d == Done(None, p + 1))
      && (d.Done? && d.value.Some? ==> d.value.value.kind in DeclarationKinds)
  {
    match Dispatch(ts, p)
    case ToBalls => BallsDeclarationShape(ts, p + 1);
    case ToUrnStart => BallsDeclarationShape(ts, p);
    case ToSimpleBalls => SimpleBallsDeclarationShape(ts, p);
    case _ =>
  }

  /** One pass adds only declarations of the program's kinds, in front of the passes after it. */
  lemma PassKinds(ts: seq<Token>, p: int, fuel: nat) returns (added: seq<Node>, q: int)
    requires WellEnded(ts) && 0 <= p < |ts| && ts[p].kind != Eof && fuel > 0
    ensures 0 <= q < |ts|
    ensures ProgramFrom(ts, p, fuel).0 == added + ProgramFrom(ts, q, fuel - 1).0
    ensures forall i :: 0 <= i < |added| ==> added[i].kind in DeclarationKinds
  {
    var d := DeclarationAt(ts, p);
    DeclarationKindsAt(ts, p);
    if d.Thrown? {
      ProgramFromThrown(ts, p, fuel, d.msg, d.at);
      added, q := [], Resume(ts, d.at);
    } else {
      ProgramFromDone(ts, p, fuel, d.value, d.next);
      added, q := Added(d.value), d.next;
    }
  }

  /** Every declaration the loop adds has one of the program's kinds. */
  lemma {:induction false} ProgramKinds(ts: seq<Token>, p: int, fuel: nat)
    requires WellEnded(ts) && 0 <= p < |ts|
    ensures forall i :: 0 <= i < |ProgramFrom(ts, p, fuel).0| ==> ProgramFrom(ts, p, fuel).0[i].kind in DeclarationKinds
    decreases fuel
  {
    if fuel > 0 && ts[p].kind != Eof {
      var added, q := PassKinds(ts, p, fuel);
      ProgramKinds(ts, q, fuel - 1);
      KindsJoin(added, ProgramFrom(ts, q, fuel - 1).0);
    }
  }

  lemma KindsJoin(a: seq<Node>, b: seq<Node>)
    requires forall i :: 0 <= i < |a| ==> a[i].kind in DeclarationKinds
    requires forall i :: 0 <= i < |b| ==> b[i].kind in DeclarationKinds
    ensures forall i :: 0 <= i < |a + b| ==> (a + b)[i].kind in DeclarationKinds
  {
    forall i | 0 <= i < |a + b|
      ensures (a + b)[i].kind in DeclarationKinds
    {
      if i >= |a| {
        assert (a + b)[i] == b[i - |a|];
      }
    }
  }

  /** The positions where a pass returns a declaration without moving the cursor: a bare
      CHESS (the chess block hands its keyword back and stops on it), NUMBERS or
      DIVISIBILITY directly before a command keyword, DIVIDEND, DIVISOR or REMAINDER
      directly before a command keyword, BALLS before `[`, and a `[` colour list right after
      SEQUENTIAL, SIMULTANEOUS or an integer in int range (the balls declaration steps back
      onto that token and consumes it again as the draw type or the draw count). */
  predicate Stalls(ts: seq<Token>, p: int) {
    At(ts, p, {Chess})
    || (At(ts, p, {Numbers, Divisibility, Dividend, Divisor, Remainder}) && At(ts, p + 1, CommandKinds))
    || (At(ts, p, {Balls}) && At(ts, p + 1, {Lbracket}))
    || (UrnContentsAhead(ts, p) && At(ts, p - 1, DrawTypeKinds))
    || (UrnContentsAhead(ts, p) && At(ts, p - 1, {Integer}) && ParseInt(ts[p - 1].value).Some?)
  }

  /** A remainders keyword directly before a command keyword reads its default attribute and
      hands the cursor back to the keyword. */
  lemma RemaindersBeforeCommand(ts: seq<Token>, p: int)
    requires WellEnded(ts) && 0 <= p < |ts|
    requires At(ts, p, RemaindersValueKinds) && At(ts, p + 1, CommandKinds)
    ensures var b := BlockFrom(ts, RemaindersBlock, p);
      b.Done? && b.next == p && |b.value| == 1
  {
    RemaindersKeywordsAreNotCommands(ts[p].kind);
    var e := EntryAt(ts, RemaindersBlock, p);
    assert !Ends(ts, RemaindersBlock, p);
    assert e.Done? && e.next == p + 1 && |e.value| == 1;
    assert !At(ts, p + 1, RemaindersValueKinds) by {
      if At(ts, p + 1, RemaindersValueKinds) {
        RemaindersKeywordsAreNotCommands(ts[p + 1].kind);
      }
    }
    assert BlockFrom(ts, RemaindersBlock, p + 1) == Done([], p);
  }

  /** At a stalling position the pass returns a declaration and leaves the cursor where it
      was, so the next pass starts from the same state. */
  lemma StallsStay(ts: seq<Token>, p: int)
    requires WellEnded(ts) && 0 <= p < |ts| && Stalls(ts, p)
    ensures DeclarationAt(ts, p).Done? && DeclarationAt(ts, p).next == p
    ensures DeclarationAt(ts, p).value.Some?
  {
    if At(ts, p, {Chess}) {
      ChessStalls(ts, p);
    } else if At(ts, p, {Numbers}) {
      NumbersStalls(ts, p);
    } else if At(ts, p, {Divisibility}) {
      DivisibilityStalls(ts, p);
    } else if At(ts, p, {Dividend, Divisor, Remainder}) {
      RemaindersStalls(ts, p);
    } else if At(ts, p, {Balls}) {
      BallsStalls(ts, p);
    } else if At(ts, p - 1, DrawTypeKinds) {
      DrawTypeBracketStalls(ts, p);
    } else {
      DrawCountBracketStalls(ts, p);
    }
  }

  lemma ChessStalls(ts: seq<Token>, p: int)
    requires WellEnded(ts) && 0 <= p < |ts| && At(ts, p, {Chess})
    ensures DeclarationAt(ts, p) == Done(Some(Leaf("CHESS_DECLARATION")), p)
  {
    assert Dispatch(ts, p) == ToChess;
    assert IsChessStop(ts, p);
    assert ChessFrom(ts, p) == Done([], p);
  }

  lemma NumbersStalls(ts: seq<Token>, p: int)
    requires WellEnded(ts) && 0 <= p < |ts| && At(ts, p, {Numbers}) && At(ts, p + 1, CommandKinds)
    ensures DeclarationAt(ts, p) == Done(Some(Leaf("NUMBERS_DECLARATION")), p)
  {
    assert Dispatch(ts, p) == ToNumbers(true);
    BlockAtCommand(ts, NumbersBlock, p + 1);
  }

  lemma DivisibilityStalls(ts: seq<Token>, p: int)
    requires WellEnded(ts) && 0 <= p < |ts| && At(ts, p, {Divisibility}) && At(ts, p + 1, CommandKinds)
    ensures DeclarationAt(ts, p) == Done(Some(Leaf("DIVISIBILITY_DECLARATION")), p)
  {
    assert Dispatch(ts, p) == ToDivisibility(true);
    BlockAtCommand(ts, DivisibilityBlock, p + 1);
  }

  lemma RemaindersStalls(ts: seq<Token>, p: int)
    requires WellEnded(ts) && 0 <= p < |ts| && At(ts, p, {Dividend, Divisor, Remainder})
    requires At(ts, p + 1, CommandKinds)
    ensures DeclarationAt(ts, p).Done? && DeclarationAt(ts, p).next == p
    ensures DeclarationAt(ts, p).value.Some?
  {
    assert Dispatch(ts, p) == ToRemainders;
    RemaindersBeforeCommand(ts, p);
  }

  lemma BallsStalls(ts: seq<Token>, p: int)
    requires WellEnded(ts) && 0 <= p < |ts| && At(ts, p, {Balls}) && At(ts, p + 1, {Lbracket})
    ensures DeclarationAt(ts, p) == Done(Some(Leaf("BALLS_DECLARATION")), p)
  {
    assert Dispatch(ts, p) == ToBalls;
    BallsBracketStepsBack(ts, p + 1);
  }

  /** `SEQUENTIAL [ RED 2 ]`: at the `[` the balls declaration steps back onto SEQUENTIAL
      (or SIMULTANEOUS), reads it as the draw type and stops at the `[` again. */
  lemma DrawTypeBracketStalls(ts: seq<Token>, p: int)
    requires WellEnded(ts) && 0 <= p < |ts| && UrnContentsAhead(ts, p) && At(ts, p - 1, DrawTypeKinds)
    ensures DeclarationAt(ts, p)
      == Done(Some(Node("BALLS_DECLARATION", Null, [WithValue("DRAW_TYPE", BoolV(ts[p - 1].kind == Sequential))])), p)
  {
    var n := Node("BALLS_DECLARATION", Null, [WithValue("DRAW_TYPE", BoolV(ts[p - 1].kind == Sequential))]);
    assert Past(ts, p - 1, DrawTypeKinds) == p;
    assert DrawCountAt(ts, p) == Done([], p);
    var none: seq<Node> := [];
    assert none + none + DrawTypeAt(ts, p - 1) + none == n.children;
    assert BallsAfterDraw(ts, none + none, p - 1) == Done(n, p);
    UrnStartRereads(ts, p, n);
    UrnStartDeclared(ts, p, n);
  }

  /** `5 [ RED 2 ]`: at the `[` the balls declaration steps back onto the integer, reads
      it as the draw count and stops at the `[` again. */
  lemma DrawCountBracketStalls(ts: seq<Token>, p: int)
    requires WellEnded(ts) && 0 <= p < |ts| && UrnContentsAhead(ts, p) && At(ts, p - 1, {Integer})
    requires ParseInt(ts[p - 1].value).Some?
    ensures DeclarationAt(ts, p)
      == Done(Some(Node("BALLS_DECLARATION", Null, [WithValue("DRAW_COUNT", IntV(ParseInt(ts[p - 1].value).value))])), p)
  {
    var count := [WithValue("DRAW_COUNT", IntV(ParseInt(ts[p - 1].value).value))];
    var n := Node("BALLS_DECLARATION", Null, count);
    var none: seq<Node> := [];
    assert Past(ts, p - 1, DrawTypeKinds) == p - 1;
    assert DrawTypeAt(ts, p - 1) == [];
    assert DrawCountAt(ts, p - 1) == Done(count, p);
    assert none + none + DrawTypeAt(ts, p - 1) + count == n.children;
    assert BallsAfterDraw(ts, none + none, p - 1) == Done(n, p);
    UrnStartRereads(ts, p, n);
    UrnStartDeclared(ts, p, n);
  }

  /** A `[` colour list after a token that is not URN, DRAW or `[`: the urn and draw parts
      step back onto that token and leave the rest of the declaration to what follows. */
  lemma UrnStartRereads(ts: seq<Token>, p: int, n: Node)
    requires WellEnded(ts) && 0 <= p < |ts| && UrnContentsAhead(ts, p)
    requires At(ts, p - 1, DrawTypeKinds + {Integer})
    requires BallsAfterDraw(ts, [] + [], p - 1) == Done(n, p)
    ensures Dispatch(ts, p) == ToUrnStart
    ensures BallsDeclarationAt(ts, p) == Done(n, p)
  {
    assert UrnPartAt(ts, p) == Done([], p - 1);
    assert DrawPartAt(ts, p - 1) == Done([], p - 1);
  }

  /** At a `[` colour list the pass is the balls declaration, added as it is. */
  lemma UrnStartDeclared(ts: seq<Token>, p: int, n: Node)
    requires WellEnded(ts) && 0 <= p < |ts| && Dispatch(ts, p) == ToUrnStart
    requires BallsDeclarationAt(ts, p) == Done(n, p)
    ensures DeclarationAt(ts, p) == Done(Some(n), p)
  {
  }

  /** From a stalling position the loop adds the same declaration on every pass and never
      moves: in Java, where there is no bound on the passes, it does not end. */
  lemma {:induction false} ProgramStuck(ts: seq<Token>, p: int, fuel: nat)
    requires WellEnded(ts) && 0 <= p < |ts| && Stalls(ts, p)
    ensures var r := ProgramFrom(ts, p, fuel); var d := DeclarationAt(ts, p);
      r.1 == p && |r.0| == fuel && d.Done? && d.value.Some?
      && forall i :: 0 <= i < fuel ==> r.0[i] == d.value.value
    decreases fuel
  {
    StallsStay(ts, p);
    if fuel > 0 {
      ProgramStuck(ts, p, fuel - 1);
      var n := DeclarationAt(ts, p).value.value;
      ProgramFromDone(ts, p, fuel, Some(n), p);
      Repeated(n, ProgramFrom(ts, p, fuel - 1).0);
    }
  }

  lemma Repeated(n: Node, rest: seq<Node>)
    requires forall i :: 0 <= i < |rest| ==> rest[i] == n
    ensures forall i :: 0 <= i < |[n] + rest| ==> ([n] + rest)[i] == n
  {
    forall i | 0 <= i < |[n] + rest|
      ensures ([n] + rest)[i] == n
    {
      if i > 0 {
        assert ([n] + rest)[i] == rest[i - 1];
      }
    }
  }

  /** `[` followed by a colour, after a token that is none of URN, DRAW, `[`, SEQUENTIAL,
      SIMULTANEOUS or an integer: the urn part steps back before the `[`, nothing is read,
      and the cursor ends one token before where the pass started. */
  lemma UrnStartStepsBack(ts: seq<Token>, p: int)
    requires WellEnded(ts) && 0 < p < |ts| && UrnContentsAhead(ts, p)
    requires ts[p - 1].kind !in {Urn, Draw, Lbracket, Sequential, Simultaneous, Integer}
    requires Dispatch(ts, p) == ToUrnStart
    ensures DeclarationAt(ts, p) == Done(Some(Leaf("BALLS_DECLARATION")), p - 1)
  {
    assert UrnPartAt(ts, p) == Done([], p - 1);
    assert DrawPartAt(ts, p - 1) == Done([], p - 1);
    assert DrawCountAt(ts, p - 1) == Done([], p - 1);
    assert [] + DrawTypeAt(ts, p - 1) + [] == [];
  }
}
