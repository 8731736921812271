/** The recursive-descent parser: a cursor over the token list that `match` and `advance`
    move forward, that a few places move back by one, and from which every sub-parser
    builds its part of the syntax tree. A thrown exception is an `Err` result, with the cursor
    where the exception left it. Each method is proved against the definitions in `Grammar`
    and `Declarations`. */
module Parser {
  import opened Wrappers
  import opened JavaText
  import opened JavaMaps
  import opened Tokens
  import opened Ast
  import opened Grammar
  import opened Declarations

  /** A value and its space move from the front of the rest to the end of the text. */
  lemma JoinedRun(text: string, v: string, rest: string)
    ensures text + (v + " " + rest) == (text + v + " ") + rest
  {
  }

  lemma Associative<T>(a: seq<T>, b: seq<T>, c: seq<T>)
    ensures a + (b + c) == (a + b) + c
  {
  }

  /** The piece name as `parseChessDeclaration` computes it: quotes stripped, the prefix
      added to an upper-case bare name, then the prefix removed. Adding the prefix only to
      take it off again leaves the name `PieceName` gives. */
  method PieceType(text: string) returns (t: string)
    ensures t == PieceName(text)
  {
    t := Unquote(text);
    ghost var bare := t;
    if !("CHESS_" <= t) && IsBarePiece(t) {
      t := "CHESS_" + t;
      assert t[6..] == bare;
    }
    if "CHESS_" <= t {
      t := t[6..];
    }
  }

  class Parser {
    const tokens: seq<Token>
    var current: int

    /** The cursor is on a token of a list that ends with EOF. */
    predicate Valid()
      reads this
    {
      WellEnded(tokens) && 0 <= current < |tokens|
    }

    constructor (ts: seq<Token>)
      requires WellEnded(ts)
      ensures tokens == ts && current == 0 && Valid()
    {
      tokens := ts;
      current := 0;
    }

    // ------------------------------------------------------------ the cursor

    /** `isAtEnd`. */
    predicate AtEnd()
      requires Valid()
      reads this
    {
      tokens[current].kind == Eof
    }

    /** `check`. */
    predicate Check(k: TokenKind)
      requires Valid()
      reads this
    {
      !AtEnd() && tokens[current].kind == k
    }

    /** `checkColorToken`. */
    predicate CheckColor()
      requires Valid()
      reads this
    {
      ColorAt(tokens, current)
    }

    /** `isNextCommand`. */
    predicate IsNextCommand()
      requires Valid()
      reads this
    {
      At(tokens, current, CommandKinds)
    }

    /** `previous`: the token before the cursor; at the first token `List.get(-1)` throws. */
    function Previous(): (r: Result<Token>)
      requires Valid()
      reads this
      ensures r.Err? <==> current == 0
      ensures r.Ok? ==> r.value == tokens[current - 1]
    {
      if current == 0 then Err("IndexOutOfBoundsException") else Ok(tokens[current - 1])
    }

    /** `advance`: one token forward unless at EOF, then the token before the cursor. */
    method Advance() returns (t: Result<Token>)
      requires Valid()
      modifies this
      ensures Valid()
      ensures current == (if old(AtEnd()) then old(current) else old(current) + 1)
      ensures !old(AtEnd()) ==> t == Ok(tokens[old(current)])
      ensures old(AtEnd()) ==> t == Previous()
    {
      if !AtEnd() {
        current := current + 1;
      }
      t := Previous();
    }

    /** `match`: consumes the token at the cursor when its kind is one of `ks`. The Java
        method tries the kinds one after the other; which one matches makes no difference. */
    method Match(ks: set<TokenKind>) returns (b: bool)
      requires Valid()
      modifies this
      ensures Valid()
      ensures b == At(tokens, old(current), ks)
      ensures current == Past(tokens, old(current), ks)
    {
      b := !AtEnd() && tokens[current].kind in ks;
      if b {
        var _ := Advance();
      }
    }

    /** `match(INTEGER)` followed by `Integer.parseInt(previous().getValue())`. */
    method MatchInt() returns (r: Result<Option<int>>)
      requires Valid()
      modifies this
      ensures Valid()
      ensures r == IntAt(tokens, old(current))
      ensures current == Past(tokens, old(current), {Integer})
    {
      var found := Match({Integer});
      if !found {
        return Ok(None);
      }
      var prev := Previous();
      match ParseInt(prev.value.value)
      case Some(v) => r := Ok(Some(v));
      case None => r := Err("NumberFormatException");
    }

    /** `match(ks)` followed by `previous().getValue()`. */
    method MatchText(ks: set<TokenKind>) returns (s: Option<string>)
      requires Valid()
      modifies this
      ensures Valid()
      ensures s == (if At(tokens, old(current), ks) then Some(tokens[old(current)].value) else None)
      ensures current == Past(tokens, old(current), ks)
    {
      var found := Match(ks);
      if !found {
        return None;
      }
      var prev := Previous();
      s := Some(prev.value.value);
    }

    /** The `check(INTEGER)`, `advance`, `parseInt` step that reads the count after a ball
        colour or a chess piece: 1 when no integer follows. */
    method CountAfter() returns (r: Result<int>)
      requires Valid()
      modifies this
      ensures Valid()
      ensures r == CountAt(tokens, old(current))
      ensures current == Past(tokens, old(current), {Integer})
    {
      if !Check(Integer) {
        return Ok(1);
      }
      var t := Advance();
      match ParseInt(t.value.value)
      case Some(v) => r := Ok(v);
      case None => r := Err("NumberFormatException");
    }

    /** A colour at the cursor and the count after it, as `parseBallsMap` and
        `parseSimpleBallsList` read them. */
    method ColorCount() returns (r: Result<(string, int)>)
      requires Valid() && CheckColor()
      modifies this
      ensures Valid()
      ensures old(current) + 1 < |tokens|
      ensures r == match CountAt(tokens, old(current) + 1)
                   case Err(e) => Err(e)
                   case Ok(c) => Ok((tokens[old(current)].value, c))
      ensures current == Past(tokens, old(current) + 1, {Integer})
    {
      var color := Advance();
      var count := CountAfter();
      if count.Err? {
        return Err(count.msg);
      }
      r := Ok((color.value.value, count.value));
    }

    // ------------------------------------------------------------ simple declarations

    /** `parseTaskDeclaration`: the task type as written and the unquoted name, or "" when
        no name follows; an unknown type gives a declaration without children. */
    method ParseTask() returns (n: Node)
      requires Valid()
      modifies this
      ensures Valid()
      ensures (n, current) == TaskAt(tokens, old(current))
    {
      var taskType := MatchText(TaskKinds);
      if taskType.None? {
        return Leaf("TASK_DECLARATION");
      }
      var name := MatchText({String});
      var taskName := if name.Some? then Unquote(name.value) else "";
      n := Node("TASK_DECLARATION", Null,
                [WithValue("TASK_TYPE", StrV(taskType.value)), WithValue("TASK_NAME", StrV(taskName))]);
    }

    /** `parseAlphabetDeclaration`: the unquoted string, when one follows. */
    method ParseAlphabet() returns (n: Node)
      requires Valid()
      modifies this
      ensures Valid()
      ensures (n, current) == AlphabetAt(tokens, old(current))
    {
      n := Leaf("ALPHABET_DECLARATION");
      var alphabet := MatchText({String});
      if alphabet.Some? {
        n := AddChild(n, WithValue("ALPHABET", StrV(Unquote(alphabet.value))));
      }
    }

    /** A declaration holding at most one integer: `parseLengthDeclaration`,
        `parseUnknownsDeclaration` and `parseSumDeclaration`. */
    method ParseOptionalInt(kind: string, child: string) returns (r: Result<Node>)
      requires Valid()
      modifies this
      ensures Valid()
      ensures Reached(r, current) == OptionalIntAt(tokens, old(current), kind, child)
    {
      var v := MatchInt();
      if v.Err? {
        return Err(v.msg);
      }
      r := Ok(Node(kind, Null, IntChild(child, v.value)));
    }

    /** `parseUniqueDeclaration`: a BOOLEAN gives whether it says yes; ALLOW_DUPLICATES and
        nothing at all give false. */
    method ParseUnique() returns (n: Node)
      requires Valid()
      modifies this
      ensures Valid()
      ensures (n, current) == UniqueAt(tokens, old(current))
    {
      var b := MatchText({Boolean});
      var unique := false;
      if b.Some? {
        unique := IsYes(b.value);
      } else {
        var _ := Match({AllowDuplicates});
      }
      n := Node("UNIQUE_DECLARATION", Null, [WithValue("UNIQUE", BoolV(unique))]);
    }

    /** The loop that joins the values of the tokens of a run, each followed by a space. */
    method CollectRun() returns (text: string)
      requires Valid()
      modifies this
      ensures Valid()
      ensures (text, current) == RunFrom(tokens, old(current))
    {
      text := "";
      ghost var start := current;
      while Continues(tokens, current)
        invariant Valid() && start <= current
        invariant RunFrom(tokens, start).0 == text + RunFrom(tokens, current).0
        invariant RunFrom(tokens, start).1 == RunFrom(tokens, current).1
        decreases |tokens| - current
      {
        ghost var p := current;
        RunFromStep(tokens, p);
        var t := Advance();
        ghost var rest := RunFrom(tokens, current).0;
        assert t.value.value == tokens[p].value;
        JoinedRun(text, t.value.value, rest);
        text := text + t.value.value + " ";
      }
      RunFromStop(tokens, current);
      assert text + "" == text;
    }

    /** `parseCondition`: a string condition unquoted, or the run of tokens up to the next
        command or semicolon joined and trimmed; nothing when neither follows. */
    method ParseCondition() returns (n: Node)
      requires Valid()
      modifies this
      ensures Valid()
      ensures (n, current) == ConditionAt(tokens, old(current))
    {
      n := Leaf("CONDITION");
      var s := MatchText({String});
      if s.Some? {
        n := AddChild(n, WithValue("CONDITION_EXPR", StrV(Unquote(s.value))));
      } else if Continues(tokens, current) {
        var text := CollectRun();
        if |text| > 0 {
          n := AddChild(n, WithValue("CONDITION_EXPR", StrV(Trim(text))));
        }
      }
    }

    /** `parseDeckDeclaration`: the deck type or STANDARD, then the size or 52. */
    method ParseDeck() returns (r: Result<Node>)
      requires Valid()
      modifies this
      ensures Valid()
      ensures Reached(r, current) == DeckAt(tokens, old(current))
    {
      var deckType := MatchText(DeckKinds);
      var size := MatchInt();
      if size.Err? {
        return Err(size.msg);
      }
      r := Ok(Node("DECK_DECLARATION", Null,
                   [WithValue("DECK_TYPE", StrV(deckType.GetOr("STANDARD"))),
                    WithValue("DECK_SIZE", IntV(size.value.GetOr(52)))]));
    }

    /** `parseDrawDeclaration`: the count or 1, then the replacement mode or
        NO_REPLACEMENT. */
    method ParseDraw() returns (r: Result<Node>)
      requires Valid()
      modifies this
      ensures Valid()
      ensures Reached(r, current) == DrawAt(tokens, old(current))
    {
      var count := MatchInt();
      if count.Err? {
        return Err(count.msg);
      }
      var replacement := MatchText(ReplacementKinds);
      r := Ok(Node("DRAW_DECLARATION", Null,
                   [WithValue("DRAW_COUNT", IntV(count.value.GetOr(1))),
                    WithValue("REPLACEMENT", StrV(replacement.GetOr("NO_REPLACEMENT")))]));
    }

    /** `parseCalculate`: the calculation type or PROBABILITY. */
    method ParseCalculate() returns (n: Node)
      requires Valid()
      modifies this
      ensures Valid()
      ensures (n, current) == CalculateAt(tokens, old(current))
    {
      var t := MatchText(CalculationKinds);
      n := Node("CALCULATE", Null, [WithValue("CALCULATION_TYPE", StrV(t.GetOr("PROBABILITY")))]);
    }

    /** `parseDomainDeclaration`: the unquoted string, when one follows. */
    method ParseDomain() returns (n: Node)
      requires Valid()
      modifies this
      ensures Valid()
      ensures (n, current) == DomainAt(tokens, old(current))
    {
      n := Leaf("DOMAIN_DECLARATION");
      var domain := MatchText({String});
      if domain.Some? {
        n := AddChild(n, WithValue("DOMAIN", StrV(Unquote(domain.value))));
      }
    }

    /** One pass of the loop after `CONSTRAINTS [`: an optional string constraint, then a
        comma, the closing `]` (not consumed), or one skipped token. `more` says whether
        the list goes on. */
    method ConstraintEntry() returns (s: Option<string>, more: bool)
      requires Valid() && !AtEnd() && !Check(Rbracket)
      modifies this
      ensures Valid()
      ensures var p := old(current); var q := Past(tokens, p, {String});
        s == (if At(tokens, p, {String}) then Some(Unquote(tokens[p].value)) else None)
        && (more <==> tokens[q].kind !in {Eof, Rbracket})
        && current == (if more then q + 1 else q)
      ensures var found := if s.Some? then [s.value] else [];
        var p := old(current);
        if more then
          ConstraintsFrom(tokens, p).0 == found + ConstraintsFrom(tokens, current).0
          && ConstraintsFrom(tokens, p).1 == ConstraintsFrom(tokens, current).1
        else ConstraintsFrom(tokens, p) == (found, current)
    {
      ConstraintsFromStep(tokens, current);
      var text := MatchText({String});
      s := if text.Some? then Some(Unquote(text.value)) else None;
      var comma := Match({Comma});
      if comma {
        return s, true;
      } else if Check(Rbracket) {
        return s, false;
      } else if !AtEnd() {
        var _ := Advance();
        return s, true;
      }
      return s, false;
    }

    /** The loop of `parseConstraintsDeclaration` after `[`: the constraints in the order
        they are read, stopping at `]` or EOF. */
    method ParseConstraintList() returns (cs: seq<string>)
      requires Valid()
      modifies this
      ensures Valid()
      ensures (cs, current) == ConstraintsFrom(tokens, old(current))
    {
      ghost var start := current;
      cs := [];
      assert cs + ConstraintsFrom(tokens, current).0 == ConstraintsFrom(tokens, current).0;
      while !AtEnd() && !Check(Rbracket)
        invariant Valid() && start <= current
        invariant ConstraintsFrom(tokens, start).0 == cs + ConstraintsFrom(tokens, current).0
        invariant ConstraintsFrom(tokens, start).1 == ConstraintsFrom(tokens, current).1
        decreases |tokens| - current
      {
        var s, more := ConstraintEntry();
        var found := if s.Some? then [s.value] else [];
        if !more {
          AppendEmpty(cs + found);
          cs := cs + found;
          return;
        }
        Associative(cs, found, ConstraintsFrom(tokens, current).0);
        cs := cs + found;
      }
      assert cs + [] == cs;
    }

    /** `parseConstraintsDeclaration`: after `[`, the string constraints up to `]`, the
        other tokens skipped; without `[`, at most one string constraint. */
    method ParseConstraints() returns (n: Node)
      requires Valid()
      modifies this
      ensures Valid()
      ensures (n, current) == ConstraintsAt(tokens, old(current))
    {
      var open := Match({Lbracket});
      if open {
        var cs := ParseConstraintList();
        n := Node("CONSTRAINTS_DECLARATION", Null, ConstraintNodes(cs));
        var _ := Match({Rbracket});
      } else {
        n := Leaf("CONSTRAINTS_DECLARATION");
        var s := MatchText({String});
        if s.Some? {
          n := AddChild(n, WithValue("CONSTRAINT", StrV(Unquote(s.value))));
        }
      }
    }

    // ------------------------------------------------------------ targets

    /** `parseSingleCard`: a rank (letter ranks spelled out) or an integer, then a suit
        (letter suits spelled out). */
    method ParseSingleCard() returns (r: Result<Node>)
      requires Valid()
      modifies this
      ensures Valid()
      ensures Reached(r, current) == SingleCardAt(tokens, old(current))
    {
      var rank: string;
      var letter := MatchText(RankKinds);
      if letter.Some? {
        rank := NormalizeRank(letter.value);
      } else {
        var number := MatchText({Integer});
        if number.None? {
          return Err("RuntimeException");
        }
        rank := number.value;
      }
      var suit := MatchText(SuitKinds);
      if suit.None? {
        return Err("RuntimeException");
      }
      r := Ok(Node("CARD", Null, [WithValue("RANK", StrV(rank)), WithValue("SUIT", StrV(NormalizeSuit(suit.value)))]));
    }

    /** `parseSingleCondition`: a word condition, an unquoted string, or any other token
        except EOF, `]` and `,`, whose text becomes the condition. */
    method ParseSingleCondition() returns (r: Result<Node>)
      requires Valid()
      modifies this
      ensures Valid()
      ensures Reached(r, current) == SingleConditionAt(tokens, old(current))
    {
      var text: string;
      var word := MatchText(WordConditionKinds);
      if word.Some? {
        text := word.value;
      } else {
        var s := MatchText({String});
        if s.Some? {
          text := Unquote(s.value);
        } else if !AtEnd() && !Check(Rbracket) && !Check(Comma) {
          var t := Advance();
          text := t.value.value;
        } else {
          return Err("RuntimeException");
        }
      }
      r := Ok(Node("CONDITION", Null, [WithValue("CONDITION_TYPE", StrV(text))]));
    }

    /** The value of a COUNT condition for the vocabulary `voc`: one token of its kinds, two
        integers joined with `-`, or nothing. */
    method ParseCountValue(voc: Vocabulary) returns (r: Result<Option<string>>)
      requires Valid()
      modifies this
      ensures Valid()
      ensures Reached(r, current) == CountValueAt(tokens, old(current), voc)
    {
      match voc {
        case OneOf(ks) =>
          var v := MatchText(ks);
          if v.None? {
            return Err("RuntimeException");
          }
          r := Ok(v);
        case Range =>
          var first := MatchText({Integer});
          if first.None? {
            return Err("RuntimeException");
          }
          var last := MatchText({Integer});
          if last.None? {
            return Err("RuntimeException");
          }
          r := Ok(Some(first.value + "-" + last.value));
        case NoValue =>
          r := Ok(None);
      }
    }

    /** `)`, the comparison operator and the integer target that end a COUNT condition. */
    method ParseCountTail(typeText: string, value: Option<string>) returns (r: Result<Node>)
      requires Valid()
      modifies this
      ensures Valid()
      ensures Reached(r, current) == CountTailAt(tokens, old(current), typeText, value)
    {
      var rparen := Match({Rparen});
      if !rparen {
        return Err("RuntimeException");
      }
      var op := MatchText(CountOperatorKinds);
      if op.None? {
        return Err("RuntimeException");
      }
      var target := MatchInt();
      if target.Err? {
        return Err(target.msg);
      }
      if target.value.None? {
        return Err("RuntimeException");
      }
      r := Ok(CountNode(typeText, value, op.value, target.value.value));
    }

    /** `parseCountCondition`, with the value expected after the type chosen by the type
        token's kind: the result is the one `CountConditionAt` defines. */
    method ParseCountCondition() returns (r: Result<Node>)
      requires Valid()
      modifies this
      ensures Valid()
      ensures Reached(r, current) == CountConditionAt(tokens, old(current), false)
    {
      ghost var p := current;
      var count := Match({Count});
      if !count {
        return Err("RuntimeException");
      }
      var lparen := Match({Lparen});
      if !lparen {
        return Err("RuntimeException");
      }
      var typed := Match(CountTypeKinds);
      if !typed {
        return Err("RuntimeException");
      }
      var typeToken := Previous().value;
      var voc := CountVocabulary(typeToken.kind);
      assert voc == ChooseVocabulary(tokens[p + 2], false);
      var value := ParseCountValue(voc);
      if value.Err? {
        return Err(value.msg);
      }
      r := ParseCountTail(typeToken.value, value.value);
    }

    /** The choice `parseTargetDeclaration` and `parseTargetList` make for each target: a
        card when a rank and a suit follow, a COUNT condition after `COUNT (`, a single
        condition otherwise. */
    method ParseTargetItem() returns (r: Result<Node>)
      requires Valid()
      modifies this
      ensures Valid()
      ensures Reached(r, current) == TargetItemAt(tokens, old(current))
    {
      if CardAhead(tokens, current) {
        r := ParseSingleCard();
      } else if CountAhead(tokens, current) {
        r := ParseCountCondition();
      } else {
        r := ParseSingleCondition();
      }
    }

    /** One pass of the loop of `parseTargetList`: a target and the comma after it, if any. */
    method TargetListEntry() returns (item: Result<Node>)
      requires Valid() && !AtEnd() && !Check(Rbracket)
      modifies this
      ensures Valid()
      ensures item.Ok? ==> current > old(current)
      ensures item.Err? ==> TargetsFrom(tokens, old(current)) == ([], current)
      ensures item.Ok? ==>
        TargetsFrom(tokens, old(current)).0 == [item.value] + TargetsFrom(tokens, current).0
        && TargetsFrom(tokens, old(current)).1 == TargetsFrom(tokens, current).1
    {
      item := ParseTargetItem();
      if item.Ok? {
        var _ := Match({Comma});
      }
    }

    /** `parseTargetList`: targets, each optionally followed by a comma, up to `]` or the
        first target that fails; then the `]` when it is there. */
    method ParseTargetList() returns (n: Node)
      requires Valid()
      modifies this
      ensures Valid()
      ensures (n, current) == TargetListAt(tokens, old(current))
    {
      ghost var start := current;
      n := Leaf("TARGET_LIST");
      while !AtEnd() && !Check(Rbracket)
        invariant Valid() && start <= current
        invariant n.kind == "TARGET_LIST" && n.value == Null
        invariant TargetsFrom(tokens, start).0 == n.children + TargetsFrom(tokens, current).0
        invariant TargetsFrom(tokens, start).1 == TargetsFrom(tokens, current).1
        decreases |tokens| - current
      {
        var item := TargetListEntry();
        if item.Err? {
          AppendEmpty(n.children);
          break;
        }
        Associative(n.children, [item.value], TargetsFrom(tokens, current).0);
        n := AddChild(n, item.value);
      }
      AppendEmpty(n.children);
      var _ := Match({Rbracket});
    }

    /** `parseTargetDeclaration`: a bracketed list, or one target; when that one fails the
        tokens up to the next command are skipped and the declaration stays empty. */
    method ParseTarget() returns (n: Node)
      requires Valid()
      modifies this
      ensures Valid()
      ensures (n, current) == TargetAt(tokens, old(current))
    {
      n := Leaf("TARGET_DECLARATION");
      var open := Match({Lbracket});
      if open {
        var list := ParseTargetList();
        n := AddChild(n, list);
        return;
      }
      var item := ParseTargetItem();
      if item.Ok? {
        n := AddChild(n, item.value);
      } else {
        ghost var q := current;
        while !AtEnd() && !IsNextCommand()
          invariant Valid() && q <= current
          invariant CommandFrom(tokens, q) == CommandFrom(tokens, current)
          decreases |tokens| - current
        {
          var _ := Advance();
        }
      }
    }

    // ------------------------------------------------------------ numbers

    /** `parsePositionList`: the DIGIT_POSITION texts that follow, in order. */
    method ParsePositionList() returns (ps: seq<string>)
      requires Valid()
      modifies this
      ensures Valid()
      ensures (ps, current) == PositionsFrom(tokens, old(current))
    {
      ghost var start := current;
      ps := [];
      while !AtEnd() && Check(DigitPosition)
        invariant Valid() && start <= current
        invariant PositionsFrom(tokens, start).0 == ps + PositionsFrom(tokens, current).0
        invariant PositionsFrom(tokens, start).1 == PositionsFrom(tokens, current).1
        decreases |tokens| - current
      {
        var t := Advance();
        Associative(ps, [t.value.value], PositionsFrom(tokens, current).0);
        ps := ps + [t.value.value];
      }
      AppendEmpty(ps);
    }

    /** The optional BOOLEAN after a flag keyword: true unless it says neither yes nor true. */
    method ParseFlag() returns (b: bool)
      requires Valid()
      modifies this
      ensures Valid()
      ensures b == FlagAt(tokens, old(current)) && current == Past(tokens, old(current), {Boolean})
    {
      b := true;
      var s := MatchText({Boolean});
      if s.Some? {
        b := IsYes(s.value);
      }
    }

    /** An integer attribute that is added only when an integer follows. */
    method IntAttribute(name: string) returns (r: Result<seq<Node>>)
      requires Valid()
      modifies this
      ensures Valid()
      ensures Reached(r, current) == IntAttributeAt(tokens, old(current), name)
    {
      var v := MatchInt();
      if v.Err? {
        return Err(v.msg);
      }
      r := Ok(IntChild(name, v.value));
    }

    /** An integer attribute that takes the value `d` when no integer follows. */
    method IntOrDefault(name: string, d: int) returns (r: Result<seq<Node>>)
      requires Valid()
      modifies this
      ensures Valid()
      ensures Reached(r, current) == IntOrDefaultAt(tokens, old(current), name, d)
    {
      var v := MatchInt();
      if v.Err? {
        return Err(v.msg);
      }
      r := Ok([WithValue(name, IntV(v.value.GetOr(d)))]);
    }

    /** The COMPARE and TOTAL clauses of a numbers block: positions, an operator of `ops`,
        positions. */
    method ParseComparison(ops: set<TokenKind>, fixed: Option<string>) returns (cs: seq<Node>)
      requires Valid()
      modifies this
      ensures Valid()
      ensures (cs, current) == ComparisonAt(tokens, old(current), ops, fixed)
    {
      var left := ParsePositionList();
      cs := ListChild("COMPARE_LEFT", left);
      var op := MatchText(ops);
      cs := cs + ChildIf(op.Some?, WithValue("COMPARE_OPERATOR", StrV(if fixed.Some? then fixed.value else op.GetOr(""))));
      var right := ParsePositionList();
      cs := cs + ListChild("COMPARE_RIGHT", right);
    }

    /** The attribute a numbers block reads after a keyword of kind `k`, the cursor being on
        the token after the keyword: an integer for DIGITS (or NUMBER_LENGTH) and MAX_DIGIT,
        a flag that defaults to true, an order, or a comparison. */
    method NumbersAttribute(k: TokenKind) returns (r: Result<seq<Node>>)
      requires Valid() && k in NumbersValueKinds
      modifies this
      ensures Valid()
      ensures Reached(r, current) == NumbersAttributeAt(tokens, k, old(current))
    {
      if k == Digits || k == NumberLength {
        r := IntAttribute("DIGITS");
      } else if k == MaxDigit {
        r := IntAttribute("MAX_DIGIT");
      } else if k == FirstNotZero || k == Distinct || k == AdjacentDifferent {
        var b := ParseFlag();
        r := Ok([WithValue(FlagName(k), BoolV(b))]);
      } else if k == Order {
        var o := MatchText(OrderKinds);
        r := Ok(if o.Some? then [WithValue("ORDER", StrV(o.value))] else []);
      } else if k == Compare {
        var cs := ParseComparison(CompareKinds, None);
        r := Ok(cs);
      } else {
        var cs := ParseComparison({Equals}, Some("="));
        r := Ok(cs);
      }
    }

    /** One pass of the loop of `parseNumbersDeclaration` on a token that is not EOF: the
        attributes it adds and whether the block ends there. A semicolon ends the block
        after itself; a command keyword ends it one token before itself. */
    method NumbersEntry() returns (r: Result<seq<Node>>, stop: bool)
      requires Valid() && !AtEnd() && (current > 0 || !IsNextCommand())
      modifies this
      ensures Valid()
      ensures Reached(r, current) == EntryAt(tokens, NumbersBlock, old(current))
      ensures stop <==> Ends(tokens, NumbersBlock, old(current))
    {
      if At(tokens, current, NumbersValueKinds) {
        NumbersKeywordsAreNotCommands(tokens[current].kind);
        var keyword := Advance();
        r := NumbersAttribute(keyword.value.kind);
        return r, false;
      }
      var semicolon := Match({Semicolon});
      if semicolon {
        return Ok([]), true;
      }
      if IsNextCommand() {
        current := current - 1;
        return Ok([]), true;
      }
      var _ := Advance();
      return Ok([]), false;
    }

    /** `parseNumbersDeclaration`: the attributes of the block up to EOF, a semicolon or the
        token before the next command. Entered on a command keyword, the block is empty and
        hands the cursor back one token. */
    method ParseNumbers() returns (r: Result<Node>)
      requires Valid() && (current > 0 || !IsNextCommand())
      modifies this
      ensures Valid()
      ensures Reached(r, current) == BlockAt(tokens, NumbersBlock, old(current))
    {
      ghost var start := current;
      var node := Leaf("NUMBERS_DECLARATION");
      PrependNothing(BlockFrom(tokens, NumbersBlock, current));
      while !AtEnd()
        invariant Valid() && start <= current && (current > 0 || !IsNextCommand())
        invariant node.kind == "NUMBERS_DECLARATION" && node.value == Null
        invariant BlockFrom(tokens, NumbersBlock, start) == Prepend(node.children, BlockFrom(tokens, NumbersBlock, current))
        decreases |tokens| - current
      {
        ghost var p := current;
        var entry, stop := NumbersEntry();
        if entry.Err? {
          return Err(entry.msg);
        }
        if !stop {
          PrependPrepend(node.children, entry.value, BlockFrom(tokens, NumbersBlock, current));
        }
        node := Node(node.kind, node.value, node.children + entry.value);
        if stop {
          return Ok(node);
        }
      }
      AppendEmpty(node.children);
      return Ok(node);
    }

    // ------------------------------------------------------------ divisibility

    /** The attribute a divisibility block reads after a keyword of kind `k`, the cursor
        being on the token after the keyword: an integer after DIGITS (or NUMBER_LENGTH) and
        DIVIDES_BY, and after RULE (or FORMATION_RULE) the run of tokens up to the next
        command or semicolon, joined and trimmed, when the run is not empty. */
    method DivisibilityAttribute(k: TokenKind) returns (r: Result<seq<Node>>)
      requires Valid() && k in DivisibilityValueKinds
      modifies this
      ensures Valid()
      ensures Reached(r, current) == DivisibilityAttributeAt(tokens, k, old(current))
    {
      if k == Digits || k == NumberLength {
        r := IntAttribute("DIGITS");
      } else if k == DividesBy {
        r := IntAttribute("DIVISOR");
      } else {
        var text := CollectRun();
        r := Ok(if |text| > 0 then [WithValue("RULE", StrV(Trim(text)))] else []);
      }
    }

    /** One pass of the loop of `parseDivisibilityDeclaration` on a token that is not EOF:
        the attributes it adds and whether the block ends there. A semicolon ends the block
        after itself; a command keyword ends it one token before itself. */
    method DivisibilityEntry() returns (r: Result<seq<Node>>, stop: bool)
      requires Valid() && !AtEnd() && (current > 0 || !IsNextCommand())
      modifies this
      ensures Valid()
      ensures Reached(r, current) == EntryAt(tokens, DivisibilityBlock, old(current))
      ensures stop <==> Ends(tokens, DivisibilityBlock, old(current))
    {
      if At(tokens, current, DivisibilityValueKinds) {
        DivisibilityKeywordsAreNotCommands(tokens[current].kind);
        var keyword := Advance();
        r := DivisibilityAttribute(keyword.value.kind);
        return r, false;
      }
      var semicolon := Match({Semicolon});
      if semicolon {
        return Ok([]), true;
      }
      if IsNextCommand() {
        current := current - 1;
        return Ok([]), true;
      }
      var _ := Advance();
      return Ok([]), false;
    }

    /** `parseDivisibilityDeclaration`: the attributes of the block up to EOF, a semicolon
        or the token before the next command. Entered on a command keyword, the block is
        empty and hands the cursor back one token. */
    method ParseDivisibility() returns (r: Result<Node>)
      requires Valid() && (current > 0 || !IsNextCommand())
      modifies this
      ensures Valid()
      ensures Reached(r, current) == BlockAt(tokens, DivisibilityBlock, old(current))
    {
      ghost var start := current;
      var node := Leaf("DIVISIBILITY_DECLARATION");
      PrependNothing(BlockFrom(tokens, DivisibilityBlock, current));
      while !AtEnd()
        invariant Valid() && start <= current && (current > 0 || !IsNextCommand())
        invariant node.kind == "DIVISIBILITY_DECLARATION" && node.value == Null
        invariant BlockFrom(tokens, DivisibilityBlock, start) == Prepend(node.children, BlockFrom(tokens, DivisibilityBlock, current))
        decreases |tokens| - current
      {
        ghost var p := current;
        var entry, stop := DivisibilityEntry();
        if entry.Err? {
          return Err(entry.msg);
        }
        if !stop {
          PrependPrepend(node.children, entry.value, BlockFrom(tokens, DivisibilityBlock, current));
        }
        node := Node(node.kind, node.value, node.children + entry.value);
        if stop {
          return Ok(node);
        }
      }
      AppendEmpty(node.children);
      return Ok(node);
    }

    // ------------------------------------------------------------ remainders

    /** The attribute a remainders block reads after a keyword of kind `k`, the cursor being
        on the token after the keyword: the dividend (X by default), the divisor (1 by
        default) or the remainder (0 by default). */
    method RemaindersAttribute(k: TokenKind) returns (r: Result<seq<Node>>)
      requires Valid() && k in RemaindersValueKinds
      modifies this
      ensures Valid()
      ensures Reached(r, current) == RemaindersAttributeAt(tokens, k, old(current))
    {
      if k == Dividend {
        var s := MatchText({String});
        if s.Some? {
          return Ok([WithValue("DIVIDEND", StrV(Unquote(s.value)))]);
        }
        var t := MatchText({Integer, Variable});
        r := Ok([WithValue("DIVIDEND", StrV(t.GetOr("X")))]);
      } else if k == Divisor {
        r := IntOrDefault("DIVISOR", 1);
      } else {
        r := IntOrDefault("REMAINDER", 0);
      }
    }

    /** One pass of the loop of `parseRemaindersDeclaration` on a token that is not EOF: the
        attributes it adds and whether the block ends there. A command keyword ends it one
        token before itself; there is no semicolon case. */
    method RemaindersEntry() returns (r: Result<seq<Node>>, stop: bool)
      requires Valid() && !AtEnd() && (current > 0 || !IsNextCommand())
      modifies this
      ensures Valid()
      ensures Reached(r, current) == EntryAt(tokens, RemaindersBlock, old(current))
      ensures stop <==> Ends(tokens, RemaindersBlock, old(current))
    {
      if At(tokens, current, RemaindersValueKinds) {
        RemaindersKeywordsAreNotCommands(tokens[current].kind);
        var keyword := Advance();
        r := RemaindersAttribute(keyword.value.kind);
        return r, false;
      }
      if IsNextCommand() {
        current := current - 1;
        return Ok([]), true;
      }
      var _ := Advance();
      return Ok([]), false;
    }

    /** `parseRemaindersDeclaration`: the attributes of the block up to EOF or the token
        before the next command. */
    method ParseRemainders() returns (r: Result<Node>)
      requires Valid() && (current > 0 || !IsNextCommand())
      modifies this
      ensures Valid()
      ensures Reached(r, current) == BlockAt(tokens, RemaindersBlock, old(current))
    {
      ghost var start := current;
      var node := Leaf("REMAINDERS_DECLARATION");
      PrependNothing(BlockFrom(tokens, RemaindersBlock, current));
      while !AtEnd()
        invariant Valid() && start <= current && (current > 0 || !IsNextCommand())
        invariant node.kind == "REMAINDERS_DECLARATION" && node.value == Null
        invariant BlockFrom(tokens, RemaindersBlock, start) == Prepend(node.children, BlockFrom(tokens, RemaindersBlock, current))
        decreases |tokens| - current
      {
        ghost var p := current;
        var entry, stop := RemaindersEntry();
        if entry.Err? {
          return Err(entry.msg);
        }
        if !stop {
          PrependPrepend(node.children, entry.value, BlockFrom(tokens, RemaindersBlock, current));
        }
        node := Node(node.kind, node.value, node.children + entry.value);
        if stop {
          return Ok(node);
        }
      }
      AppendEmpty(node.children);
      return Ok(node);
    }

    // ------------------------------------------------------------ colour and piece lists

    /** One step of `parseBallsMap`: a colour, its count and an optional comma, or any
        other token skipped; `closed` when no comma follows the count and the list ends
        there. */
    method BallsMapEntry() returns (r: Result<Option<(string, int)>>, closed: bool)
      requires Valid() && !AtEnd() && !Check(Rbracket)
      modifies this
      ensures Valid()
      ensures current > old(current)
      ensures closed ==> Check(Rbracket)
      ensures r.Err? ==> BallsMapFrom(tokens, old(current)) == Thrown(r.msg, current)
      ensures r == Ok(None) ==> BallsMapFrom(tokens, old(current)) == BallsMapFrom(tokens, current)
      ensures r.Ok? && r.value.Some? ==>
        BallsMapFrom(tokens, old(current)) == Prepend([r.value.value], BallsMapFrom(tokens, current))
    {
      closed := false;
      if !CheckColor() {
        BallsMapFromSkip(tokens, current);
        var _ := Advance();
        return Ok(None), false;
      }
      BallsMapFromItem(tokens, current);
      var step := ColorCount();
      if step.Err? {
        return Err(step.msg), false;
      }
      r := Ok(Some(step.value));
      ghost var q := current;
      var comma := Match({Comma});
      if comma {
        BallsMapFromSkip(tokens, q);
      }
      closed := !comma && Check(Rbracket);
    }

    /** `parseBallsMap`: the colour counts up to `]` or EOF, repeated colours summed, other
        tokens skipped. */
    method ParseBallsMap() returns (r: Result<map<string, int>>)
      requires Valid()
      modifies this
      ensures Valid()
      ensures var l := BallsMapFrom(tokens, old(current));
        (r.Err? <==> l.Thrown?) && (r.Err? ==> r.msg == l.msg)
        && (r.Ok? ==> r.value == TallyAll(map[], l.value)) && current == l.Pos()
    {
      ghost var start := current;
      ghost var items: seq<(string, int)> := [];
      var balls: map<string, int> := map[];
      PrependNothing(BallsMapFrom(tokens, current));
      while !AtEnd() && !Check(Rbracket)
        invariant Valid() && start <= current
        invariant BallsMapFrom(tokens, start) == Prepend(items, BallsMapFrom(tokens, current))
        invariant balls == TallyAll(map[], items)
        decreases |tokens| - current
      {
        var step, closed := BallsMapEntry();
        if step.Err? {
          return Err(step.msg);
        }
        if step.value.Some? {
          var (c, n) := step.value.value;
          balls := Tally(balls, c, n);
          TallyAllSnoc(map[], items, c, n);
          PrependPrepend(items, [(c, n)], BallsMapFrom(tokens, current));
          items := items + [(c, n)];
        }
        if closed {
          break;
        }
      }
      AppendEmpty(items);
      r := Ok(balls);
    }

    /** One colour of `parseSimpleBallsList` and its count. */
    method SimpleBallsItem() returns (r: Result<(string, int)>)
      requires Valid() && CheckColor()
      modifies this
      ensures Valid()
      ensures current > old(current)
      ensures r.Err? ==> SimpleBallsFrom(tokens, old(current)) == Thrown(r.msg, current)
      ensures r.Ok? ==> SimpleBallsFrom(tokens, old(current)) == Prepend([r.value], SimpleBallsFrom(tokens, current))
    {
      SimpleBallsFromItem(tokens, current);
      r := ColorCount();
    }

    /** `parseSimpleBallsList`: colour counts for as long as colours follow one another. */
    method ParseSimpleBallsList() returns (r: Result<map<string, int>>)
      requires Valid()
      modifies this
      ensures Valid()
      ensures var l := SimpleBallsFrom(tokens, old(current));
        (r.Err? <==> l.Thrown?) && (r.Err? ==> r.msg == l.msg)
        && (r.Ok? ==> r.value == TallyAll(map[], l.value)) && current == l.Pos()
    {
      ghost var start := current;
      ghost var items: seq<(string, int)> := [];
      var balls: map<string, int> := map[];
      PrependNothing(SimpleBallsFrom(tokens, current));
      while !AtEnd() && (CheckColor() || Check(Integer))
        invariant Valid() && start <= current
        invariant SimpleBallsFrom(tokens, start) == Prepend(items, SimpleBallsFrom(tokens, current))
        invariant balls == TallyAll(map[], items)
        decreases |tokens| - current
      {
        if CheckColor() {
          var step := SimpleBallsItem();
          if step.Err? {
            return Err(step.msg);
          }
          var (c, n) := step.value;
          balls := Tally(balls, c, n);
          TallyAllSnoc(map[], items, c, n);
          PrependPrepend(items, [(c, n)], SimpleBallsFrom(tokens, current));
          items := items + [(c, n)];
        } else {
          break;
        }
      }
      AppendEmpty(items);
      r := Ok(balls);
    }

    /** A piece at the cursor, the name it is counted under and the count after it. */
    method PieceCount() returns (r: Result<(string, int)>)
      requires Valid() && At(tokens, current, PieceKinds)
      modifies this
      ensures Valid()
      ensures current > old(current)
      ensures r.Err? ==> PiecesFrom(tokens, old(current)) == Thrown(r.msg, current)
      ensures r.Ok? ==> PiecesFrom(tokens, old(current)) == Prepend([r.value], PiecesFrom(tokens, current))
    {
      PiecesFromItem(tokens, current);
      var piece := MatchText(PieceKinds);
      var pieceType := PieceType(piece.value);
      var count := CountAfter();
      if count.Err? {
        return Err(count.msg);
      }
      r := Ok((pieceType, count.value));
    }

    /** One step of the piece list: a piece, its name, its count and an optional comma, or
        any other token skipped; `closed` when no comma follows the count and the list ends
        there. */
    method PiecesEntry() returns (r: Result<Option<(string, int)>>, closed: bool)
      requires Valid() && !AtEnd() && !Check(Rbracket)
      modifies this
      ensures Valid()
      ensures current > old(current)
      ensures closed ==> Check(Rbracket)
      ensures r.Err? ==> PiecesFrom(tokens, old(current)) == Thrown(r.msg, current)
      ensures r == Ok(None) ==> PiecesFrom(tokens, old(current)) == PiecesFrom(tokens, current)
      ensures r.Ok? && r.value.Some? ==>
        PiecesFrom(tokens, old(current)) == Prepend([r.value.value], PiecesFrom(tokens, current))
    {
      closed := false;
      if !At(tokens, current, PieceKinds) {
        PiecesFromSkip(tokens, current);
        var _ := Advance();
        return Ok(None), false;
      }
      var step := PieceCount();
      if step.Err? {
        return Err(step.msg), false;
      }
      ghost var q := current;
      var comma := Match({Comma});
      if comma {
        PiecesFromSkip(tokens, q);
      }
      assert PiecesFrom(tokens, q) == PiecesFrom(tokens, current);
      r := Ok(Some(step.value));
      closed := !comma && Check(Rbracket);
    }

    /** The list after `PIECES [`: piece counts up to `]` or EOF under their names without
        the `CHESS_` prefix, repeated pieces summed, other tokens skipped. */
    method ParsePiecesList() returns (r: Result<map<string, int>>)
      requires Valid()
      modifies this
      ensures Valid()
      ensures var l := PiecesFrom(tokens, old(current));
        (r.Err? <==> l.Thrown?) && (r.Err? ==> r.msg == l.msg)
        && (r.Ok? ==> r.value == TallyAll(map[], l.value)) && current == l.Pos()
    {
      ghost var start := current;
      ghost var items: seq<(string, int)> := [];
      var pieces: map<string, int> := map[];
      PrependNothing(PiecesFrom(tokens, current));
      while !AtEnd() && !Check(Rbracket)
        invariant Valid() && start <= current
        invariant PiecesFrom(tokens, start) == Prepend(items, PiecesFrom(tokens, current))
        invariant pieces == TallyAll(map[], items)
        decreases |tokens| - current
      {
        var step, closed := PiecesEntry();
        if step.Err? {
          return Err(step.msg);
        }
        if step.value.Some? {
          var (name, n) := step.value.value;
          pieces := Tally(pieces, name, n);
          TallyAllSnoc(map[], items, name, n);
          PrependPrepend(items, [(name, n)], PiecesFrom(tokens, current));
          items := items + [(name, n)];
        }
        if closed {
          break;
        }
      }
      AppendEmpty(items);
      r := Ok(pieces);
    }

    // ------------------------------------------------------------ chess

    /** What follows PIECES: a bracketed piece list, kept only when its `]` is there;
        nothing when no `[` follows. */
    method ParsePieces() returns (r: Result<seq<Node>>)
      requires Valid()
      modifies this
      ensures Valid()
      ensures Reached(r, current) == PiecesAt(tokens, old(current))
    {
      var open := Match({Lbracket});
      if !open {
        return Ok([]);
      }
      var m := ParsePiecesList();
      if m.Err? {
        return Err(m.msg);
      }
      var close := Match({Rbracket});
      r := Ok(if close then [WithValue("PIECES", MapV(m.value))] else []);
    }

    /** One step of `parseChessDeclaration`: a stop at a command that is not one of its
        own, or one step as `ChessEntryAt` describes it. */
    method ChessEntry() returns (r: Result<seq<Node>>, stop: bool)
      requires Valid() && !AtEnd()
      modifies this
      ensures Valid()
      ensures stop <==> IsChessStop(tokens, old(current))
      ensures stop ==> r == Ok([]) && current == old(current)
      ensures !stop ==> Reached(r, current) == ChessEntryAt(tokens, old(current))
    {
      var height := Match({BoardHeight});
      if height {
        r := IntOrDefault("BOARD_HEIGHT", 8);
        return r, false;
      }
      var width := Match({BoardWidth});
      if width {
        r := IntOrDefault("BOARD_WIDTH", 8);
        return r, false;
      }
      var pieces := Match({Pieces});
      if pieces {
        r := ParsePieces();
        return r, false;
      }
      var attacking := Match({Attacking, NonAttacking});
      if attacking {
        var prev := Previous();
        return Ok([WithValue("ATTACKING", BoolV(prev.value.kind == Attacking))]), false;
      }
      if IsNextCommand() {
        return Ok([]), true;
      }
      var _ := Advance();
      r, stop := Ok([]), false;
    }

    /** `parseChessDeclaration`: the board sizes, pieces and attacking flag up to EOF or a
        command that is not one of its own. */
    method ParseChess() returns (r: Result<Node>)
      requires Valid()
      modifies this
      ensures Valid()
      ensures Reached(r, current) == ChessAt(tokens, old(current))
    {
      ghost var start := current;
      var node := Leaf("CHESS_DECLARATION");
      PrependNothing(ChessFrom(tokens, current));
      while !AtEnd()
        invariant Valid() && start <= current
        invariant node.kind == "CHESS_DECLARATION" && node.value == Null
        invariant ChessFrom(tokens, start) == Prepend(node.children, ChessFrom(tokens, current))
        decreases |tokens| - current
      {
        var entry, stop := ChessEntry();
        if entry.Err? {
          return Err(entry.msg);
        }
        if stop {
          AppendEmpty(node.children);
          return Ok(node);
        }
        PrependPrepend(node.children, entry.value, ChessFrom(tokens, current));
        node := Node(node.kind, node.value, node.children + entry.value);
      }
      AppendEmpty(node.children);
      r := Ok(node);
    }

    // ------------------------------------------------------------ balls

    /** A `[`-bracketed colour list at the cursor, as the map child `kind` that is left out
        when the map is empty; the closing `]` is consumed when it is there. */
    method ParseBracketedBalls(kind: string) returns (r: Result<seq<Node>>)
      requires Valid() && At(tokens, current, {Lbracket})
      modifies this
      ensures Valid()
      ensures Reached(r, current) == BracketedBallsAt(tokens, old(current), kind)
    {
      var _ := Match({Lbracket});
      var m := ParseBallsMap();
      if m.Err? {
        return Err(m.msg);
      }
      r := Ok(MapChild(kind, m.value));
      var _ := Match({Rbracket});
    }

    /** The urn part of `parseBallsDeclaration`. */
    method ParseUrnPart() returns (r: Result<seq<Node>>)
      requires Valid()
      modifies this
      ensures Valid()
      ensures Reached(r, current) == UrnPartAt(tokens, old(current))
    {
      var urn := Match({Urn});
      if !urn && !Check(Lbracket) {
        return Ok([]);
      }
      var prev := Previous();
      if prev.Err? {
        return Err(prev.msg);
      }
      if prev.value.kind != Urn {
        current := current - 1;
      }
      if !Check(Lbracket) {
        return Ok([]);
      }
      r := ParseBracketedBalls("URN_CONTENTS");
    }

    /** The drawn-balls part of `parseBallsDeclaration`. */
    method ParseDrawPart() returns (r: Result<seq<Node>>)
      requires Valid()
      modifies this
      ensures Valid()
      ensures Reached(r, current) == DrawPartAt(tokens, old(current))
    {
      ghost var p := current;
      var draw := Match({Draw});
      if !draw && !Check(Lbracket) {
        return Ok([]);
      }
      var prev := Previous();
      if prev.Err? {
        return Err(prev.msg);
      }
      if prev.value.kind != Draw && Check(Lbracket) {
        current := current - 1;
      }
      assert DrawPartAt(tokens, p) == DrawBallsAt(tokens, current);
      r := ParseDrawBalls();
    }

    /** The balls after DRAW, or after the bracket that stands for it. */
    method ParseDrawBalls() returns (r: Result<seq<Node>>)
      requires Valid()
      modifies this
      ensures Valid()
      ensures Reached(r, current) == DrawBallsAt(tokens, old(current))
    {
      if Check(Lbracket) {
        r := ParseBracketedBalls("DRAW_BALLS");
      } else if CheckColor() || Check(Integer) {
        var m := ParseSimpleBallsList();
        if m.Err? {
          return Err(m.msg);
        }
        r := Ok(MapChild("DRAW_BALLS", m.value));
      } else {
        r := Ok([]);
      }
    }

    /** The draw type and the draw count that end `parseBallsDeclaration`, added to a node
        whose children so far are `parts`. */
    method ParseDrawTail(parts: seq<Node>) returns (r: Result<Node>)
      requires Valid()
      modifies this
      ensures Valid()
      ensures Reached(r, current) == BallsAfterDraw(tokens, parts, old(current))
    {
      ghost var p := current;
      var node := Node("BALLS_DECLARATION", Null, parts);
      var typed := Match(DrawTypeKinds);
      if typed {
        var prev := Previous();
        node := AddChild(node, WithValue("DRAW_TYPE", BoolV(prev.value.kind == Sequential)));
      } else {
        AppendEmpty(parts);
      }
      var counted := Match({Integer});
      if counted && !IsNextCommand() {
        var prev := Previous();
        match ParseInt(prev.value.value)
        case None =>
          return Err("NumberFormatException");
        case Some(v) =>
          node := AddChild(node, WithValue("DRAW_COUNT", IntV(v)));
      } else {
        AppendEmpty(node.children);
      }
      r := Ok(node);
    }

    /** `parseBallsDeclaration`: an urn part, a drawn-balls part, a draw type and a draw
        count, each optional. */
    method ParseBalls() returns (r: Result<Node>)
      requires Valid()
      modifies this
      ensures Valid()
      ensures Reached(r, current) == BallsDeclarationAt(tokens, old(current))
    {
      var urn := ParseUrnPart();
      if urn.Err? {
        return Err(urn.msg);
      }
      var draw := ParseDrawPart();
      if draw.Err? {
        return Err(draw.msg);
      }
      r := ParseDrawTail(urn.value + draw.value);
    }

    /** `parseSimpleBallsDeclaration`: colours for the urn, DRAW and colours for the drawn
        balls, and a draw type. */
    method ParseSimpleBalls() returns (r: Result<Node>)
      requires Valid()
      modifies this
      ensures Valid()
      ensures Reached(r, current) == SimpleBallsDeclarationAt(tokens, old(current))
    {
      var urn := ParseSimpleBallsList();
      if urn.Err? {
        return Err(urn.msg);
      }
      var draw := ParseSimpleDraw();
      if draw.Err? {
        return Err(draw.msg);
      }
      var typed := ParseDrawType();
      r := Ok(Node("BALLS_DECLARATION", Null, MapChild("URN_CONTENTS", urn.value) + draw.value + typed));
    }

    /** DRAW and the colours after it, in a simple balls declaration. */
    method ParseSimpleDraw() returns (r: Result<seq<Node>>)
      requires Valid()
      modifies this
      ensures Valid()
      ensures Reached(r, current) == SimpleDrawAt(tokens, old(current))
    {
      var draw := Match({Draw});
      if !draw {
        return Ok([]);
      }
      var balls := ParseSimpleBallsList();
      if balls.Err? {
        return Err(balls.msg);
      }
      r := Ok(MapChild("DRAW_BALLS", balls.value));
    }

    /** SEQUENTIAL or SIMULTANEOUS, consumed when present: the DRAW_TYPE child it adds. */
    method ParseDrawType() returns (parts: seq<Node>)
      requires Valid()
      modifies this
      ensures Valid()
      ensures parts == DrawTypeAt(tokens, old(current))
      ensures current == Past(tokens, old(current), DrawTypeKinds)
    {
      var typed := Match(DrawTypeKinds);
      if typed {
        var prev := Previous();
        parts := [WithValue("DRAW_TYPE", BoolV(prev.value.kind == Sequential))];
      } else {
        parts := [];
      }
    }

    // ------------------------------------------------------------ the top-level loop

    /** The declarations introduced by a keyword of their own: the keyword is consumed
        (ALLOW_DUPLICATES is handed back first) and the sub-parser for it runs. */
    method ParseKeywordDeclaration(route: Route) returns (r: Result<Node>)
      requires Valid() && !AtEnd() && route == Dispatch(tokens, current) && route.IsKeywordRoute()
      modifies this
      ensures Valid()
      ensures Declared(Reached(r, current)) == DeclarationAt(tokens, old(current))
    {
      match route
      case ToTask =>
        var _ := Advance();
        var n := ParseTask();
        r := Ok(n);
      case ToDeck =>
        var _ := Advance();
        var n := ParseDeck();
        r := n;
      case ToAlphabet =>
        var _ := Advance();
        var n := ParseAlphabet();
        r := Ok(n);
      case ToLength =>
        var _ := Advance();
        var n := ParseOptionalInt("LENGTH_DECLARATION", "LENGTH");
        r := n;
      case ToUnique =>
        var _ := Advance();
        var n := ParseUnique();
        r := Ok(n);
      case ToAllowDuplicates =>
        var _ := Advance();
        current := current - 1;
        var n := ParseUnique();
        r := Ok(n);
      case ToTarget =>
        var _ := Advance();
        var n := ParseTarget();
        r := Ok(n);
      case ToDraw =>
        var _ := Advance();
        var n := ParseDraw();
        r := n;
      case ToCondition =>
        var _ := Advance();
        var n := ParseCondition();
        r := Ok(n);
      case ToCalculate =>
        var _ := Advance();
        var n := ParseCalculate();
        r := Ok(n);
      case ToUnknowns =>
        var _ := Advance();
        var n := ParseOptionalInt("UNKNOWNS_DECLARATION", "UNKNOWNS_COUNT");
        r := n;
      case ToSum =>
        var _ := Advance();
        var n := ParseOptionalInt("SUM_DECLARATION", "SUM_VALUE");
        r := n;
      case ToDomain =>
        var _ := Advance();
        var n := ParseDomain();
        r := Ok(n);
      case ToConstraints =>
        var _ := Advance();
        var n := ParseConstraints();
        r := Ok(n);
    }

    /** The blocks and the balls declarations, some entered without a keyword, some handing
        their keyword back before they start. */
    method ParseBlockDeclaration(route: Route) returns (r: Result<Node>)
      requires Valid() && !AtEnd() && route == Dispatch(tokens, current)
      requires !route.IsKeywordRoute() && !route.Skip?
      modifies this
      ensures Valid()
      ensures Declared(Reached(r, current)) == DeclarationAt(tokens, old(current))
    {
      match route
      case ToNumbers(keyword) =>
        if keyword {
          var _ := Advance();
        }
        var n := ParseNumbers();
        r := n;
      case ToRemainders =>
        var _ := Advance();
        current := current - 1;
        var n := ParseRemainders();
        r := n;
      case ToDivisibility(keyword) =>
        if keyword {
          var _ := Advance();
        }
        var n := ParseDivisibility();
        r := n;
      case ToBalls =>
        var _ := Advance();
        BallsDeclarationShape(tokens, current);
        var n := ParseBalls();
        r := n;
      case ToChess =>
        var _ := Advance();
        current := current - 1;
        var n := ParseChess();
        r := n;
      case ToUrnStart =>
        BallsDeclarationShape(tokens, current);
        var n := ParseBalls();
        r := n;
      case ToSimpleBalls =>
        SimpleBallsDeclarationShape(tokens, current);
        var n := ParseSimpleBalls();
        r := n;
    }

    /** One pass of the loop in `parse`, at a token other than EOF: the declaration the
        route at the cursor leads to, or nothing when the token is skipped; a thrown
        exception is an `Err`, with the cursor where the exception left it. */
    method Step() returns (r: Result<Option<Node>>)
      requires Valid() && !AtEnd()
      modifies this
      ensures Valid()
      ensures Reached(r, current) == DeclarationAt(tokens, old(current))
      ensures Stalls(tokens, old(current)) ==> r.Ok? && r.value.Some? && current == old(current)
    {
      if Stalls(tokens, current) {
        StallsStay(tokens, current);
      }
      var route := Dispatch(tokens, current);
      if route.Skip? {
        var _ := Advance();
        return Ok(None);
      }
      var n;
      if route.IsKeywordRoute() {
        n := ParseKeywordDeclaration(route);
      } else {
        n := ParseBlockDeclaration(route);
      }
      r := Lift(n);
    }

    /** One pass of the loop in `parse` with its `catch`: the declaration the pass adds, if
        any; a pass that throws adds nothing and moves on one token unless at EOF. */
    method Pass(ghost fuel: nat) returns (d: Option<Node>)
      requires Valid() && !AtEnd() && fuel > 0
      modifies this
      ensures Valid()
      ensures ProgramFrom(tokens, old(current), fuel).0 == Added(d) + ProgramFrom(tokens, current, fuel - 1).0
      ensures ProgramFrom(tokens, old(current), fuel).1 == ProgramFrom(tokens, current, fuel - 1).1
    {
      ghost var p := current;
      var r := Step();
      if r.Err? {
        ProgramFromThrown(tokens, p, fuel, r.msg, current);
        if !AtEnd() {
          var _ := Advance();
        }
        d := None;
      } else {
        ProgramFromDone(tokens, p, fuel, r.value, current);
        d := r.value;
      }
    }

    /** `parse`, for at most `fuel` passes of its loop: a PROGRAM node whose children are the
        declarations in the order they were read. A pass that throws adds nothing and moves
        on one token unless at EOF. `done` when the loop ended at EOF. */
    method Parse(fuel: nat) returns (program: Node, done: bool)
      requires Valid()
      modifies this
      ensures Valid()
      ensures var (declarations, end) := ProgramFrom(tokens, old(current), fuel);
        program == Node("PROGRAM", Null, declarations) && current == end
      ensures done <==> AtEnd()
    {
      ghost var start := current;
      program := Leaf("PROGRAM");
      var passes := 0;
      while passes < fuel && !AtEnd()
        invariant Valid() && passes <= fuel
        invariant program.kind == "PROGRAM" && program.value == Null
        invariant ProgramFrom(tokens, start, fuel).0 == program.children + ProgramFrom(tokens, current, fuel - passes).0
        invariant ProgramFrom(tokens, start, fuel).1 == ProgramFrom(tokens, current, fuel - passes).1
      {
        ghost var before := program.children;
        var d := Pass(fuel - passes);
        if d.Some? {
          program := AddChild(program, d.value);
        } else {
          AppendEmpty(program.children);
        }
        Associative(before, Added(d), ProgramFrom(tokens, current, fuel - passes - 1).0);
        passes := passes + 1;
      }
      AppendEmpty(program.children);
      done := AtEnd();
    }
  }

  /** A sub-parser's result as the result of a pass. */
  function Lift(r: Result<Node>): (s: Result<Option<Node>>)
    ensures s.Err? <==> r.Err?
    ensures r.Ok? ==> s == Ok(Some(r.value))
    ensures forall pos :: Reached(s, pos) == Declared(Reached(r, pos))
  {
    match r
    case Ok(n) => Ok(Some(n))
    case Err(e) => Err(e)
  }
}
