/** What the balls-and-urns renderer reads back from the parameters the interpreter wrote:
    the urn and the drawn balls as colour maps, re-parsed from their `"RED 3, BLUE 5"`
    texts or collected from the `ball_*` / `draw_*` counts, with fixed fallbacks, and
    whether the draw is sequential. */
module BallsImage {
  import opened Wrappers
  import opened JavaText
  import opened JavaMaps
  import opened Ast
  import opened Context
  import opened InterpreterBlocks

  // ---------------------------------------------------------------- colours

  /** The keys of `BALL_COLORS`. */
  predicate IsBallColor(s: string) {
    s == "RED" || s == "BLUE" || s == "GREEN" || s == "WHITE" || s == "BLACK"
  }

  /** The class `[,\s]` of the split in `parseBallsString`. */
  predicate IsBallSep(c: char) {
    c == ',' || IsRegexSpace(c)
  }

  /** A colour name is not empty and is made of capital letters only. */
  lemma ColorLetters(s: string)
    requires IsBallColor(s)
    ensures |s| > 0 && forall i :: 0 <= i < |s| ==> 'A' <= s[i] <= 'Z'
  {
    if s == "RED" {
      assert forall i :: 0 <= i < 3 ==> s[i] in {'R', 'E', 'D'};
    } else if s == "BLUE" {
      assert forall i :: 0 <= i < 4 ==> s[i] in {'B', 'L', 'U', 'E'};
    } else if s == "GREEN" {
      assert forall i :: 0 <= i < 5 ==> s[i] in {'G', 'R', 'E', 'N'};
    } else if s == "WHITE" {
      assert forall i :: 0 <= i < 5 ==> s[i] in {'W', 'H', 'I', 'T', 'E'};
    } else {
      assert forall i :: 0 <= i < 5 ==> s[i] in {'B', 'L', 'A', 'C', 'K'};
    }
  }

  /** A text whose upper case is a colour holds no delimiter of the split. */
  lemma ColorKeyHasNoSep(k: string)
    requires IsBallColor(ToUpper(k))
    ensures |k| > 0 && forall i :: 0 <= i < |k| ==> !IsBallSep(k[i])
  {
    ColorLetters(ToUpper(k));
    forall i | 0 <= i < |k|
      ensures !IsBallSep(k[i])
    {
      assert ToUpper(k)[i] == UpperChar(k[i]);
    }
  }

  // ---------------------------------------------------------------- parseBallsString

  /** The loop of `parseBallsString` over the split parts, from the map `acc` it adds to:
      a part whose upper case is a colour adds the count in the part after it when that
      part is all digits (skipping it), and 1 otherwise; every other part is passed over.
      A digit run too large for an `int` throws. */
  function ParseParts(parts: seq<string>, acc: map<string, int>): (r: Result<map<string, int>>)
    ensures r.Ok? ==> acc.Keys <= r.value.Keys
    ensures r.Ok? ==> forall k :: k in r.value && k !in acc ==> IsBallColor(k)
    ensures r.Ok? ==> forall k :: k in acc && !IsBallColor(k) ==> r.value[k] == acc[k]
    decreases |parts|
  {
    if |parts| == 0 then Ok(acc)
    else
      var part := ToUpper(parts[0]);
      if !IsBallColor(part) then ParseParts(parts[1..], acc)
      else if |parts| > 1 && IsDigits(parts[1]) then
        match ParseInt(parts[1])
        case None => Err("NumberFormatException")
        case Some(n) => ParseParts(parts[2..], Tally(acc, part, n))
      else ParseParts(parts[1..], Tally(acc, part, 1))
  }

  /** `parseBallsString(ballsStr, result)`: nothing for a `null` or empty text, the loop
      over `ballsStr.split("[,\\s]+")` otherwise. */
  function ParseBalls(ballsStr: Option<string>, acc: map<string, int>): (r: Result<map<string, int>>)
    ensures (ballsStr.None? || ballsStr.value == "") ==> r == Ok(acc)
    ensures r.Ok? ==> acc.Keys <= r.value.Keys
    ensures r.Ok? ==> forall k :: k in r.value && k !in acc ==> IsBallColor(k)
  {
    if ballsStr.None? || |ballsStr.value| == 0 then Ok(acc)
    else ParseParts(SplitRuns(ballsStr.value, IsBallSep), acc)
  }

  /** A list of parts without any colour adds nothing. */
  lemma {:induction false} NoColorNoChange(parts: seq<string>, acc: map<string, int>)
    requires forall i :: 0 <= i < |parts| ==> !IsBallColor(ToUpper(parts[i]))
    ensures ParseParts(parts, acc) == Ok(acc)
    decreases |parts|
  {
    if |parts| > 0 {
      NoColorNoChange(parts[1..], acc);
    }
  }

  /** One pass of the loop at part `i`: the part is passed over, taken with the count
      after it, or taken with the count 1. */
  lemma ParsePartsAt(parts: seq<string>, i: nat, acc: map<string, int>)
    requires i < |parts|
    ensures var u := ToUpper(parts[i]);
      var counted := i + 1 < |parts| && IsDigits(parts[i + 1]);
      ParseParts(parts[i..], acc)
      == if !IsBallColor(u) then ParseParts(parts[i + 1..], acc)
         else if !counted then ParseParts(parts[i + 1..], Tally(acc, u, 1))
         else if ParseInt(parts[i + 1]).None? then Err("NumberFormatException")
         else ParseParts(parts[i + 2..], Tally(acc, u, ParseInt(parts[i + 1]).value))
  {
    assert parts[i..][1..] == parts[i + 1..];
    if i + 1 < |parts| {
      assert parts[i..][2..] == parts[i + 2..];
    }
  }

  /** `parseBallsString` as the loop it is: `i` walks the parts and jumps over a count it
      has used. */
  method ParseBallsString(ballsStr: Option<string>, result: map<string, int>) returns (r: Result<map<string, int>>)
    ensures r == ParseBalls(ballsStr, result)
  {
    if ballsStr.None? || |ballsStr.value| == 0 {
      return Ok(result);
    }
    var parts := SplitRuns(ballsStr.value, IsBallSep);
    ghost var goal := ParseParts(parts, result);
    assert parts[0..] == parts;
    var acc := result;
    var i := 0;
    while i < |parts|
      invariant 0 <= i <= |parts|
      invariant ParseParts(parts[i..], acc) == goal
      decreases |parts| - i
    {
      ParsePartsAt(parts, i, acc);
      var part := ToUpper(parts[i]);
      if IsBallColor(part) {
        var count := 1;
        if i + 1 < |parts| && IsDigits(parts[i + 1]) {
          var n := ParseInt(parts[i + 1]);
          if n.None? {
            return Err("NumberFormatException");
          }
          count := n.value;
          i := i + 1;
        }
        acc := Tally(acc, part, count);
      }
      i := i + 1;
    }
    return Ok(acc);
  }

  // ---------------------------------------------------------------- the round trip

  /** The parts a text of entries `"K n, K n"` splits into: each key, then its count. */
  function Tokens(m: map<string, int>, ks: seq<string>): (r: seq<string>)
    requires forall i :: 0 <= i < |ks| ==> ks[i] in m
    ensures |ks| > 0 ==> |r| > 0 && r[|r| - 1] == IntToString(m[ks[|ks| - 1]])
    decreases |ks|
  {
    if |ks| == 0 then [] else [ks[0], IntToString(m[ks[0]])] + Tokens(m, ks[1..])
  }

  /** The fields of that text cut at every delimiter: the empty field between `,` and the
      space after it included. */
  function EntryFields(m: map<string, int>, ks: seq<string>): seq<string>
    requires |ks| > 0
    requires forall i :: 0 <= i < |ks| ==> ks[i] in m
    decreases |ks|
  {
    [ks[0], IntToString(m[ks[0]])] + (if |ks| == 1 then [] else [""] + EntryFields(m, ks[1..]))
  }

  /** A map the interpreter can have printed and read back intact: colours in any case,
      no two of them the same in upper case, and counts that parse back. */
  predicate IsColorCounts(m: map<string, int>) {
    (forall k :: k in m ==> IsBallColor(ToUpper(k)) && 0 <= m[k] <= IntMax)
    && (forall k, j :: k in m && j in m && k != j ==> ToUpper(k) != ToUpper(j))
  }

  lemma EntriesFront(m: map<string, int>, ks: seq<string>, sep: string)
    requires |ks| > 0
    requires forall i :: 0 <= i < |ks| ==> ks[i] in m
    ensures |ks| == 1 ==> EntriesText(m, ks, sep) == Entry(m, ks[0], sep)
    ensures |ks| > 1 ==> EntriesText(m, ks, sep) == Entry(m, ks[0], sep) + ", " + EntriesText(m, ks[1..], sep)
  {
    var es := Entries(m, ks, sep);
    assert es[1..] == Entries(m, ks[1..], sep);
  }

  lemma NatTextHasNoSep(v: int)
    requires v >= 0
    ensures IsDigits(IntToString(v))
    ensures forall i :: 0 <= i < |IntToString(v)| ==> !IsBallSep(IntToString(v)[i])
  {
  }

  predicate NoBallSep(s: string) {
    forall i :: 0 <= i < |s| ==> !IsBallSep(s[i])
  }

  /** The fields of one printed entry `"K n"`. */
  lemma FieldsOfLastEntry(k: string, n: string)
    requires NoBallSep(k) && NoBallSep(n)
    ensures Fields(k + " " + n, IsBallSep) == [k, n]
  {
    FieldsWithoutSep(k, IsBallSep);
    FieldsWithoutSep(n, IsBallSep);
    assert k + " " + n == k + [' '] + n;
    FieldsAround(k, ' ', n, IsBallSep);
  }

  /** The fields of `"n, "` followed by more text. */
  lemma FieldsAfterComma(n: string, rest: string)
    requires NoBallSep(n)
    ensures Fields(n + ", " + rest, IsBallSep) == [n, ""] + Fields(rest, IsBallSep)
  {
    var y := [' '] + rest;
    assert Fields(y, IsBallSep) == [""] + Fields(rest, IsBallSep) by {
      FieldsCons(' ', rest, IsBallSep);
    }
    assert Fields(n + [','] + y, IsBallSep) == [n] + Fields(y, IsBallSep) by {
      FieldsWithoutSep(n, IsBallSep);
      FieldsAround(n, ',', y, IsBallSep);
    }
    assert n + ", " + rest == n + [','] + y;
  }

  /** The fields of a key, a space, and more text. */
  lemma FieldsAfterKey(k: string, x: string)
    requires NoBallSep(k)
    ensures Fields(k + " " + x, IsBallSep) == [k] + Fields(x, IsBallSep)
  {
    FieldsWithoutSep(k, IsBallSep);
    FieldsAround(k, ' ', x, IsBallSep);
    assert k + " " + x == k + [' '] + x;
  }

  /** The fields of an entry `"K n"` followed by `", "` and more text. */
  lemma FieldsOfEntry(k: string, n: string, rest: string)
    requires NoBallSep(k) && NoBallSep(n)
    ensures Fields(k + " " + n + ", " + rest, IsBallSep) == [k, n, ""] + Fields(rest, IsBallSep)
  {
    var x := n + ", " + rest;
    assert k + " " + n + ", " + rest == k + " " + x;
    FieldsAfterKey(k, x);
    FieldsAfterComma(n, rest);
  }

  lemma {:induction false} FieldsOfEntries(m: map<string, int>, ks: seq<string>)
    requires |ks| > 0
    requires forall i :: 0 <= i < |ks| ==> ks[i] in m && IsBallColor(ToUpper(ks[i])) && m[ks[i]] >= 0
    ensures Fields(EntriesText(m, ks, " "), IsBallSep) == EntryFields(m, ks)
    decreases |ks|
  {
    var k, n := ks[0], IntToString(m[ks[0]]);
    if |ks| == 1 {
      assert NoBallSep(k) && NoBallSep(n) by {
        ColorKeyHasNoSep(k);
        NatTextHasNoSep(m[ks[0]]);
      }
      EntriesFront(m, ks, " ");
      FieldsOfLastEntry(k, n);
    } else {
      var rest := EntriesText(m, ks[1..], " ");
      var tail := EntryFields(m, ks[1..]);
      assert Fields(EntriesText(m, ks, " "), IsBallSep) == [k, n, ""] + tail by {
        assert NoBallSep(k) && NoBallSep(n) by {
          ColorKeyHasNoSep(k);
          NatTextHasNoSep(m[ks[0]]);
        }
        EntriesFront(m, ks, " ");
        FieldsOfEntries(m, ks[1..]);
        FieldsOfEntry(k, n, rest);
      }
      assert EntryFields(m, ks) == [k, n] + ([""] + tail);
    }
  }

  lemma {:induction false} NonEmptyEntryFields(m: map<string, int>, ks: seq<string>)
    requires |ks| > 0
    requires forall i :: 0 <= i < |ks| ==> ks[i] in m && IsBallColor(ToUpper(ks[i]))
    ensures NonEmpty(EntryFields(m, ks)) == Tokens(m, ks)
    decreases |ks|
  {
    var k, n := ks[0], IntToString(m[ks[0]]);
    ColorKeyHasNoSep(k);
    assert NonEmpty([k, n]) == [k, n];
    if |ks| > 1 {
      NonEmptyEntryFields(m, ks[1..]);
      NonEmptyAppend([k, n], [""] + EntryFields(m, ks[1..]));
      NonEmptyAppend([""], EntryFields(m, ks[1..]));
    }
  }

  /** `split("[,\\s]+")` of a printed colour map gives back each key followed by its
      count. */
  lemma SplitEntries(m: map<string, int>, ks: seq<string>)
    requires |ks| > 0
    requires forall i :: 0 <= i < |ks| ==> ks[i] in m && IsBallColor(ToUpper(ks[i])) && m[ks[i]] >= 0
    ensures SplitRuns(EntriesText(m, ks, " "), IsBallSep) == Tokens(m, ks)
  {
    var t := EntriesText(m, ks, " ");
    FieldsOfEntries(m, ks);
    NonEmptyEntryFields(m, ks);
    EntriesFront(m, ks, " ");
    ColorKeyHasNoSep(ks[0]);
    assert t[|ks[0]|] == ' ';
    var fs := EntryFields(m, ks);
    assert [fs[0]] + fs[1..] == fs;
    NonEmptyAppend([fs[0]], fs[1..]);
    var ts := Tokens(m, ks);
    assert ts[|ts| - 1] != "";
  }

  /** The upper-case forms of the keys `ks`. */
  function UpperKeys(ks: seq<string>): (r: set<string>)
    ensures forall i :: 0 <= i < |ks| ==> ToUpper(ks[i]) in r
    decreases |ks|
  {
    if |ks| == 0 then {} else {ToUpper(ks[0])} + UpperKeys(ks[1..])
  }

  lemma {:induction false} UpperKeysFrom(ks: seq<string>, c: string)
    requires c in UpperKeys(ks)
    ensures exists i :: 0 <= i < |ks| && ToUpper(ks[i]) == c
    decreases |ks|
  {
    if ToUpper(ks[0]) != c {
      UpperKeysFrom(ks[1..], c);
      var i :| 0 <= i < |ks[1..]| && ToUpper(ks[1..][i]) == c;
      assert ToUpper(ks[i + 1]) == c;
    }
  }

  /** Parsing the tokens of distinct colours adds each key's count under its upper case. */
  lemma {:induction false} ParseTokens(m: map<string, int>, ks: seq<string>, acc: map<string, int>)
    requires forall i :: 0 <= i < |ks| ==> ks[i] in m && IsBallColor(ToUpper(ks[i])) && 0 <= m[ks[i]] <= IntMax
    requires forall i, j :: 0 <= i < j < |ks| ==> ToUpper(ks[i]) != ToUpper(ks[j])
    requires forall i :: 0 <= i < |ks| ==> ToUpper(ks[i]) !in acc
    ensures ParseParts(Tokens(m, ks), acc).Ok?
    ensures var r := ParseParts(Tokens(m, ks), acc).value;
      r.Keys == acc.Keys + UpperKeys(ks)
      && (forall i :: 0 <= i < |ks| ==> r[ToUpper(ks[i])] == m[ks[i]])
      && (forall c :: c in acc ==> r[c] == acc[c])
    decreases |ks|
  {
    if |ks| > 0 {
      var acc' := acc[ToUpper(ks[0]) := m[ks[0]]];
      ParseTokensHead(m, ks, acc);
      TailKeysFresh(m, ks, acc);
      ParseTokens(m, ks[1..], acc');
      TokensStep(m, ks, acc, ParseParts(Tokens(m, ks[1..]), acc').value);
    }
  }

  /** The keys after the first are still missing once the first is recorded. */
  lemma TailKeysFresh(m: map<string, int>, ks: seq<string>, acc: map<string, int>)
    requires |ks| > 0 && ks[0] in m
    requires forall i, j :: 0 <= i < j < |ks| ==> ToUpper(ks[i]) != ToUpper(ks[j])
    requires forall i :: 0 <= i < |ks| ==> ToUpper(ks[i]) !in acc
    ensures forall i :: 0 <= i < |ks[1..]| ==> ToUpper(ks[1..][i]) !in acc[ToUpper(ks[0]) := m[ks[0]]]
  {
    forall i | 0 <= i < |ks[1..]|
      ensures ToUpper(ks[1..][i]) !in acc[ToUpper(ks[0]) := m[ks[0]]]
    {
      assert ks[1..][i] == ks[i + 1];
    }
  }

  /** What holds of the map parsed from the tokens after the first key, given the first
      key's count recorded, holds of the whole. */
  lemma TokensStep(m: map<string, int>, ks: seq<string>, acc: map<string, int>, r: map<string, int>)
    requires |ks| > 0 && ks[0] in m && ToUpper(ks[0]) !in acc
    requires forall i :: 0 <= i < |ks| ==> ks[i] in m
    requires var acc' := acc[ToUpper(ks[0]) := m[ks[0]]];
      r.Keys == acc'.Keys + UpperKeys(ks[1..])
      && (forall i :: 0 <= i < |ks[1..]| ==> r[ToUpper(ks[1..][i])] == m[ks[1..][i]])
      && (forall c :: c in acc' ==> r[c] == acc'[c])
    ensures r.Keys == acc.Keys + UpperKeys(ks)
    ensures forall i :: 0 <= i < |ks| ==> r[ToUpper(ks[i])] == m[ks[i]]
    ensures forall c :: c in acc ==> r[c] == acc[c]
  {
    forall i | 0 <= i < |ks|
      ensures r[ToUpper(ks[i])] == m[ks[i]]
    {
      if i > 0 {
        assert ks[1..][i - 1] == ks[i];
      }
    }
  }

  /** Parsing the first key and its count moves the count into the accumulated map. */
  lemma ParseTokensHead(m: map<string, int>, ks: seq<string>, acc: map<string, int>)
    requires |ks| > 0 && forall i :: 0 <= i < |ks| ==> ks[i] in m
    requires IsBallColor(ToUpper(ks[0])) && 0 <= m[ks[0]] <= IntMax && ToUpper(ks[0]) !in acc
    ensures ParseParts(Tokens(m, ks), acc) == ParseParts(Tokens(m, ks[1..]), acc[ToUpper(ks[0]) := m[ks[0]]])
  {
    var k, v := ks[0], m[ks[0]];
    var n := IntToString(v);
    var u := ToUpper(k);
    var parts := Tokens(m, ks);
    NatTextHasNoSep(v);
    ParseIntToString(v);
    assert parts[0] == k && parts[1] == n && parts[2..] == Tokens(m, ks[1..]);
    assert Tally(acc, u, v) == acc[u := v];
  }

  /** The keys of a colour map listed in a key order differ in upper case. */
  lemma UppersDistinct(m: map<string, int>, ks: seq<string>)
    requires IsKeyOrder(m, ks)
    requires IsColorCounts(m)
    ensures forall i, j :: 0 <= i < j < |ks| ==> ToUpper(ks[i]) != ToUpper(ks[j])
  {
    forall i, j | 0 <= i < j < |ks|
      ensures ToUpper(ks[i]) != ToUpper(ks[j])
    {
      assert ks[i] != ks[j] && ks[i] in m && ks[j] in m;
    }
  }

  /** Parsing the parts of a colour map from an empty map gives its counts under the
      upper-cased keys and no other key. */
  lemma ParseMapTokens(m: map<string, int>, ks: seq<string>)
    requires IsKeyOrder(m, ks)
    requires IsColorCounts(m)
    ensures ParseParts(Tokens(m, ks), map[]).Ok?
    ensures var r := ParseParts(Tokens(m, ks), map[]).value;
      (forall k :: k in m ==> ToUpper(k) in r && r[ToUpper(k)] == m[k])
      && (forall c :: c in r ==> exists k :: k in m && ToUpper(k) == c)
  {
    UppersDistinct(m, ks);
    ParseTokens(m, ks, map[]);
    var r := ParseParts(Tokens(m, ks), map[]).value;
    forall k | k in m
      ensures ToUpper(k) in r && r[ToUpper(k)] == m[k]
    {
      var i :| 0 <= i < |ks| && ks[i] == k;
    }
    forall c | c in r
      ensures exists k :: k in m && ToUpper(k) == c
    {
      UpperKeysFrom(ks, c);
      var i :| 0 <= i < |ks| && ToUpper(ks[i]) == c;
      assert ks[i] in m;
    }
  }

  /** Round trip: reading back the text the interpreter prints for a colour map gives the
      same counts under the upper-cased colours, whatever order the map was printed in. */
  lemma ParsePrintedMap(m: map<string, int>, ks: seq<string>)
    requires IsKeyOrder(m, ks)
    requires IsColorCounts(m)
    ensures ParseBalls(Some(EntriesText(m, ks, " ")), map[]).Ok?
    ensures var r := ParseBalls(Some(EntriesText(m, ks, " ")), map[]).value;
      (forall k :: k in m ==> ToUpper(k) in r && r[ToUpper(k)] == m[k])
      && (forall c :: c in r ==> exists k :: k in m && ToUpper(k) == c)
  {
    if |ks| == 0 {
      assert EntriesText(m, ks, " ") == "";
    } else {
      var t := EntriesText(m, ks, " ");
      assert ParseBalls(Some(t), map[]) == ParseParts(Tokens(m, ks), map[]) by {
        SplitEntries(m, ks);
        EntriesFront(m, ks, " ");
      }
      ParseMapTokens(m, ks);
    }
  }

  // ---------------------------------------------------------------- extractUrnContents / extractDrawBalls

  /** The colour a key `prefix + colour` names, in upper case, when the rest of the key
      is a colour in any case. Both prefixes the renderer uses are five characters long,
      as the `substring(5)` that cuts them off. */
  function KeyColor(key: string, prefix: string): (r: Option<string>)
    ensures r.Some? ==> IsBallColor(r.value)
  {
    if |prefix| <= |key| && key[..|prefix|] == prefix && IsBallColor(ToUpper(key[|prefix|..]))
    then Some(ToUpper(key[|prefix|..]))
    else None
  }

  /** The loop over `getAllParameters().keySet()`, in the iteration order `ks`: every key
      naming a colour after `prefix` whose `getIntParameter` value is positive puts that
      count under the colour, a later key overwriting an earlier one. */
  function PrefixCounts(p: map<string, Value>, prefix: string, ks: seq<string>): (r: map<string, int>)
    ensures forall c :: c in r ==> IsBallColor(c) && r[c] > 0
    ensures forall i :: 0 <= i < |ks| && KeyColor(ks[i], prefix).Some? && IntParam(p, ks[i]) > 0 ==>
                KeyColor(ks[i], prefix).value in r
    ensures forall c :: c in r ==> exists i :: 0 <= i < |ks| && KeyColor(ks[i], prefix) == Some(c) && IntParam(p, ks[i]) == r[c]
    decreases |ks|
  {
    if |ks| == 0 then map[]
    else
      var q := PrefixCounts(p, prefix, ks[..|ks| - 1]);
      var key := ks[|ks| - 1];
      var c := KeyColor(key, prefix);
      if c.Some? && IntParam(p, key) > 0 then q[c.value := IntParam(p, key)] else q
  }

  /** One more key of the iteration. */
  lemma PrefixCountsStep(p: map<string, Value>, prefix: string, ks: seq<string>, i: nat)
    requires i < |ks|
    ensures var q := PrefixCounts(p, prefix, ks[..i]);
      var c := KeyColor(ks[i], prefix);
      PrefixCounts(p, prefix, ks[..i + 1]) == if c.Some? && IntParam(p, ks[i]) > 0 then q[c.value := IntParam(p, ks[i])] else q
  {
    assert ks[..i + 1][..i] == ks[..i];
  }

  /** `parseBallsString` of the parameter `key` into an empty map when it holds a
      string, and the empty map otherwise. */
  function FromParam(p: map<string, Value>, key: string): (r: Result<map<string, int>>)
    ensures r.Ok? ==> forall c :: c in r.value ==> IsBallColor(c)
  {
    if key in p && p[key].StrV? then ParseBalls(Some(p[key].s), map[]) else Ok(map[])
  }

  /** The urn the renderer falls back to. */
  const ShownUrn: map<string, int> := map["RED" := 4, "BLUE" := 3, "GREEN" := 2, "WHITE" := 1]

  /** `extractUrnContents`: the parsed `contents` text; failing that the positive `ball_*`
      counts; failing that red 4, blue 3, green 2, white 1. The result is never empty and
      holds colours only. */
  function UrnContents(p: map<string, Value>, ks: seq<string>): (r: Result<map<string, int>>)
    ensures r.Ok? ==> |r.value| > 0 && forall c :: c in r.value ==> IsBallColor(c)
    ensures FromParam(p, "contents").Err? ==> r == FromParam(p, "contents")
    ensures FromParam(p, "contents").Ok? && FromParam(p, "contents").value != map[] ==> r == FromParam(p, "contents")
    ensures FromParam(p, "contents") == Ok(map[]) && PrefixCounts(p, "ball_", ks) != map[] ==>
              r == Ok(PrefixCounts(p, "ball_", ks))
    ensures FromParam(p, "contents") == Ok(map[]) && PrefixCounts(p, "ball_", ks) == map[] ==>
              r == Ok(map["RED" := 4, "BLUE" := 3, "GREEN" := 2, "WHITE" := 1])
  {
    var parsed :- FromParam(p, "contents");
    var found := if |parsed| == 0 then PrefixCounts(p, "ball_", ks) else parsed;
    Ok(if |found| == 0 then ShownUrn else found)
  }

  /** The draw the renderer falls back to for a draw count `n`. */
  function DrawFallback(n: int): (r: map<string, int>)
    ensures forall c :: c in r ==> r[c] == 1
    ensures n <= 0 ==> r.Keys == {"RED", "BLUE"}
    ensures n > 0 ==> r.Keys == {"RED"} + (if n > 1 then {"BLUE"} else {}) + (if n > 2 then {"GREEN"} else {})
  {
    if n > 0 then
      var red := map["RED" := if 1 < n then 1 else n];
      var blue := if n > 1 then red["BLUE" := 1] else red;
      if n > 2 then blue["GREEN" := 1] else blue
    else map["RED" := 1, "BLUE" := 1]
  }

  /** `extractDrawBalls`: the parsed `draw_balls` text; failing that the positive
      `draw_*` counts; failing that the fallback for `drawCount`. */
  function DrawBalls(p: map<string, Value>, ks: seq<string>): (r: Result<map<string, int>>)
    ensures r.Ok? ==> |r.value| > 0 && forall c :: c in r.value ==> IsBallColor(c)
    ensures FromParam(p, "draw_balls").Err? ==> r == FromParam(p, "draw_balls")
    ensures FromParam(p, "draw_balls").Ok? && FromParam(p, "draw_balls").value != map[] ==> r == FromParam(p, "draw_balls")
    ensures FromParam(p, "draw_balls") == Ok(map[]) && PrefixCounts(p, "draw_", ks) != map[] ==>
              r == Ok(PrefixCounts(p, "draw_", ks))
    ensures FromParam(p, "draw_balls") == Ok(map[]) && PrefixCounts(p, "draw_", ks) == map[] ==>
              r == Ok(DrawFallback(IntParam(p, "drawCount")))
  {
    var parsed :- FromParam(p, "draw_balls");
    var found := if |parsed| == 0 then PrefixCounts(p, "draw_", ks) else parsed;
    Ok(if |found| == 0 then DrawFallback(IntParam(p, "drawCount")) else found)
  }

  /** `extractDrawType`: sequential unless `drawType` is a string other than SEQUENTIAL
      and DRAW_SEQUENTIAL in any case. */
  function ExtractDrawType(p: map<string, Value>): (r: bool)
    ensures !("drawType" in p && p["drawType"].StrV?) ==> r
    ensures "drawType" in p && p["drawType"].StrV? ==>
              (r <==> EqualsIgnoreCase(p["drawType"].s, "SEQUENTIAL") || EqualsIgnoreCase(p["drawType"].s, "DRAW_SEQUENTIAL"))
  {
    if "drawType" in p && p["drawType"].StrV? then
      var t := ToUpper(p["drawType"].s);
      t == "SEQUENTIAL" || t == "DRAW_SEQUENTIAL"
    else true
  }

  /** The three ways `extractDrawType` can go: no `drawType` at all draws in sequence,
      so does `sequential` in lower case, and `SIMULTANEOUS` does not. */
  lemma DrawTypeCases()
    ensures ExtractDrawType(map[])
    ensures ExtractDrawType(map["drawType" := StrV("sequential")])
    ensures !ExtractDrawType(map["drawType" := StrV("SIMULTANEOUS")])
  {
    assert ToUpper("sequential") == "SEQUENTIAL";
    assert ToUpper("SIMULTANEOUS") == "SIMULTANEOUS";
  }

  /** The key loop of `extractUrnContents` and `extractDrawBalls`. */
  method CollectPrefixed(ctx: ProblemContext, keys: seq<string>, prefix: string) returns (found: map<string, int>)
    requires IsKeyOrder(ctx.params, keys)
    ensures found == PrefixCounts(ctx.params, prefix, keys)
  {
    found := map[];
    for i := 0 to |keys|
      invariant found == PrefixCounts(ctx.params, prefix, keys[..i])
    {
      PrefixCountsStep(ctx.params, prefix, keys, i);
      var key := keys[i];
      if |prefix| <= |key| && key[..|prefix|] == prefix {
        var color := ToUpper(key[|prefix|..]);
        if IsBallColor(color) {
          var count := ctx.GetIntParameter(key);
          if count > 0 {
            found := found[color := count];
          }
        }
      }
    }
    assert keys[..|keys|] == keys;
  }

  /** `parseBallsString` of a parameter that holds a string. */
  method ParseParam(ctx: ProblemContext, key: string) returns (r: Result<map<string, int>>)
    ensures r == FromParam(ctx.params, key)
  {
    var v := ctx.GetAdditionalParam(key);
    r := Ok(map[]);
    if v.Some? && v.value.StrV? {
      r := ParseBallsString(Some(v.value.s), map[]);
    }
  }

  /** `extractUrnContents(context)`, iterating the parameters in the order `keys`. */
  method ExtractUrnContents(ctx: ProblemContext, keys: seq<string>) returns (r: Result<map<string, int>>)
    requires IsKeyOrder(ctx.params, keys)
    ensures r == UrnContents(ctx.params, keys)
  {
    var parsed := ParseParam(ctx, "contents");
    if parsed.Err? {
      return parsed;
    }
    var contents := parsed.value;
    if |contents| == 0 {
      contents := CollectPrefixed(ctx, keys, "ball_");
    }
    if |contents| == 0 {
      contents := ShownUrn;
    }
    r := Ok(contents);
  }

  /** `extractDrawBalls(context)`, iterating the parameters in the order `keys`. */
  method ExtractDrawBalls(ctx: ProblemContext, keys: seq<string>) returns (r: Result<map<string, int>>)
    requires IsKeyOrder(ctx.params, keys)
    ensures r == DrawBalls(ctx.params, keys)
  {
    var parsed := ParseParam(ctx, "draw_balls");
    if parsed.Err? {
      return parsed;
    }
    var drawBalls := parsed.value;
    if |drawBalls| == 0 {
      drawBalls := CollectPrefixed(ctx, keys, "draw_");
    }
    if |drawBalls| == 0 {
      var drawCount := ctx.GetIntParameter("drawCount");
      if drawCount > 0 {
        drawBalls := map["RED" := if 1 < drawCount then 1 else drawCount];
        if drawCount > 1 {
          drawBalls := drawBalls["BLUE" := 1];
        }
        if drawCount > 2 {
          drawBalls := drawBalls["GREEN" := 1];
        }
      } else {
        drawBalls := map["RED" := 1, "BLUE" := 1];
      }
    }
    r := Ok(drawBalls);
  }

  // ---------------------------------------------------------------- reading back what the interpreter wrote

  lemma UpperOfCapitals(s: string)
    requires forall i :: 0 <= i < |s| ==> 'A' <= s[i] <= 'Z'
    ensures ToUpper(s) == s
  {
  }

  /** A map whose keys are already in upper case is read back as itself. */
  lemma ReadBackIsSame(m: map<string, int>, r: map<string, int>)
    requires forall k :: k in m ==> IsBallColor(k)
    requires forall k :: k in m ==> ToUpper(k) in r && r[ToUpper(k)] == m[k]
    requires forall c :: c in r ==> exists k :: k in m && ToUpper(k) == c
    ensures r == m
  {
    forall k | k in m
      ensures ToUpper(k) == k
    {
      ColorLetters(k);
      UpperOfCapitals(k);
    }
  }

  /** A colour map in capitals with counts in the `int` range can be read back. */
  lemma CapitalsAreColorCounts(m: map<string, int>)
    requires forall k :: k in m ==> IsBallColor(k) && 0 <= m[k] <= IntMax
    ensures IsColorCounts(m)
  {
    forall k | k in m
      ensures ToUpper(k) == k
    {
      ColorLetters(k);
      UpperOfCapitals(k);
    }
  }

  /** A `contents` parameter holding a printed colour map is read back as that map. */
  lemma ContentsReadBack(p: map<string, Value>, m: map<string, int>, ks: seq<string>, keys: seq<string>)
    requires IsKeyOrder(m, ks)
    requires IsColorCounts(m) && |m| > 0
    requires "contents" in p && p["contents"] == StrV(EntriesText(m, ks, " "))
    ensures var r := UrnContents(p, keys);
      r.Ok?
      && (forall k :: k in m ==> ToUpper(k) in r.value && r.value[ToUpper(k)] == m[k])
      && (forall c :: c in r.value ==> exists k :: k in m && ToUpper(k) == c)
  {
    ParsePrintedMap(m, ks);
    var parsed := ParseBalls(Some(EntriesText(m, ks, " ")), map[]).value;
    assert |parsed| > 0 by {
      var k :| k in m;
      assert ToUpper(k) in parsed;
    }
    ParsedContentsShown(p, parsed, keys);
  }

  /** A `contents` text that parses to a non-empty map is shown as that map. */
  lemma ParsedContentsShown(p: map<string, Value>, parsed: map<string, int>, keys: seq<string>)
    requires "contents" in p && p["contents"].StrV?
    requires ParseBalls(Some(p["contents"].s), map[]) == Ok(parsed) && |parsed| > 0
    ensures UrnContents(p, keys) == Ok(parsed)
  {
  }

  /** After a BALLS declaration fills the urn with a colour map, the renderer shows
      that map, colours in upper case, whatever order the parameters are iterated in. */
  lemma UrnReadBack(s: State, m: map<string, int>, ks: seq<string>, keys: seq<string>)
    requires IsKeyOrder(m, ks)
    requires IsColorCounts(m) && |m| > 0
    ensures var r := UrnContents(UrnUpdate(s, m, ks).params, keys);
      r.Ok?
      && (forall k :: k in m ==> ToUpper(k) in r.value && r.value[ToUpper(k)] == m[k])
      && (forall c :: c in r.value ==> exists k :: k in m && ToUpper(k) == c)
  {
    var p := UrnUpdate(s, m, ks).params;
    assert "contents" in p && p["contents"] == StrV(EntriesText(m, ks, " "));
    ContentsReadBack(p, m, ks, keys);
  }

  /** The interpreter's default urn, in any order, reads back as itself. */
  lemma DefaultUrnReadsBack(ks: seq<string>)
    requires IsKeyOrder(DefaultUrn, ks)
    ensures ParseBalls(Some(EntriesText(DefaultUrn, ks, " ")), map[]) == Ok(DefaultUrn)
  {
    CapitalsAreColorCounts(DefaultUrn);
    ParsePrintedMap(DefaultUrn, ks);
    ReadBackIsSame(DefaultUrn, ParseBalls(Some(EntriesText(DefaultUrn, ks, " ")), map[]).value);
  }

  /** After a BALLS declaration that names no urn the renderer shows the interpreter's
      default urn, red 3, blue 5, green 2, white 1 and black 4, never its own fallback. */
  lemma DefaultUrnShown(order: KeyOrder, s: State, n: Node, keys: seq<string>)
    requires BallsDeclaration(order, s, n).Ok?
    requires !AnyChild(n.children, FillsUrn)
    ensures UrnContents(BallsDeclaration(order, s, n).value.params, keys) == Ok(DefaultUrn)
  {
    BallsDefaultUrn(order, s, n);
    DefaultUrnReadsBack(order(DefaultUrn));
    assert "RED" in DefaultUrn;
  }

  /** The interpreter's default draw, in any order, reads back as itself. */
  lemma DefaultDrawReadsBack(n: int, ks: seq<string>)
    requires n > 0 && IsKeyOrder(DefaultDraw(n), ks)
    ensures ParseBalls(Some(EntriesText(DefaultDraw(n), ks, " ")), map[]) == Ok(DefaultDraw(n))
  {
    var d := DefaultDraw(n);
    CapitalsAreColorCounts(d);
    ParsePrintedMap(d, ks);
    ReadBackIsSame(d, ParseBalls(Some(EntriesText(d, ks, " ")), map[]).value);
  }

  /** The renderer's fallback for a positive draw count is the interpreter's default
      draw. */
  lemma DrawFallbackIsDefault(n: int)
    requires n > 0
    ensures DrawFallback(n) == DefaultDraw(n)
  {
    var a, b := DrawFallback(n), DefaultDraw(n);
    assert a.Keys == b.Keys;
    forall k | k in a
      ensures a[k] == b[k]
    {
    }
  }

  /** Writing the default urn leaves `draw_balls` as it was. */
  lemma UrnDefaultsKeepDraw(order: KeyOrder, q: map<string, Value>, l: BallsLocals)
    ensures "draw_balls" in UrnDefaults(order, q, l) <==> "draw_balls" in q
    ensures "draw_balls" in q ==> UrnDefaults(order, q, l)["draw_balls"] == q["draw_balls"]
  {
    if |l.urn| == 0 {
      assert "draw_balls"[..5][0] == 'd';
      PutCountsKeeps(q, "ball_", DefaultUrn, order(DefaultUrn), "draw_balls");
    }
  }

  /** After the loop, the default draw text stays in `draw_balls` past the default urn. */
  lemma DefaultDrawParam(order: KeyOrder, p: map<string, Value>, l: BallsLocals)
    requires |l.draw| == 0 && l.drawCount > 0
    ensures var d := DefaultDraw(l.drawCount);
      var u := UrnDefaults(order, DrawDefaults(order, p, l), l);
      "draw_balls" in u && u["draw_balls"] == StrV(EntriesText(d, order(d), " "))
  {
    UrnDefaultsKeepDraw(order, DrawDefaults(order, p, l), l);
  }

  /** After a declaration that draws no named balls, with a positive draw count, the
      renderer reads the interpreter's default draw back from `draw_balls`, and that
      draw is also the renderer's own fallback for the count. */
  lemma DefaultDrawShown(order: KeyOrder, p: map<string, Value>, l: BallsLocals, keys: seq<string>)
    requires |l.draw| == 0 && l.drawCount > 0
    ensures DrawFallback(l.drawCount) == DefaultDraw(l.drawCount)
    ensures DrawBalls(UrnDefaults(order, DrawDefaults(order, p, l), l), keys) == Ok(DefaultDraw(l.drawCount))
  {
    var d := DefaultDraw(l.drawCount);
    DrawFallbackIsDefault(l.drawCount);
    DefaultDrawParam(order, p, l);
    DefaultDrawReadsBack(l.drawCount, order(d));
    assert "RED" in d;
  }

  /** The draw type the interpreter records from a DRAW_TYPE child is the one the renderer
      reads. */
  lemma DrawTypeReadBack(order: KeyOrder, run: (State, BallsLocals), c: Node)
    requires c.kind == "DRAW_TYPE"
    requires BallsChild(order, run, c).Ok?
    ensures var next := BallsChild(order, run, c).value;
      ExtractDrawType(next.0.params) == next.1.sequential
  {
    UpperOfCapitals("SEQUENTIAL");
    UpperOfCapitals("SIMULTANEOUS");
  }
}
