/** The parts of `java.util.HashMap<String, Integer>` the pipeline relies on: lookups with a
    default, the put-and-add update that counts pieces and balls, `int` sums of the values,
    and iteration in an order the program does not control. */
module JavaMaps {
  import opened JavaText

  /** `m.getOrDefault(k, d)`. */
  function GetOrDefault(m: map<string, int>, k: string, d: int): int {
    if k in m then m[k] else d
  }

  /** `m.put(k, m.getOrDefault(k, 0) + c)`, with the addition in `int` arithmetic. */
  function Tally(m: map<string, int>, k: string, c: int): (r: map<string, int>)
    ensures r.Keys == m.Keys + {k}
    ensures r[k] == Wrap32(GetOrDefault(m, k, 0) + c)
    ensures forall j :: j in m && j != k ==> r[j] == m[j]
  {
    m[k := Wrap32(GetOrDefault(m, k, 0) + c)]
  }

  /** The map after a sequence of put-and-add steps, applied first to last. */
  function TallyAll(m: map<string, int>, items: seq<(string, int)>): map<string, int>
    decreases |items|
  {
    if |items| == 0 then m else TallyAll(Tally(m, items[0].0, items[0].1), items[1..])
  }

  /** A step added at the end is applied last. */
  lemma {:induction false} TallyAllSnoc(m: map<string, int>, items: seq<(string, int)>, k: string, c: int)
    ensures TallyAll(m, items + [(k, c)]) == Tally(TallyAll(m, items), k, c)
    decreases |items|
  {
    if |items| == 0 {
      assert items + [(k, c)] == [(k, c)];
    } else {
      assert (items + [(k, c)])[1..] == items[1..] + [(k, c)];
      TallyAllSnoc(Tally(m, items[0].0, items[0].1), items[1..], k, c);
    }
  }

  /** Some step of `items` names `k`. */
  predicate Mentions(items: seq<(string, int)>, k: string)
    decreases |items|
  {
    |items| > 0 && (items[0].0 == k || Mentions(items[1..], k))
  }

  /** The exact sum of the counts that `items` gives to `k`. */
  function CountFor(items: seq<(string, int)>, k: string): int
    decreases |items|
  {
    if |items| == 0 then 0
    else (if items[0].0 == k then items[0].1 else 0) + CountFor(items[1..], k)
  }

  /** Adding in `int` arithmetic step by step is the same as adding exactly and wrapping once. */
  lemma Wrap32Add(a: int, b: int)
    ensures Wrap32(Wrap32(a) + b) == Wrap32(a + b)
  {
    var w := Wrap32(a);
    var q := (w - a) / 0x1_0000_0000;
    assert w + b == (a + b) + q * 0x1_0000_0000;
    assert (w + b - IntMin) % 0x1_0000_0000 == (a + b - IntMin) % 0x1_0000_0000;
  }

  /** Repeated keys are summed: after the steps, a key is present exactly when it was
      present before or some step names it, and the count of a key some step names is its
      old count plus every count given to it, in `int` arithmetic; other keys keep their
      counts. */
  lemma {:induction false} TallyAllAt(m: map<string, int>, items: seq<(string, int)>, k: string)
    ensures k in TallyAll(m, items) <==> k in m || Mentions(items, k)
    ensures Mentions(items, k) ==>
      TallyAll(m, items)[k] == Wrap32(GetOrDefault(m, k, 0) + CountFor(items, k))
    ensures !Mentions(items, k) && k in m ==> TallyAll(m, items)[k] == m[k]
    decreases |items|
  {
    if |items| > 0 {
      var (k0, c0) := items[0];
      var m1 := Tally(m, k0, c0);
      var rest := items[1..];
      assert TallyAll(m, items) == TallyAll(m1, rest);
      TallyAllAt(m1, rest, k);
      if k == k0 {
        Wrap32Add(GetOrDefault(m, k, 0) + c0, CountFor(rest, k));
        if !Mentions(rest, k) {
          CountForAbsent(rest, k);
        }
      } else {
        assert GetOrDefault(m1, k, 0) == GetOrDefault(m, k, 0);
      }
    }
  }

  lemma {:induction false} CountForAbsent(items: seq<(string, int)>, k: string)
    requires !Mentions(items, k)
    ensures CountFor(items, k) == 0
    decreases |items|
  {
    if |items| > 0 {
      CountForAbsent(items[1..], k);
    }
  }

  // ---------------------------------------------------------------- iteration

  /** `ks` is an order in which a `HashMap` with the keys of `m` can be iterated: every key
      exactly once. */
  predicate IsKeyOrder<V>(m: map<string, V>, ks: seq<string>) {
    (forall i, j :: 0 <= i < j < |ks| ==> ks[i] != ks[j])
    && (forall k :: k in m ==> k in ks)
    && (forall i :: 0 <= i < |ks| ==> ks[i] in m)
  }

  /** The order a `HashMap` iterates its keys in. The program never relies on which order it
      is, so the model fixes some order without saying which. */
  ghost function IterationOrder(ks: set<string>): (r: seq<string>)
    ensures forall i, j :: 0 <= i < j < |r| ==> r[i] != r[j]
    ensures forall k :: k in ks <==> k in r
    decreases |ks|
  {
    if ks == {} then []
    else
      var k :| k in ks;
      [k] + IterationOrder(ks - {k})
  }

  lemma KeyOrderExists<V>(m: map<string, V>)
    ensures exists ks :: IsKeyOrder(m, ks)
  {
    assert IsKeyOrder(m, IterationOrder(m.Keys));
  }

  /** How a `HashMap<String, Integer>` lists its keys when iterated, as a function of
      its contents: any function that lists every key of every map exactly once. */
  type KeyOrder = f: map<string, int> -> seq<string> | forall m :: IsKeyOrder(m, f(m))
    ghost witness (m: map<string, int>) => IterationOrder(m.Keys)

  // ---------------------------------------------------------------- entries as text

  /** One entry printed as key, separator, value. */
  function Entry(m: map<string, int>, k: string, sep: string): (r: string)
    requires k in m
    ensures |r| > 0
  {
    k + sep + IntToString(m[k])
  }

  /** The entries of `m` in the order `ks`. */
  function Entries(m: map<string, int>, ks: seq<string>, sep: string): (r: seq<string>)
    requires forall i :: 0 <= i < |ks| ==> ks[i] in m
    ensures |r| == |ks|
    ensures forall i :: 0 <= i < |ks| ==> r[i] == Entry(m, ks[i], sep)
    decreases |ks|
  {
    if |ks| == 0 then [] else Entries(m, ks[..|ks| - 1], sep) + [Entry(m, ks[|ks| - 1], sep)]
  }

  /** The entries joined by `", "`, as `Map.toString` and the interpreter's own loops
      print them. */
  function EntriesText(m: map<string, int>, ks: seq<string>, sep: string): string
    requires forall i :: 0 <= i < |ks| ==> ks[i] in m
  {
    Join(Entries(m, ks, sep), ", ")
  }

  /** The text grows by one entry, after a separator unless it was empty. */
  lemma EntriesTextStep(m: map<string, int>, ks: seq<string>, i: nat, sep: string)
    requires forall j :: 0 <= j < |ks| ==> ks[j] in m
    requires i < |ks|
    ensures EntriesText(m, ks[..i + 1], sep)
      == (if i == 0 then "" else EntriesText(m, ks[..i], sep) + ", ") + Entry(m, ks[i], sep)
  {
    assert ks[..i + 1][..i] == ks[..i];
    assert Entries(m, ks[..i + 1], sep) == Entries(m, ks[..i], sep) + [Entry(m, ks[i], sep)];
    JoinSnoc(Entries(m, ks[..i], sep), Entry(m, ks[i], sep), ", ");
  }

  // ---------------------------------------------------------------- sums

  /** The exact sum of the values of `m` at the keys `ks`. */
  function SumAt(m: map<string, int>, ks: seq<string>): int
    requires forall i :: 0 <= i < |ks| ==> ks[i] in m
    decreases |ks|
  {
    if |ks| == 0 then 0 else m[ks[0]] + SumAt(m, ks[1..])
  }

  lemma {:induction false} SumAtAppend(m: map<string, int>, a: seq<string>, b: seq<string>)
    requires forall i :: 0 <= i < |a| ==> a[i] in m
    requires forall i :: 0 <= i < |b| ==> b[i] in m
    ensures SumAt(m, a + b) == SumAt(m, a) + SumAt(m, b)
    decreases |a|
  {
    if |a| > 0 {
      assert (a + b)[1..] == a[1..] + b;
      SumAtAppend(m, a[1..], b);
    } else {
      assert a + b == b;
    }
  }

  /** Taking the key at `i` out of `ks`. */
  lemma RemoveAt(m: map<string, int>, ks: seq<string>, i: nat)
    requires i < |ks|
    requires forall j :: 0 <= j < |ks| ==> ks[j] in m
    ensures var rest := ks[..i] + ks[i + 1..];
      (forall j :: 0 <= j < |rest| ==> rest[j] in m)
      && multiset(rest) == multiset(ks) - multiset{ks[i]}
      && SumAt(m, ks) == m[ks[i]] + SumAt(m, rest)
  {
    var rest := ks[..i] + ks[i + 1..];
    assert ks == ks[..i] + [ks[i]] + ks[i + 1..];
    assert multiset(ks) == multiset(ks[..i]) + multiset{ks[i]} + multiset(ks[i + 1..]);
    SumAtAppend(m, ks[..i] + [ks[i]], ks[i + 1..]);
    SumAtAppend(m, ks[..i], [ks[i]]);
    SumAtAppend(m, ks[..i], ks[i + 1..]);
    assert SumAt(m, [ks[i]]) == m[ks[i]];
  }

  /** The sum does not depend on the order the keys are visited in. */
  lemma {:induction false} SumAtPermutation(m: map<string, int>, a: seq<string>, b: seq<string>)
    requires forall i :: 0 <= i < |a| ==> a[i] in m
    requires forall i :: 0 <= i < |b| ==> b[i] in m
    requires multiset(a) == multiset(b)
    ensures SumAt(m, a) == SumAt(m, b)
    decreases |a|
  {
    if |a| > 0 {
      var k := a[0];
      assert a == [k] + a[1..];
      assert multiset(a[1..]) == multiset(a) - multiset{k};
      assert k in multiset(b);
      var i :| 0 <= i < |b| && b[i] == k;
      RemoveAt(m, b, i);
      SumAtPermutation(m, a[1..], b[..i] + b[i + 1..]);
    } else {
      assert |multiset(b)| == 0;
    }
  }

  lemma KeyOrdersArePermutations<V>(m: map<string, V>, a: seq<string>, b: seq<string>)
    requires IsKeyOrder(m, a) && IsKeyOrder(m, b)
    ensures multiset(a) == multiset(b)
  {
    DistinctMultiset(a);
    DistinctMultiset(b);
    assert multiset(a) == multiset(b) by {
      forall k ensures multiset(a)[k] == multiset(b)[k] {
      }
    }
  }

  lemma {:induction false} DistinctMultiset(s: seq<string>)
    requires forall i, j :: 0 <= i < j < |s| ==> s[i] != s[j]
    ensures forall k :: multiset(s)[k] == if k in s then 1 else 0
    decreases |s|
  {
    if |s| > 0 {
      DistinctMultiset(s[1..]);
      assert s == [s[0]] + s[1..];
      assert s[0] !in s[1..];
      forall k ensures multiset(s)[k] == if k in s then 1 else 0 {
        assert multiset(s)[k] == multiset([s[0]])[k] + multiset(s[1..])[k];
      }
    }
  }

  /** `m.values().stream().mapToInt(Integer::intValue).sum()`: the values added in `int`
      arithmetic while iterating in the order `ks`. */
  function IntSum(m: map<string, int>, ks: seq<string>): int
    requires IsKeyOrder(m, ks)
  {
    Wrap32(SumAt(m, ks))
  }

  /** Whatever order the map is iterated in, the `int` sum of its values is the same. */
  lemma IntSumAnyOrder(m: map<string, int>, a: seq<string>, b: seq<string>)
    requires IsKeyOrder(m, a) && IsKeyOrder(m, b)
    ensures IntSum(m, a) == IntSum(m, b)
  {
    KeyOrdersArePermutations(m, a, b);
    SumAtPermutation(m, a, b);
  }
}
