/** A playing card named by rank and suit, either of which may be absent (`null`). */
module Cards {
  import opened Wrappers
  import opened JavaText

  datatype Card = Card(rank: Option<string>, suit: Option<string>)

  function UpperOpt(s: Option<string>): Option<string> {
    match s
    case None => None
    case Some(v) => Some(ToUpper(v))
  }

  /** `new Card(rank, suit)`: both parts are stored upper-cased, and an absent part stays
      absent. */
  function NewCard(rank: Option<string>, suit: Option<string>): (c: Card)
    ensures c.rank.Some? <==> rank.Some?
    ensures c.suit.Some? <==> suit.Some?
    ensures rank.Some? ==> c.rank.value == ToUpper(rank.value)
    ensures suit.Some? ==> c.suit.value == ToUpper(suit.value)
  {
    Card(UpperOpt(rank), UpperOpt(suit))
  }

  /** `Card.equals`: `Objects.equals` on the rank and on the suit. */
  predicate Equals(a: Card, b: Card) {
    a.rank == b.rank && a.suit == b.suit
  }

  /** Both absent, or both present and equal ignoring case. */
  predicate SameIgnoringCase(x: Option<string>, y: Option<string>) {
    (x.None? && y.None?) || (x.Some? && y.Some? && EqualsIgnoreCase(x.value, y.value))
  }

  /** Two constructed cards are equal exactly when their ranks and their suits agree
      ignoring case. */
  lemma NewCardEquals(r1: Option<string>, s1: Option<string>, r2: Option<string>, s2: Option<string>)
    ensures Equals(NewCard(r1, s1), NewCard(r2, s2))
      <==> SameIgnoringCase(r1, r2) && SameIgnoringCase(s1, s2)
  {
  }

  /** `Objects.hashCode`: 0 for `null`. */
  function OptHash(s: Option<string>): (r: int)
    ensures IsInt32(r)
  {
    match s
    case None => 0
    case Some(v) => StringHash(v)
  }

  /** `Objects.hash(rank, suit)`, which is `Arrays.hashCode` of the two. */
  function HashCode(c: Card): (r: int)
    ensures IsInt32(r)
  {
    Wrap32(31 * Wrap32(31 * 1 + OptHash(c.rank)) + OptHash(c.suit))
  }

  /** Equal cards hash alike. */
  lemma HashCodeRespectsEquals(a: Card, b: Card)
    requires Equals(a, b)
    ensures HashCode(a) == HashCode(b)
  {
  }

  /** `String.valueOf` of a possibly absent string. */
  function Text(s: Option<string>): string {
    match s
    case None => "null"
    case Some(v) => v
  }

  /** `Card.toString`: `rank + " of " + suit`. */
  function ToString(c: Card): (r: string)
    ensures |r| == |Text(c.rank)| + 4 + |Text(c.suit)|
  {
    Text(c.rank) + " of " + Text(c.suit)
  }

  /** When the rank has no space, the text splits back into rank and suit at its first
      space. */
  lemma ToStringSplits(c: Card)
    requires ' ' !in Text(c.rank)
    ensures var r := ToString(c); var i := IndexOf(r, ' ', 0);
      i == |Text(c.rank)| && r[..i] == Text(c.rank) && r[i + 4..] == Text(c.suit)
  {
    var r := ToString(c);
    var n := |Text(c.rank)|;
    assert r[n] == ' ';
    assert forall j :: 0 <= j < n ==> r[j] == Text(c.rank)[j];
    IndexOfFirst(r, ' ', n);
    assert r[..n] == Text(c.rank);
    assert r[n + 4..] == Text(c.suit);
  }

  lemma IndexOfFirst(s: string, c: char, n: nat)
    requires n < |s| && s[n] == c
    requires forall j :: 0 <= j < n ==> s[j] != c
    ensures IndexOf(s, c, 0) == n
  {
    var i := IndexOf(s, c, 0);
    assert i != -1;
  }
}
