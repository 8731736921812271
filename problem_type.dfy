/** The kinds of problem the system generates, each with a Russian display name and the
    name a CDSL `TASK` declaration uses for it. */
module ProblemTypes {
  import opened Wrappers
  import opened JavaText

  datatype ProblemType =
    Cards | Words | Numbers | Equations | BallsAndUrns | Divisibility | Remainders | Chess
  {
    function DisplayName(): string {
      match this
      case Cards => "Карты"
      case Words => "Слова"
      case Numbers => "Числа"
      case Equations => "Уравнения"
      case BallsAndUrns => "Шары и урны"
      case Divisibility => "Делимости"
      case Remainders => "Остатки"
      case Chess => "Шахматы"
    }

    function CdslName(): string {
      match this
      case Cards => "CARDS"
      case Words => "WORDS"
      case Numbers => "NUMBERS"
      case Equations => "EQUATIONS"
      case BallsAndUrns => "BALLS"
      case Divisibility => "DIVISIBILITY"
      case Remainders => "REMAINDERS"
      case Chess => "CHESS"
    }
  }

  /** `ProblemType.values()`, in declaration order. */
  const AllTypes: seq<ProblemType> :=
    [Cards, Words, Numbers, Equations, BallsAndUrns, Divisibility, Remainders, Chess]

  lemma AllTypesComplete(t: ProblemType)
    ensures t in AllTypes
  {
  }

  /** The first of `types` whose CDSL name equals `name` ignoring case. */
  function FirstNamed(types: seq<ProblemType>, name: string): (r: Option<ProblemType>)
    ensures r.Some? ==> r.value in types && EqualsIgnoreCase(r.value.CdslName(), name)
    ensures r.None? ==> forall i :: 0 <= i < |types| ==> !EqualsIgnoreCase(types[i].CdslName(), name)
    decreases |types|
  {
    if |types| == 0 then None
    else if EqualsIgnoreCase(types[0].CdslName(), name) then Some(types[0])
    else FirstNamed(types[1..], name)
  }

  lemma UnlistedNameIsUnknown(name: string)
    requires FirstNamed(AllTypes, name).None?
    ensures forall t: ProblemType :: !EqualsIgnoreCase(t.CdslName(), name)
  {
    forall t: ProblemType ensures !EqualsIgnoreCase(t.CdslName(), name) {
      var i :| 0 <= i < |AllTypes| && AllTypes[i] == t;
    }
  }

  /** `fromCdslName`: the type whose CDSL name equals `name` ignoring case; an unknown name
      raises IllegalArgumentException. */
  function FromCdslName(name: string): (r: Result<ProblemType>)
    ensures r.Ok? ==> EqualsIgnoreCase(r.value.CdslName(), name)
    ensures r.Err? <==> forall t: ProblemType :: !EqualsIgnoreCase(t.CdslName(), name)
  {
    match FirstNamed(AllTypes, name)
    case Some(t) => Ok(t)
    case None =>
      UnlistedNameIsUnknown(name);
      Err("Unknown CDSL task type: " + name)
  }

  /** No two types have CDSL names equal ignoring case, so the lookup is unambiguous. */
  lemma CdslNamesDistinct(a: ProblemType, b: ProblemType)
    requires a != b
    ensures !EqualsIgnoreCase(a.CdslName(), b.CdslName())
  {
    var ua := ToUpper(a.CdslName());
    var ub := ToUpper(b.CdslName());
    assert ua == a.CdslName() by { UpperOfUpper(a.CdslName()); }
    assert ub == b.CdslName() by { UpperOfUpper(b.CdslName()); }
  }

  lemma UpperOfUpper(s: string)
    requires forall i :: 0 <= i < |s| ==> !('a' <= s[i] <= 'z')
    ensures ToUpper(s) == s
  {
  }

  /** Looking a type up by its own CDSL name, in any letter case, gives that type back. */
  lemma FromCdslNameRoundTrip(t: ProblemType, name: string)
    requires EqualsIgnoreCase(name, t.CdslName())
    ensures FromCdslName(name) == Ok(t)
  {
    var r := FromCdslName(name);
    assert r.Ok?;
    if r.value != t {
      CdslNamesDistinct(r.value, t);
    }
  }

  /** `BALLS` names the balls-and-urns problems. */
  lemma BallsNamesBallsAndUrns()
    ensures FromCdslName("BALLS") == Ok(BallsAndUrns)
  {
    FromCdslNameRoundTrip(BallsAndUrns, "BALLS");
  }
}
