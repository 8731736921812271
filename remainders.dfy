/** What the remainders renderer shows as the dividend and the divisor: the typed fields
    of the problem record when they hold something usable, then the parameters, then
    fixed fallbacks. */
module RemaindersImage {
  import opened Wrappers
  import opened JavaText
  import opened JavaMaps
  import opened Ast
  import opened Context
  import opened Interpreter

  // ---------------------------------------------------------------- extractDividend

  /** A dividend that is `null`, empty or the placeholder `DIVIDEND` counts as missing. */
  predicate Unset(d: Option<string>) {
    d.None? || d.value == "" || d.value == "DIVIDEND"
  }

  /** A parameter key the renderer takes for a dividend: its lower case contains
      `dividend`, `number` or `делимое`. */
  predicate NamesDividend(key: string) {
    var k := ToLower(key);
    Contains(k, "dividend") || Contains(k, "number") || Contains(k, "делимое")
  }

  /** `getParameter(key).toString()`, or `null` when there is no such parameter or it is
      `null`. */
  function ParamText(order: KeyOrder, p: map<string, Value>, key: string): (r: Option<string>)
    ensures r.Some? <==> key in p && !p[key].Null?
    ensures r.Some? ==> r.value == ValueString(order, p[key])
  {
    if key in p && !p[key].Null? then Some(ValueString(order, p[key])) else None
  }

  /** The search over all parameters, in the iteration order `ks`: the text of the first
      parameter whose key names a dividend and whose text is usable. */
  function FirstNamed(order: KeyOrder, p: map<string, Value>, ks: seq<string>): (r: Option<string>)
    ensures r.Some? ==> !Unset(r)
    ensures r.Some? ==> exists i :: (0 <= i < |ks| && NamesDividend(ks[i]) && ParamText(order, p, ks[i]) == r
              && forall j :: 0 <= j < i && NamesDividend(ks[j]) ==> Unset(ParamText(order, p, ks[j])))
    ensures r.None? ==> forall i :: 0 <= i < |ks| && NamesDividend(ks[i]) ==> Unset(ParamText(order, p, ks[i]))
    decreases |ks|
  {
    if |ks| == 0 then None
    else if NamesDividend(ks[0]) && !Unset(ParamText(order, p, ks[0])) then ParamText(order, p, ks[0])
    else
      var r := FirstNamed(order, p, ks[1..]);
      assert forall i :: 1 <= i < |ks| ==> ks[i] == ks[1..][i - 1];
      if r.Some? then
        var i :| 0 <= i < |ks[1..]| && NamesDividend(ks[1..][i]) && ParamText(order, p, ks[1..][i]) == r
                 && forall j :: 0 <= j < i && NamesDividend(ks[1..][j]) ==> Unset(ParamText(order, p, ks[1..][j]));
        assert 0 <= i + 1 < |ks| && NamesDividend(ks[i + 1]) && ParamText(order, p, ks[i + 1]) == r
                 && forall j :: 0 <= j < i + 1 && NamesDividend(ks[j]) ==> Unset(ParamText(order, p, ks[j]));
        r
      else r
  }

  /** `extractDividend`: the typed dividend; failing that the `dividend` parameter as
      text; failing that the first usable parameter whose key names a dividend; failing
      that `X`. The result is never empty and never the placeholder, and it is always one
      of those four. */
  function Dividend(order: KeyOrder, dividend: Option<string>, p: map<string, Value>, ks: seq<string>): (r: string)
    requires IsKeyOrder(p, ks)
    ensures r != "" && r != "DIVIDEND"
    ensures !Unset(dividend) ==> r == dividend.value
    ensures Unset(dividend) && !Unset(ParamText(order, p, "dividend")) ==> r == ParamText(order, p, "dividend").value
    ensures Unset(dividend) && Unset(ParamText(order, p, "dividend")) ==>
              r == (if FirstNamed(order, p, ks).Some? then FirstNamed(order, p, ks).value else "X")
    ensures (dividend.Some? && r == dividend.value) || r == "X"
      || exists k :: k in p && NamesDividend(k) && ParamText(order, p, k) == Some(r)
  {
    var fromParam := ParamText(order, p, "dividend");
    var d2 := if Unset(dividend) && fromParam.Some? then fromParam else dividend;
    var d3 := if Unset(d2) && FirstNamed(order, p, ks).Some? then FirstNamed(order, p, ks) else d2;
    assert NamesDividend("dividend") by {
      assert ToLower("dividend") == "dividend";
    }
    if Unset(d3) then "X" else d3.value
  }

  /** The search loop of `extractDividend`, which stops at the first usable
      parameter. */
  method SearchParameters(ctx: ProblemContext, keys: seq<string>, order: KeyOrder) returns (found: Option<string>)
    requires IsKeyOrder(ctx.params, keys)
    ensures found == FirstNamed(order, ctx.params, keys)
  {
    found := None;
    var i := 0;
    while i < |keys|
      invariant 0 <= i <= |keys|
      invariant FirstNamed(order, ctx.params, keys[i..]) == FirstNamed(order, ctx.params, keys)
    {
      var key := keys[i];
      if NamesDividend(key) {
        var value := ctx.GetAdditionalParam(key);
        if value.Some? && !value.value.Null? {
          var text := ValueString(order, value.value);
          if text != "" && text != "DIVIDEND" {
            found := Some(text);
            return;
          }
        }
      }
      assert keys[i..][1..] == keys[i + 1..];
      i := i + 1;
    }
  }

  /** `extractDividend(context)`, iterating the parameters in the order `keys` and
      printing map values in the order `order`. */
  method ExtractDividend(ctx: ProblemContext, keys: seq<string>, order: KeyOrder) returns (dividendStr: string)
    requires IsKeyOrder(ctx.params, keys)
    ensures dividendStr == Dividend(order, ctx.dividend, ctx.params, keys)
  {
    var d := ctx.dividend;
    if Unset(d) {
      var param := ctx.GetAdditionalParam("dividend");
      if param.Some? && !param.value.Null? {
        d := Some(ValueString(order, param.value));
      }
    }
    if Unset(d) {
      var found := SearchParameters(ctx, keys, order);
      if found.Some? {
        d := found;
      }
    }
    if Unset(d) {
      d := Some("X");
    }
    dividendStr := d.value;
  }

  // ---------------------------------------------------------------- extractDivisor

  /** `extractDivisor`: a positive typed divisor as it is; otherwise the `divisor`
      parameter, an `Integer` as it is and a `String` parsed, with 1 for text that is not
      a number and for any other value; and 1 again for anything not positive. */
  function Divisor(divisor: int, p: map<string, Value>): (r: int)
    ensures r >= 1
    ensures divisor > 0 ==> r == divisor
    ensures divisor <= 0 && "divisor" in p && p["divisor"].IntV? && p["divisor"].i > 0 ==> r == p["divisor"].i
    ensures divisor <= 0 && !("divisor" in p && (p["divisor"].IntV? || p["divisor"].StrV?)) ==> r == 1
    ensures divisor <= 0 && "divisor" in p && p["divisor"].StrV? && ParseInt(p["divisor"].s).None? ==> r == 1
    ensures (divisor <= 0 && "divisor" in p && p["divisor"].StrV? && ParseInt(p["divisor"].s).Some?
              && ParseInt(p["divisor"].s).value > 0) ==> r == ParseInt(p["divisor"].s).value
    ensures divisor <= 0 && "divisor" in p && p["divisor"].IntV? && p["divisor"].i <= 0 ==> r == 1
    ensures (divisor <= 0 && "divisor" in p && p["divisor"].StrV? && ParseInt(p["divisor"].s).Some?
              && ParseInt(p["divisor"].s).value <= 0) ==> r == 1
  {
    var d :=
      if divisor > 0 then divisor
      else if "divisor" in p && p["divisor"].IntV? then p["divisor"].i
      else if "divisor" in p && p["divisor"].StrV? then ParseInt(p["divisor"].s).GetOr(1)
      else 1;
    if d <= 0 then 1 else d
  }

  /** `extractDivisor(context)`. */
  method ExtractDivisor(ctx: ProblemContext) returns (divisor: int)
    ensures divisor == Divisor(ctx.divisor, ctx.params)
  {
    divisor := ctx.divisor;
    if divisor <= 0 {
      var divisorParam := ctx.GetAdditionalParam("divisor");
      if divisorParam.Some? && divisorParam.value.IntV? {
        divisor := divisorParam.value.i;
      } else if divisorParam.Some? && divisorParam.value.StrV? {
        var parsed := ParseInt(divisorParam.value.s);
        if parsed.Some? {
          divisor := parsed.value;
        } else {
          divisor := 1;
        }
      } else {
        divisor := 1;
      }
    }
    if divisor <= 0 {
      divisor := 1;
    }
  }

  // ---------------------------------------------------------------- reading back what the interpreter wrote

  /** After a DIVISOR child the renderer divides by the interpreter's divisor when it is
      positive and by 1 otherwise: the typed field and the parameter agree. */
  lemma DivisorShown(s: State, c: Node)
    requires c.kind == "DIVISOR"
    requires RemaindersChild(s, c).Ok?
    ensures var t := RemaindersChild(s, c).value;
      Divisor(t.divisor, t.params) == if t.divisor > 0 then t.divisor else 1
  {
  }

  /** After a DIVIDEND child with a usable text the renderer shows that text; after one
      with no usable text, the `dividend` parameter the interpreter wrote adds nothing,
      so the renderer goes on to search the other parameters. */
  lemma DividendShown(order: KeyOrder, s: State, c: Node, ks: seq<string>)
    requires c.kind == "DIVIDEND"
    requires RemaindersChild(s, c).Ok?
    requires IsKeyOrder(RemaindersChild(s, c).value.params, ks)
    ensures var t := RemaindersChild(s, c).value;
      (!Unset(t.dividend) ==> Dividend(order, t.dividend, t.params, ks) == t.dividend.value)
      && (Unset(t.dividend) ==> Unset(ParamText(order, t.params, "dividend")))
  {
  }
}
