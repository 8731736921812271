/** The syntax tree the parser builds: a node has a type name, an optional value and an
    ordered list of children. */
module Ast {
  import opened Wrappers
  import opened JavaText
  import opened JavaMaps

  /** The values a node carries, by their Java class; `Null` is the absent value. */
  datatype Value =
    | Null
    | IntV(i: int)
    | BoolV(b: bool)
    | StrV(s: string)
    | ListV(items: seq<string>)
    | MapV(m: map<string, int>)

  datatype Node = Node(kind: string, value: Value, children: seq<Node>)

  /** `new ASTNode(type)`. */
  function Leaf(kind: string): (n: Node)
    ensures n.kind == kind && n.value == Null && n.children == []
  {
    Node(kind, Null, [])
  }

  /** `new ASTNode(type, value)`. */
  function WithValue(kind: string, v: Value): (n: Node)
    ensures n.kind == kind && n.value == v && n.children == []
  {
    Node(kind, v, [])
  }

  /** `addChild`: the new child goes at the end and the earlier children stay as they were. */
  function AddChild(n: Node, c: Node): (r: Node)
    ensures r.kind == n.kind && r.value == n.value
    ensures |r.children| == |n.children| + 1
    ensures r.children[..|n.children|] == n.children && r.children[|n.children|] == c
  {
    Node(n.kind, n.value, n.children + [c])
  }

  /** `getChild(index)`: the child at `index` when the index is below the number of
      children, `null` (`None`) when it is not; a negative index makes `List.get` throw. */
  function GetChild(n: Node, index: int): (r: Result<Option<Node>>)
    ensures r.Err? <==> index < 0
    ensures r == Ok(None) <==> index >= |n.children|
    ensures 0 <= index < |n.children| ==> r == Ok(Some(n.children[index]))
  {
    if |n.children| > index then
      if index < 0 then Err("IndexOutOfBoundsException") else Ok(Some(n.children[index]))
    else Ok(None)
  }

  /** A child added last is found at the end, and the earlier ones where they were. */
  lemma AddChildThenGetChild(n: Node, c: Node, i: int)
    ensures GetChild(AddChild(n, c), |n.children|) == Ok(Some(c))
    ensures 0 <= i < |n.children| ==> GetChild(AddChild(n, c), i) == GetChild(n, i)
  {
    if 0 <= i < |n.children| {
      assert AddChild(n, c).children[i] == AddChild(n, c).children[..|n.children|][i];
    }
  }

  // ---------------------------------------------------------------- printing

  /** `String.valueOf(value)` for the classes a node can hold, with maps iterated in the
      order `order`: `List.toString` is `[a, b]` and `Map.toString` is `{k=v, k=v}`. */
  function ValueString(order: KeyOrder, v: Value): string {
    match v
    case Null => "null"
    case IntV(i) => IntToString(i)
    case BoolV(b) => if b then "true" else "false"
    case StrV(s) => s
    case ListV(items) => "[" + Join(items, ", ") + "]"
    case MapV(m) => "{" + EntriesText(m, order(m), "=") + "}"
  }

  /** The order the model's printing iterates a `HashMap` in. */
  ghost const HashOrder: KeyOrder := (m: map<string, int>) => IterationOrder(m.Keys)

  ghost function ValueText(v: Value): string {
    ValueString(HashOrder, v)
  }

  /** `Map.toString`: `{k=v, k=v}` in the map's iteration order. */
  ghost function MapText(m: map<string, int>): string {
    ValueString(HashOrder, MapV(m))
  }

  /** Two spaces per level of depth. */
  function Indent(depth: nat): (r: string)
    ensures |r| == 2 * depth
    ensures forall i :: 0 <= i < |r| ==> r[i] == ' '
  {
    if depth == 0 then "" else "  " + Indent(depth - 1)
  }

  /** The line a node prints for itself: its type, then `: value` when it has a value. */
  ghost function Line(n: Node, depth: nat): string {
    Indent(depth) + n.kind + (if n.value.Null? then "" else ": " + ValueText(n.value)) + "\n"
  }

  /** `toString(indent)`: the node's own line followed by its children's text, each one
      level deeper. */
  ghost function Print(n: Node, depth: nat): string
    decreases n
  {
    Line(n, depth) + PrintAll(n.children, depth + 1)
  }

  ghost function PrintAll(cs: seq<Node>, depth: nat): string
    decreases cs
  {
    if cs == [] then "" else Print(cs[0], depth) + PrintAll(cs[1..], depth)
  }

  /** `toString()`. */
  ghost function ToString(n: Node): (r: string)
    ensures r == Lines(Outline(n, 0))
    ensures Line(n, 0) <= r
  {
    PrintIsOutline(n, 0);
    Print(n, 0)
  }

  // ---------------------------------------------------------------- the outline

  /** The nodes of a tree in preorder, each with its depth below `depth`. */
  function Outline(n: Node, depth: nat): (r: seq<(nat, Node)>)
    ensures |r| > 0 && r[0] == (depth, n)
    ensures forall i :: 0 < i < |r| ==> r[i].0 > depth
    decreases n
  {
    [(depth, n)] + OutlineAll(n.children, depth + 1)
  }

  function OutlineAll(cs: seq<Node>, depth: nat): (r: seq<(nat, Node)>)
    ensures forall i :: 0 <= i < |r| ==> r[i].0 >= depth
    decreases cs
  {
    if cs == [] then [] else Outline(cs[0], depth) + OutlineAll(cs[1..], depth)
  }

  /** The number of nodes in a tree. */
  function Size(n: Node): nat
    decreases n
  {
    1 + SizeAll(n.children)
  }

  function SizeAll(cs: seq<Node>): nat
    decreases cs
  {
    if cs == [] then 0 else Size(cs[0]) + SizeAll(cs[1..])
  }

  /** The lines of an outline, one after the other. */
  ghost function Lines(o: seq<(nat, Node)>): string
    decreases |o|
  {
    if |o| == 0 then "" else Line(o[0].1, o[0].0) + Lines(o[1..])
  }

  lemma {:induction false} LinesAppend(a: seq<(nat, Node)>, b: seq<(nat, Node)>)
    ensures Lines(a + b) == Lines(a) + Lines(b)
    decreases |a|
  {
    if |a| > 0 {
      assert (a + b)[1..] == a[1..] + b;
      LinesAppend(a[1..], b);
    } else {
      assert a + b == b;
    }
  }

  /** `toString` prints exactly one line per node, in preorder, each indented by two spaces
      per level and showing `type: value` when the value is not null. */
  lemma {:induction false} PrintIsOutline(n: Node, depth: nat)
    ensures Print(n, depth) == Lines(Outline(n, depth))
    decreases n, 1
  {
    PrintAllIsOutline(n.children, depth + 1);
    LinesAppend([(depth, n)], OutlineAll(n.children, depth + 1));
  }

  lemma {:induction false} PrintAllIsOutline(cs: seq<Node>, depth: nat)
    ensures PrintAll(cs, depth) == Lines(OutlineAll(cs, depth))
    decreases cs, 0
  {
    if cs != [] {
      PrintIsOutline(cs[0], depth);
      PrintAllIsOutline(cs[1..], depth);
      LinesAppend(Outline(cs[0], depth), OutlineAll(cs[1..], depth));
    }
  }

  /** The outline has one entry per node. */
  lemma {:induction false} OutlineSize(n: Node, depth: nat)
    ensures |Outline(n, depth)| == Size(n)
    decreases n, 1
  {
    OutlineAllSize(n.children, depth + 1);
  }

  lemma {:induction false} OutlineAllSize(cs: seq<Node>, depth: nat)
    ensures |OutlineAll(cs, depth)| == SizeAll(cs)
    decreases cs, 0
  {
    if cs != [] {
      OutlineSize(cs[0], depth);
      OutlineAllSize(cs[1..], depth);
    }
  }
}
