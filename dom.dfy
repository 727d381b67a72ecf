/** The part of the HTML document the builders touch. Elements are values;
    the containers whose children the builders replace in place are objects. */
module Dom {
  import opened Seqs

  /** An element with its tag, its `class` attribute and its children; a text
      node; or an anchor whose text is its own `href`, opened in a new tab
      with `rel="noreferrer"`. */
  datatype Node =
    | Elem(tag: string, cls: string, children: seq<Node>)
    | Text(s: string)
    | Link(href: string)

  /** `textContent`: the text of every descendant text node, in document order. */
  function TextContent(n: Node): string
    decreases n, 1
  {
    match n
    case Text(s) => s
    case Link(href) => href
    case Elem(_, _, children) => TextContents(children)
  }

  function TextContents(ns: seq<Node>): string
    decreases ns, 0
  {
    if ns == [] then "" else TextContent(ns[0]) + TextContents(ns[1..])
  }

  /** An element created with `className` and `textContent` set; an empty
      text adds no text node. */
  function TextElem(tag: string, cls: string, s: string): (n: Node)
    ensures n.Elem? && n.tag == tag && n.cls == cls
    ensures TextContent(n) == s
  {
    var n := Elem(tag, cls, if s == "" then [] else [Text(s)]);
    assert TextContents(n.children) == s by {
      if s != "" {
        assert n.children[1..] == [];
      }
    }
    n
  }

  /** A `<table>`: its `tr` descendants in document order. */
  class Table {
    var rows: seq<Node>

    constructor(rows: seq<Node>)
      ensures this.rows == rows
    {
      this.rows := rows;
    }
  }

  /** An element whose child list a builder edits. */
  class Container {
    var children: seq<Node>

    constructor(children: seq<Node>)
      ensures this.children == children
    {
      this.children := children;
    }
  }

  /** Keeping a prefix one element longer. */
  lemma FilterStep(keep: Node -> bool, xs: seq<Node>, i: nat)
    requires i < |xs|
    ensures Filter(keep, xs[..i + 1]) == Filter(keep, xs[..i]) + (if keep(xs[i]) then [xs[i]] else [])
  {
    assert xs[..i + 1] == xs[..i] + [xs[i]];
    FilterConcat(keep, xs[..i], [xs[i]]);
    FilterSingle(keep, xs[i]);
  }

  /** The child list after the first `i` children were looked at: the kept
      ones among them, then the rest. */
  function Partly(keep: Node -> bool, children: seq<Node>, i: nat): seq<Node>
    requires i <= |children|
  {
    Filter(keep, children[..i]) + children[i..]
  }

  /** Looking at child `i`: it sits right after the kept ones; removing it,
      or keeping it, gives the child list after `i + 1` children. */
  lemma RemoveStep(keep: Node -> bool, children: seq<Node>, i: nat)
    requires i < |children|
    ensures var r := Partly(keep, children, i);
            var pos := |Filter(keep, children[..i])|;
            pos < |r| && r[pos] == children[i]
            && Partly(keep, children, i + 1) == if keep(children[i]) then r else r[..pos] + r[pos + 1..]
  {
    FilterStep(keep, children, i);
    var kept := Filter(keep, children[..i]);
    var r := kept + children[i..];
    var pos := |kept|;
    assert r[..pos] == kept && r[pos + 1..] == children[i + 1..];
    assert children[i..] == [children[i]] + children[i + 1..];
  }

  /** `querySelectorAll(selector).forEach((item) => item.remove())` on a
      child list: the matching children are removed one at a time. */
  method RemoveMatching(children: seq<Node>, keep: Node -> bool) returns (r: seq<Node>)
    ensures r == Filter(keep, children)
  {
    r := children;
    var i := 0;
    assert Partly(keep, children, 0) == children;
    while i < |children|
      invariant 0 <= i <= |children|
      invariant r == Partly(keep, children, i)
    {
      RemoveStep(keep, children, i);
      if !keep(r[|Filter(keep, children[..i])|]) {
        var pos := |Filter(keep, children[..i])|;
        r := r[..pos] + r[pos + 1..];
      }
      i := i + 1;
    }
    assert children[..i] == children;
    assert r == Filter(keep, children) + [];
  }
}
