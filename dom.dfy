/**
 The parsed HTML tree as the converter sees it: text nodes and elements with
 an ordered list of children. The three tree queries the converter uses are
 modelled here: the flattened text of a subtree (`get_text`), the pre-order
 search for elements by tag name (`find_all`) and the search restricted to
 direct children (`find_all(..., recursive=False)`).
 */
module Dom {

  /** A node of the parsed document: a text string or an element. */
  datatype Node = Text(s: string) | Elem(tag: string, children: seq<Node>)

  /** The tags the block walker asks for, in the order the source lists them. */
  const ALLOW_LIST: seq<string> :=
    ["h1", "h2", "h3", "h4", "h5", "h6", "p", "ul", "ol", "li", "strong", "em", "u", "a"]

  /** An element whose tag is one of `names`. */
  predicate Matches(n: Node, names: seq<string>) {
    n.Elem? && n.tag in names
  }

  /** The children the inline formatter iterates; a text node has none. */
  function ChildrenOf(n: Node): seq<Node> {
    if n.Elem? then n.children else []
  }

  /** Flattened text of a node: every text node of the subtree, in document order. */
  function TextOf(n: Node): string
    decreases n
  {
    match n
    case Text(s) => s
    case Elem(_, children) => TextOfAll(children)
  }

  /** Flattened text of a sequence of sibling nodes. */
  function TextOfAll(nodes: seq<Node>): string
    decreases nodes
  {
    if nodes == [] then "" else TextOfAll(nodes[..|nodes| - 1]) + TextOf(nodes[|nodes| - 1])
  }

  /**
   All elements of the document whose top-level nodes are `forest` that match
   `names`, in document (pre-order) order: an element comes before its
   descendants, and a matching element's matching descendants are included.
   */
  function FindAll(forest: seq<Node>, names: seq<string>): (r: seq<Node>)
    ensures forall e :: e in r ==> Matches(e, names)
    decreases forest
  {
    if forest == [] then []
    else FindAll(forest[..|forest| - 1], names) + FindAllFrom(forest[|forest| - 1], names)
  }

  /** The matches in the subtree rooted at `n`, the root included. */
  function FindAllFrom(n: Node, names: seq<string>): (r: seq<Node>)
    ensures forall e :: e in r ==> Matches(e, names)
    decreases n
  {
    match n
    case Text(_) => []
    case Elem(tag, children) => (if tag in names then [n] else []) + FindAll(children, names)
  }

  /** The direct children of an element that are elements named `name`, in order. */
  function DirectChildren(children: seq<Node>, name: string): (r: seq<Node>)
    ensures |r| <= |children|
    ensures forall e :: e in r ==> e in children && e.Elem? && e.tag == name
    ensures forall i :: 0 <= i < |children| && children[i].Elem? && children[i].tag == name ==> children[i] in r
  {
    if children == [] then []
    else
      var last := children[|children| - 1];
      DirectChildren(children[..|children| - 1], name) + (if last.Elem? && last.tag == name then [last] else [])
  }

  /** `e` is `n` or lies somewhere below it. */
  predicate OccursAt(e: Node, n: Node)
    decreases n
  {
    e == n || (n.Elem? && OccursIn(e, n.children))
  }

  /** `e` is one of the nodes of `forest` or lies below one of them. */
  predicate OccursIn(e: Node, forest: seq<Node>)
    decreases forest
  {
    forest != [] && (OccursIn(e, forest[..|forest| - 1]) || OccursAt(e, forest[|forest| - 1]))
  }
}
