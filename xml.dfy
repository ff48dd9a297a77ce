/**
 * The XML that the builders emit, as an abstract element tree. Element names
 * carry their namespace prefix ("cbc:ID", "cac:Party"); the root element has
 * none. Escaping, the XML declaration and pretty-printing are not modelled.
 */
module Xml {

  datatype Attr = Attr(key: string, value: string)

  datatype Node =
    | Element(name: string, attrs: seq<Attr>, children: seq<Node>)
    | Text(content: string)

  /** `xml["cbc"].Name text`: an element with no attributes holding one text node. */
  function Leaf(name: string, text: string): Node {
    Element(name, [], [Text(text)])
  }

  /** `xml["cac"].Name do ... end`: an element with no attributes and the given children. */
  function Elem(name: string, children: seq<Node>): Node {
    Element(name, [], children)
  }

  /** The name of an element; a text node has none. */
  function NameOf(n: Node): string {
    if n.Element? then n.name else ""
  }

  /** The names of a sequence of sibling nodes, in order. */
  function Names(ns: seq<Node>): seq<string> {
    seq(|ns|, i requires 0 <= i < |ns| => NameOf(ns[i]))
  }

  lemma NamesAppend(a: seq<Node>, b: seq<Node>)
    ensures Names(a + b) == Names(a) + Names(b)
  {
    assert forall i :: 0 <= i < |a + b| ==> Names(a + b)[i] == (Names(a) + Names(b))[i];
  }
}
