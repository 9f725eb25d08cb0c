/**
 * The parsed SCL document as the editor sees it through the DOM: elements with
 * a tag, attributes, text content and child elements in document order.
 * Parsing itself happens in the xmldom library and is not part of this model.
 */
module Xml {

  datatype Element = Element(
    tag: string,
    attributes: map<string, string>,
    textContent: string,
    children: seq<Element>)

  /** `Element.getAttribute` as xmldom implements it: a missing attribute reads as "". */
  function GetAttribute(e: Element, name: string): (r: string)
    ensures name in e.attributes ==> r == e.attributes[name]
    ensures name !in e.attributes ==> r == ""
  {
    if name in e.attributes then e.attributes[name] else ""
  }

  /** Pre-order walk of a forest, keeping every element whose tag is `tag`. */
  function Collect(forest: seq<Element>, tag: string): (r: seq<Element>)
    ensures forall x :: x in r ==> x.tag == tag
    ensures |r| <= Size(forest)
    decreases forest
  {
    if forest == [] then []
    else
      var head := forest[0];
      (if head.tag == tag then [head] else []) + Collect(head.children, tag) + Collect(forest[1..], tag)
  }

  /** Number of elements in a forest, counting every descendant. */
  function Size(forest: seq<Element>): nat
    decreases forest
  {
    if forest == [] then 0 else 1 + Size(forest[0].children) + Size(forest[1..])
  }

  /** `x` is one of the elements of `forest` or a descendant of one of them. */
  ghost predicate Within(x: Element, forest: seq<Element>)
    decreases forest
  {
    forest != [] && (x == forest[0] || Within(x, forest[0].children) || Within(x, forest[1..]))
  }

  /** The walk finds an element exactly when it lies in the forest and has the tag. */
  lemma {:induction false} CollectExact(forest: seq<Element>, tag: string, x: Element)
    ensures x in Collect(forest, tag) <==> Within(x, forest) && x.tag == tag
    decreases forest
  {
    if forest != [] {
      CollectExact(forest[0].children, tag, x);
      CollectExact(forest[1..], tag, x);
    }
  }

  /** `Element.getElementsByTagName`: the descendants of `e` (not `e` itself) with that tag, in document order. */
  function ElementsByTagName(e: Element, tag: string): (r: seq<Element>)
    ensures forall x :: x in r <==> Within(x, e.children) && x.tag == tag
    ensures |r| <= Size(e.children)
  {
    forall x ensures x in Collect(e.children, tag) <==> Within(x, e.children) && x.tag == tag {
      CollectExact(e.children, tag, x);
    }
    Collect(e.children, tag)
  }

  /** `Document.getElementsByTagName`: the document element itself is a candidate too, ahead of its descendants. */
  function DocumentElementsByTagName(root: Element, tag: string): (r: seq<Element>)
    ensures forall x :: x in r ==> x.tag == tag
    ensures r == (if root.tag == tag then [root] else []) + ElementsByTagName(root, tag)
  {
    assert [root][1..] == [];
    Collect([root], tag)
  }

  /** Document order is kept across siblings: the matches of a forest are those of its parts, in order. */
  lemma {:induction false} CollectAppend(f1: seq<Element>, f2: seq<Element>, tag: string)
    ensures Collect(f1 + f2, tag) == Collect(f1, tag) + Collect(f2, tag)
    decreases f1
  {
    if f1 == [] {
      assert f1 + f2 == f2;
    } else {
      assert (f1 + f2)[0] == f1[0];
      assert (f1 + f2)[1..] == f1[1..] + f2;
      CollectAppend(f1[1..], f2, tag);
    }
  }
}
