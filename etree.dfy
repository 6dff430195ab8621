/**
  The part of an lxml element tree the decoder reads: tag, attributes, the
  text before the first child, and the element children in document order.
 */
module Etree {
  import opened Wrappers

  datatype Element = Element(
    tag: string,
    attrib: map<string, string>,
    text: Option<string>,
    children: seq<Element>)
  {
    /** `element.get(name)`. */
    function Get(name: string): (r: Option<string>)
      ensures r.Some? <==> name in attrib
      ensures r.Some? ==> r.value == attrib[name]
    {
      if name in attrib then Some(attrib[name]) else None
    }
  }

  /** Number of elements in the tree; every child is strictly smaller than its parent. */
  function Size(e: Element): nat
    decreases e
  {
    1 + SizeAll(e.children)
  }

  function SizeAll(es: seq<Element>): nat
    decreases es
  {
    if es == [] then 0 else Size(es[0]) + SizeAll(es[1..])
  }

  lemma {:induction false} SizeAllBounds(es: seq<Element>, x: Element)
    requires x in es
    ensures Size(x) <= SizeAll(es)
    decreases es
  {
    if es[0] != x {
      SizeAllBounds(es[1..], x);
    }
  }

  lemma ChildSmaller(e: Element, c: Element)
    requires c in e.children
    ensures Size(c) < Size(e)
  {
    SizeAllBounds(e.children, c);
  }

  /** A tag an XML document can carry: non-empty, and never starting with the
      `@` and `#` sigils that the mapping tables use for attributes and text. */
  predicate IsXmlName(t: string) {
    |t| > 0 && t[0] != '@' && t[0] != '#'
  }

  /** The tags of `element.iterchildren()`, in document order. */
  function ChildTags(es: seq<Element>): (r: seq<string>)
    ensures |r| == |es|
    ensures forall i | 0 <= i < |es| :: r[i] == es[i].tag
  {
    if es == [] then [] else [es[0].tag] + ChildTags(es[1..])
  }

  /** `element.find(tag)` for a plain tag: the first child carrying it. */
  function Find(e: Element, tag: string): (r: Option<Element>)
    ensures r.Some? ==> r.value in e.children && r.value.tag == tag
    ensures r.Some? ==> exists i | 0 <= i < |e.children| ::
              (e.children[i] == r.value && forall j | 0 <= j < i :: e.children[j].tag != tag)
    ensures r.None? <==> forall c | c in e.children :: c.tag != tag
  {
    FindIn(e.children, tag)
  }

  function FindIn(es: seq<Element>, tag: string): (r: Option<Element>)
    ensures r.Some? ==> r.value in es && r.value.tag == tag
    ensures r.Some? ==> exists i | 0 <= i < |es| ::
              (es[i] == r.value && forall j | 0 <= j < i :: es[j].tag != tag)
    ensures r.None? <==> forall c | c in es :: c.tag != tag
  {
    if es == [] then None
    else if es[0].tag == tag then Some(es[0])
    else
      var r := FindIn(es[1..], tag);
      assert r.Some? ==> exists i | 0 <= i < |es| ::
        (es[i] == r.value && forall j | 0 <= j < i :: es[j].tag != tag) by {
        if r.Some? {
          var i :| 0 <= i < |es[1..]| && es[1..][i] == r.value &&
            forall j | 0 <= j < i :: es[1..][j].tag != tag;
          assert es[i + 1] == r.value;
          assert forall j | 0 <= j < i + 1 :: es[j].tag != tag by {
            forall j | 0 <= j < i + 1 ensures es[j].tag != tag {
              if j > 0 { assert es[j] == es[1..][j - 1]; }
            }
          }
        }
      }
      r
  }

  /** `element.xpath("container/item")`: every `item` child of every
      `container` child, in document order. */
  function FindPath(e: Element, container: string, item: string): (r: seq<Element>)
    ensures forall x | x in r :: x.tag == item && Size(x) < Size(e)
  {
    var r := PathIn(e.children, container, item);
    assert forall x | x in r :: Size(x) < Size(e) by {
      forall x | x in r ensures Size(x) < Size(e) {
        PathInSmaller(e.children, container, item, x);
      }
    }
    r
  }

  function PathIn(es: seq<Element>, container: string, item: string): (r: seq<Element>)
    ensures forall x | x in r :: x.tag == item
  {
    if es == [] then []
    else (if es[0].tag == container then Matching(es[0].children, item) else [])
         + PathIn(es[1..], container, item)
  }

  /** The elements of `es` carrying `tag`, in order. */
  function Matching(es: seq<Element>, tag: string): (r: seq<Element>)
    ensures forall x | x in r :: x in es && x.tag == tag
  {
    if es == [] then []
    else (if es[0].tag == tag then [es[0]] else []) + Matching(es[1..], tag)
  }

  lemma {:induction false} PathInSmaller(es: seq<Element>, container: string, item: string, x: Element)
    requires x in PathIn(es, container, item)
    ensures Size(x) < SizeAll(es)
    decreases es
  {
    var head := if es[0].tag == container then Matching(es[0].children, item) else [];
    if x in head {
      ChildSmaller(es[0], x);
    } else {
      PathInSmaller(es[1..], container, item, x);
    }
  }

  /** Without a container child the path matches nothing. */
  lemma PathWithoutContainers(e: Element, container: string, item: string)
    requires forall c | c in e.children :: c.tag != container
    ensures FindPath(e, container, item) == []
  {
    NoContainers(e.children, container, item);
  }

  lemma {:induction false} NoContainers(es: seq<Element>, container: string, item: string)
    requires forall c | c in es :: c.tag != container
    ensures PathIn(es, container, item) == []
    decreases es
  {
    if es != [] {
      NoContainers(es[1..], container, item);
    }
  }

  /** Selecting by tag distributes over concatenation, so the matches keep
      document order. */
  lemma {:induction false} MatchingAppend(a: seq<Element>, b: seq<Element>, tag: string)
    ensures Matching(a + b, tag) == Matching(a, tag) + Matching(b, tag)
    decreases a
  {
    if a == [] {
      assert a + b == b;
    } else {
      assert (a + b)[0] == a[0];
      assert (a + b)[1..] == a[1..] + b;
      MatchingAppend(a[1..], b, tag);
    }
  }

  /** An element is selected exactly when it is in `es` and carries `tag`. */
  lemma {:induction false} MatchingMembers(es: seq<Element>, tag: string, x: Element)
    ensures x in Matching(es, tag) <==> x in es && x.tag == tag
    decreases es
  {
    if es != [] {
      assert es == [es[0]] + es[1..];
      MatchingMembers(es[1..], tag, x);
    }
  }

  /** The path over a concatenation of siblings is the concatenation of the
      paths: the container children are visited in document order. */
  lemma {:induction false} PathInAppend(a: seq<Element>, b: seq<Element>, container: string, item: string)
    ensures PathIn(a + b, container, item) == PathIn(a, container, item) + PathIn(b, container, item)
    decreases a
  {
    if a == [] {
      assert a + b == b;
    } else {
      assert (a + b)[0] == a[0];
      assert (a + b)[1..] == a[1..] + b;
      PathInAppend(a[1..], b, container, item);
    }
  }

  /** An element is matched exactly when it is an `item` child of some
      `container` child. */
  lemma {:induction false} PathInMembers(es: seq<Element>, container: string, item: string, x: Element)
    ensures x in PathIn(es, container, item)
        <==> exists k | 0 <= k < |es| :: es[k].tag == container && x in es[k].children && x.tag == item
    decreases es
  {
    if es != [] {
      var head := if es[0].tag == container then Matching(es[0].children, item) else [];
      PathInMembers(es[1..], container, item, x);
      MatchingMembers(es[0].children, item, x);
      assert x in PathIn(es, container, item) <==> x in head || x in PathIn(es[1..], container, item);
      if x in PathIn(es[1..], container, item) {
        var k :| 0 <= k < |es[1..]| && es[1..][k].tag == container && x in es[1..][k].children && x.tag == item;
        assert es[k + 1] == es[1..][k];
      }
      if exists k | 0 <= k < |es| :: es[k].tag == container && x in es[k].children && x.tag == item {
        var k :| 0 <= k < |es| && es[k].tag == container && x in es[k].children && x.tag == item;
        if k > 0 {
          assert es[1..][k - 1] == es[k];
        }
      }
    }
  }

  /** Splitting the search around one element `es[k]`. */
  lemma {:induction false} PathInSplitAt(es: seq<Element>, container: string, item: string, k: int)
    requires 0 <= k < |es|
    ensures PathIn(es, container, item)
         == PathIn(es[..k], container, item)
            + (if es[k].tag == container then Matching(es[k].children, item) else [])
            + PathIn(es[k + 1..], container, item)
  {
    var t := es[k..];
    assert es == es[..k] + t;
    PathInAppend(es[..k], t, container, item);
    assert t[0] == es[k] && t[1..] == es[k + 1..];
  }

  /** `container/item` selects exactly the `item` children of the
      `container` children of `e`, and a container's items come out in
      their own order, between those of the containers before and after it. */
  lemma FindPathExact(e: Element, container: string, item: string, x: Element)
    ensures x in FindPath(e, container, item)
        <==> exists k | 0 <= k < |e.children| ::
               e.children[k].tag == container && x in e.children[k].children && x.tag == item
    ensures forall k | 0 <= k < |e.children| ::
      FindPath(e, container, item)
        == PathIn(e.children[..k], container, item)
           + (if e.children[k].tag == container then Matching(e.children[k].children, item) else [])
           + PathIn(e.children[k + 1..], container, item)
  {
    PathInMembers(e.children, container, item, x);
    forall k | 0 <= k < |e.children|
      ensures FindPath(e, container, item)
           == PathIn(e.children[..k], container, item)
              + (if e.children[k].tag == container then Matching(e.children[k].children, item) else [])
              + PathIn(e.children[k + 1..], container, item)
    {
      PathInSplitAt(e.children, container, item, k);
    }
  }
}
