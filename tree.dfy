/** The parsed HTML document as the program reads it, and the three queries it asks of it:
    the first matching descendant (`find`, also `soup.title`), every matching descendant
    (`find_all`) and the nearest ancestor with a given tag (`find_parent`). */
module Tree {
  import opened Wrappers

  /** One element of the parsed document. `str` is the parser's `.string`: the element's
      only string child, or, when the element has a single child that is a tag, that child's
      `.string` (so `<title><b>N</b></title>` has the string "N"); `None` when there is no
      child or more than one. `text` is `.text`: every string below the element,
      concatenated. Both are taken as the parser gives them. */
  datatype Element = Element(
    tag: string,
    attrs: map<string, string>,
    str: Option<string>,
    text: string,
    children: seq<Element>)

  /** A search filter: a tag name and attributes that must be present with exactly these values. */
  datatype Query = Query(tag: string, attrs: map<string, string>)

  /** A filter on the tag name alone. */
  function Tag(tag: string): Query {
    Query(tag, map[])
  }

  predicate Matches(e: Element, q: Query) {
    && e.tag == q.tag
    && forall k :: k in q.attrs ==> k in e.attrs && e.attrs[k] == q.attrs[k]
  }

  /** An element found in the document, together with its ancestors from the root down to
      its parent. The ancestors are what `find_parent` climbs. */
  datatype Hit = Hit(node: Element, ancestors: seq<Element>)

  /** The document's top-level object, where every search starts; it has no ancestors.
      For a parsed page this object's tag is the parser's "[document]", never a real tag
      name, so a `find_parent` for a real tag never answers with it. */
  function Root(doc: Element): Hit {
    Hit(doc, [])
  }

  /** Each element of `path` is a child of the one before it. */
  ghost predicate Lineage(path: seq<Element>) {
    forall i :: 0 <= i < |path| - 1 ==> path[i + 1] in path[i].children
  }

  /** The forest `es` and everything below it in document order (depth first, parents before
      children, siblings left to right), each element paired with its ancestors; `above` is
      the ancestor chain the forest hangs from. */
  function Walk(es: seq<Element>, above: seq<Element>): seq<Hit>
    decreases es
  {
    if es == [] then []
    else [Hit(es[0], above)] + Walk(es[0].children, above + [es[0]]) + Walk(es[1..], above)
  }

  /** Every descendant of `h.node` (not `h.node` itself), in document order. */
  function Descendants(h: Hit): seq<Hit> {
    Walk(h.node.children, h.ancestors + [h.node])
  }

  /** The hits of `hs` whose element matches `q`, in their original order. */
  function Select(hs: seq<Hit>, q: Query): (r: seq<Hit>)
    ensures |r| <= |hs|
    ensures forall x :: x in r <==> x in hs && Matches(x.node, q)
  {
    if hs == [] then []
    else if Matches(hs[0].node, q) then [hs[0]] + Select(hs[1..], q)
    else Select(hs[1..], q)
  }

  /** `find_all`: every descendant of `h.node` that matches `q`, in document order. */
  function FindAll(h: Hit, q: Query): (r: seq<Hit>)
    ensures |r| <= |Descendants(h)|
    ensures forall x :: x in r <==> x in Descendants(h) && Matches(x.node, q)
  {
    Select(Descendants(h), q)
  }

  /** The depth-first search behind `find`: the first element of the forest `es` (or below
      it) that matches `q`, stopping as soon as one does. */
  function FirstIn(es: seq<Element>, above: seq<Element>, q: Query): Option<Hit>
    decreases es
  {
    if es == [] then None
    else if Matches(es[0], q) then Some(Hit(es[0], above))
    else match FirstIn(es[0].children, above + [es[0]], q)
      case Some(x) => Some(x)
      case None => FirstIn(es[1..], above, q)
  }

  /** `find`: the first descendant of `h.node` that matches `q`; it finds nothing exactly
      when `find_all` with the same filter finds nothing, and otherwise the first element
      `find_all` lists. */
  function Find(h: Hit, q: Query): (r: Option<Hit>)
    ensures r.None? <==> FindAll(h, q) == []
    ensures r.Some? ==> r.value == FindAll(h, q)[0]
  {
    FirstInIsFirstOfWalk(h.node.children, h.ancestors + [h.node], q);
    FirstIn(h.node.children, h.ancestors + [h.node], q)
  }

  /** The index of the last element of `chain` whose tag is `tag`: the nearest one to the
      end, which is the element the chain leads to. */
  function LastWithTag(chain: seq<Element>, tag: string): (r: Option<nat>)
    ensures r.Some? ==> r.value < |chain| && chain[r.value].tag == tag
    ensures r.Some? ==> forall j :: r.value < j < |chain| ==> chain[j].tag != tag
    ensures r.None? <==> forall j :: 0 <= j < |chain| ==> chain[j].tag != tag
  {
    if chain == [] then None
    else if chain[|chain| - 1].tag == tag then Some(|chain| - 1)
    else LastWithTag(chain[..|chain| - 1], tag)
  }

  /** `find_parent`: the nearest ancestor of `h.node` whose tag is `tag`. It answers with an
      ancestor carrying the tag, and with nothing exactly when no ancestor carries it. */
  function FindParent(h: Hit, tag: string): (r: Option<Element>)
    ensures r.Some? ==> r.value in h.ancestors && r.value.tag == tag
    ensures r.None? <==> forall a :: a in h.ancestors ==> a.tag != tag
  {
    match LastWithTag(h.ancestors, tag)
    case Some(i) => Some(h.ancestors[i])
    case None => None
  }

  lemma {:induction false} SelectAppend(a: seq<Hit>, b: seq<Hit>, q: Query)
    ensures Select(a + b, q) == Select(a, q) + Select(b, q)
  {
    if a == [] {
      assert a + b == b;
    } else {
      assert (a + b)[0] == a[0];
      assert (a + b)[1..] == a[1..] + b;
      SelectAppend(a[1..], b, q);
    }
  }

  /** The stopping search returns the first hit of the full document-order listing. */
  lemma {:induction false} FirstInIsFirstOfWalk(es: seq<Element>, above: seq<Element>, q: Query)
    ensures var all := Select(Walk(es, above), q);
            FirstIn(es, above, q) == if all == [] then None else Some(all[0])
    decreases es
  {
    if es != [] {
      var head := [Hit(es[0], above)];
      var inner := Walk(es[0].children, above + [es[0]]);
      var rest := Walk(es[1..], above);
      SelectAppend(head + inner, rest, q);
      SelectAppend(head, inner, q);
      FirstInIsFirstOfWalk(es[0].children, above + [es[0]], q);
      FirstInIsFirstOfWalk(es[1..], above, q);
    }
  }

  /** Every hit of a walk extends the chain the walk started from, and its ancestors really
      are its ancestors. */
  lemma {:induction false} WalkLineage(es: seq<Element>, above: seq<Element>)
    requires |above| > 0 && Lineage(above)
    requires forall e :: e in es ==> e in above[|above| - 1].children
    ensures forall x :: x in Walk(es, above) ==>
      above <= x.ancestors && Lineage(x.ancestors + [x.node])
    decreases es
  {
    if es != [] {
      var below := above + [es[0]];
      assert es[0] in es;
      assert forall e :: e in es[1..] ==> e in es;
      WalkLineage(es[0].children, below);
      WalkLineage(es[1..], above);
      forall x | x in Walk(es, above)
        ensures above <= x.ancestors && Lineage(x.ancestors + [x.node])
      {
        if x in Walk(es[0].children, below) {
          assert below <= x.ancestors;
        }
      }
    }
  }

  /** A search started from an element found in the document yields elements whose ancestor
      chains run through that element: `find_parent` on them climbs past the starting element,
      all the way to the root. */
  lemma FindAllLineage(h: Hit, q: Query)
    requires Lineage(h.ancestors + [h.node])
    ensures forall x :: x in FindAll(h, q) ==>
      h.ancestors + [h.node] <= x.ancestors && Lineage(x.ancestors + [x.node])
  {
    WalkLineage(h.node.children, h.ancestors + [h.node]);
  }

  /** The same for `find`. */
  lemma FindLineage(h: Hit, q: Query)
    requires Lineage(h.ancestors + [h.node])
    ensures Find(h, q).Some? ==>
      && h.ancestors + [h.node] <= Find(h, q).value.ancestors
      && Lineage(Find(h, q).value.ancestors + [Find(h, q).value.node])
  {
    FindAllLineage(h, q);
  }
}
