/**
 * The three functions that background.js injects into a store's tab:
 * `scrapeFirstPrice`, `scrapeCandidatesFromSearch` and `findFirstProductLink`.
 *
 * The page they run in is abstract: element handles, what
 * `querySelector`/`querySelectorAll` return for a selector, the
 * `parentElement` links, the `content`/`href` attributes and `textContent`
 * of each element, and URL resolution against `location.href`. CSS selector
 * matching itself is not modelled; it is whatever the page says.
 */
module PageModel {
  import opened Wrappers
  import opened Chars
  import opened PriceParser
  import opened CandidateMatcher

  /** An element handle. */
  type Node = nat

  /** What the scripts read from an element: its `content` and `href` attributes and its `textContent`. */
  datatype Element = Element(content: Option<string>, text: string, href: Option<string>)

  /** A rendered page, as far as the injected scripts can observe it. */
  datatype Page = Page(
    location: string,                              // `location.href`
    element: Node -> Element,
    select: (Option<Node>, string) -> Option<Node>, // `querySelector` on the document (None) or inside a node
    selectAll: string -> seq<Node>,                 // `document.querySelectorAll`, in document order
    parent: Node -> Option<Node>,                   // `parentElement`
    resolve: (string, string) -> Option<string>     // `new URL(href, base).toString()`; None when it throws
  )

  // ---------------------------------------------------------------------------
  // the first of several tries that yields something

  /** The first present value: the shape of every "try each selector in turn" loop below. */
  function FirstSome<T>(xs: seq<Option<T>>): (r: Option<T>)
    ensures r.None? <==> forall j :: 0 <= j < |xs| ==> xs[j].None?
  {
    if xs == [] then None
    else if xs[0].Some? then xs[0]
    else
      assert forall j :: 1 <= j < |xs| ==> xs[j] == xs[1..][j - 1];
      FirstSome(xs[1..])
  }

  /** The value found is that of the first try that yields one. */
  lemma {:induction false} FirstSomeAt<T>(xs: seq<Option<T>>, i: nat)
    requires i < |xs| && xs[i].Some?
    requires forall j :: 0 <= j < i ==> xs[j].None?
    ensures FirstSome(xs) == xs[i]
  {
    if i > 0 {
      FirstSomeAt(xs[1..], i - 1);
    }
  }

  /** When something is found, it comes from a try that yields it, and every earlier try yields nothing. */
  lemma {:induction false} FirstSomeSpec<T>(xs: seq<Option<T>>)
    ensures FirstSome(xs).Some? ==>
      exists i :: 0 <= i < |xs| && xs[i] == FirstSome(xs) && forall j :: 0 <= j < i ==> xs[j].None?
  {
    if xs != [] && xs[0].None? {
      FirstSomeSpec(xs[1..]);
      if FirstSome(xs).Some? {
        var i :| 0 <= i < |xs[1..]| && xs[1..][i] == FirstSome(xs[1..])
          && forall j :: 0 <= j < i ==> xs[1..][j].None?;
        assert xs[i + 1] == FirstSome(xs);
        assert forall j :: 1 <= j < i + 1 ==> xs[j] == xs[1..][j - 1];
      }
    }
  }

  // ---------------------------------------------------------------------------
  // prices and links of single elements

  /** The element's `content` attribute when it is non-empty, otherwise its text (line 223). */
  function RawText(e: Element): string {
    if e.content.Some? && e.content.value != [] then e.content.value else e.text
  }

  /** The price a selector yields in a scope: none when nothing matches or the matched text has no digit. */
  function PriceIn(page: Page, scope: Option<Node>, sel: string): (r: Option<string>)
    ensures r.Some? ==> IsCanonicalPrice(r.value)
  {
    match page.select(scope, sel)
    case None => None
    case Some(n) => ParsePrice(RawText(page.element(n)))
  }

  lemma PriceInSpec(page: Page, scope: Option<Node>, sel: string)
    ensures PriceIn(page, scope, sel).None? <==>
      page.select(scope, sel).None? || !HasDigit(RawText(page.element(page.select(scope, sel).value)))
  {
  }

  function PricesIn(page: Page, scope: Option<Node>, sels: seq<string>): (r: seq<Option<string>>)
    ensures |r| == |sels|
  {
    if sels == [] then [] else [PriceIn(page, scope, sels[0])] + PricesIn(page, scope, sels[1..])
  }

  lemma {:induction false} PricesInAt(page: Page, scope: Option<Node>, sels: seq<string>, i: nat)
    requires i < |sels|
    ensures PricesIn(page, scope, sels)[i] == PriceIn(page, scope, sels[i])
  {
    if i > 0 {
      PricesInAt(page, scope, sels[1..], i - 1);
    }
  }

  /** The price found by trying the selectors in order within a scope. */
  function FirstPrice(page: Page, scope: Option<Node>, sels: seq<string>): Option<string> {
    FirstSome(PricesIn(page, scope, sels))
  }

  /**
   * A price is found exactly when some selector matches an element whose text
   * has a digit; it is the canonical price of the first such selector.
   */
  lemma FirstPriceSpec(page: Page, scope: Option<Node>, sels: seq<string>)
    ensures FirstPrice(page, scope, sels).None? <==>
      forall i :: 0 <= i < |sels| ==> PriceIn(page, scope, sels[i]).None?
    ensures FirstPrice(page, scope, sels).Some? ==>
      IsCanonicalPrice(FirstPrice(page, scope, sels).value)
      && exists i :: 0 <= i < |sels| && PriceIn(page, scope, sels[i]) == FirstPrice(page, scope, sels)
           && forall j :: 0 <= j < i ==> PriceIn(page, scope, sels[j]).None?
  {
    var xs := PricesIn(page, scope, sels);
    forall i | 0 <= i < |sels|
      ensures xs[i] == PriceIn(page, scope, sels[i])
    {
      PricesInAt(page, scope, sels, i);
    }
    FirstSomeSpec(xs);
  }

  /** Trimming before parsing, as the scripts do, changes nothing; an all-blank text has no price. */
  lemma ParseTrimmed(text: string)
    ensures ParsePrice(Trim(text)) == ParsePrice(text)
    ensures Trim(text) == [] ==> ParsePrice(text).None?
  {
    TrimThenRemoveSpaces(text);
  }

  /** One round of the loop of `scrapeFirstPrice`: the element a selector matches, its trimmed text, its price. */
  method TrySelector(page: Page, scope: Option<Node>, sel: string) returns (price: Option<string>)
    ensures price == PriceIn(page, scope, sel)
  {
    var el := page.select(scope, sel);
    if el.None? {
      return None;
    }
    ParseTrimmed(RawText(page.element(el.value)));
    var raw := Trim(RawText(page.element(el.value)));
    if raw == [] {
      return None;
    }
    price := ParsePrice(raw);
  }

  /** The loop of `scrapeFirstPrice`, run on the document or inside one node. */
  method PriceBySelectors(page: Page, scope: Option<Node>, sels: seq<string>) returns (price: Option<string>)
    ensures price == FirstPrice(page, scope, sels)
  {
    ghost var tries := PricesIn(page, scope, sels);
    for i := 0 to |sels|
      invariant forall j :: 0 <= j < i ==> tries[j].None?
    {
      price := TrySelector(page, scope, sels[i]);
      PricesInAt(page, scope, sels, i);
      if price.Some? {
        FirstSomeAt(tries, i);
        return;
      }
    }
    price := None;
  }

  /** `scrapeFirstPrice(selectors)`: the first selector on the page that yields a price. */
  method ScrapeFirstPrice(page: Page, selectors: seq<string>) returns (price: Option<string>)
    ensures price == FirstPrice(page, None, selectors)
    ensures price.Some? ==> IsCanonicalPrice(price.value)
  {
    FirstPriceSpec(page, None, selectors);
    price := PriceBySelectors(page, None, selectors);
  }

  /**
   * `href ? new URL(href, location.href).toString() : null`, falling back to
   * the attribute as written when resolution throws.
   */
  function LinkOf(page: Page, href: Option<string>): (r: Option<string>)
    ensures r.None? <==> href.None? || href.value == []
    ensures r.Some? ==> r == page.resolve(href.value, page.location) || (page.resolve(href.value, page.location).None? && r == href)
  {
    if href.None? || href.value == [] then None
    else match page.resolve(href.value, page.location)
      case Some(u) => Some(u)
      case None => href
  }

  // ---------------------------------------------------------------------------
  // scrapeCandidatesFromSearch

  /** `node`, its parent, its grandparent, ...: at most `n` of them, fewer when the root is reached. */
  function Ancestors(page: Page, node: Option<Node>, n: nat): (r: seq<Node>)
    ensures |r| <= n
    ensures r == [] <==> n == 0 || node.None?
    ensures r != [] ==> node == Some(r[0])
    ensures forall k :: 0 <= k < |r| - 1 ==> page.parent(r[k]) == Some(r[k + 1])
    ensures 0 < |r| < n ==> page.parent(r[|r| - 1]).None?
    decreases n
  {
    if n == 0 || node.None? then []
    else
      var rest := Ancestors(page, page.parent(node.value), n - 1);
      assert forall k :: 1 <= k < |rest| + 1 ==> ([node.value] + rest)[k] == rest[k - 1];
      [node.value] + rest
  }

  /** The price each of `nodes` yields when searched with every price selector. */
  function PricesUp(page: Page, nodes: seq<Node>, pss: seq<string>): (r: seq<Option<string>>)
    ensures |r| == |nodes|
  {
    if nodes == [] then [] else [FirstPrice(page, Some(nodes[0]), pss)] + PricesUp(page, nodes[1..], pss)
  }

  lemma {:induction false} PricesUpAt(page: Page, nodes: seq<Node>, pss: seq<string>, k: nat)
    requires k < |nodes|
    ensures PricesUp(page, nodes, pss)[k] == FirstPrice(page, Some(nodes[k]), pss)
  {
    if k > 0 {
      PricesUpAt(page, nodes[1..], pss, k - 1);
    }
  }

  /** The node itself and at most five of its ancestors are searched for a price. */
  const ClimbLimit: nat := 6

  /**
   * The climb from `node`, the `i`-th node on the way up: the price found
   * inside the node, or else the climb from its parent; it stops at the root
   * and after the sixth node.
   */
  function Climb(page: Page, node: Option<Node>, i: nat, pss: seq<string>): Option<string>
    decreases ClimbLimit - i
  {
    if i >= ClimbLimit || node.None? then None
    else match FirstPrice(page, node, pss)
      case Some(p) => Some(p)
      case None => Climb(page, page.parent(node.value), i + 1, pss)
  }

  /** The price `scrapeCandidatesFromSearch` attaches to the title link `a`. */
  function NearbyPrice(page: Page, a: Node, pss: seq<string>): Option<string> {
    Climb(page, Some(a), 0, pss)
  }

  /** The climb yields the price of the first node on the way up, at most `ClimbLimit - i` of them, that has one. */
  lemma {:induction false} ClimbFirstAncestor(page: Page, node: Option<Node>, i: nat, pss: seq<string>)
    requires i <= ClimbLimit
    ensures Climb(page, node, i, pss) == FirstSome(PricesUp(page, Ancestors(page, node, ClimbLimit - i), pss))
    decreases ClimbLimit - i
  {
    if i < ClimbLimit && node.Some? {
      var up := Ancestors(page, node, ClimbLimit - i);
      var rest := Ancestors(page, page.parent(node.value), ClimbLimit - (i + 1));
      assert up == [node.value] + rest;
      assert up[1..] == rest;
      ClimbFirstAncestor(page, page.parent(node.value), i + 1, pss);
    }
  }

  /**
   * The climb finds nothing exactly when no node on its way up (the node and
   * its ancestors, six nodes at most) has a price inside it; what it finds is
   * canonical. (`NearbyPrice` is the climb from the title link, `i` = 0.)
   */
  lemma ClimbSpec(page: Page, node: Option<Node>, i: nat, pss: seq<string>)
    requires i <= ClimbLimit
    ensures Climb(page, node, i, pss).Some? ==> IsCanonicalPrice(Climb(page, node, i, pss).value)
    ensures var up := Ancestors(page, node, ClimbLimit - i);
      Climb(page, node, i, pss).None? <==> forall k :: 0 <= k < |up| ==> FirstPrice(page, Some(up[k]), pss).None?
  {
    var up := Ancestors(page, node, ClimbLimit - i);
    var xs := PricesUp(page, up, pss);
    ClimbFirstAncestor(page, node, i, pss);
    forall k | 0 <= k < |up|
      ensures xs[k] == FirstPrice(page, Some(up[k]), pss)
    {
      PricesUpAt(page, up, pss, k);
    }
    FirstSomeSpec(xs);
    if Climb(page, node, i, pss).Some? {
      var k :| 0 <= k < |xs| && xs[k] == FirstSome(xs) && forall j :: 0 <= j < k ==> xs[j].None?;
      FirstPriceSpec(page, Some(up[k]), pss);
    }
  }

  /** The climb of `scrapeCandidatesFromSearch`: up to six nodes, each searched with every price selector. */
  method ClimbForPrice(page: Page, a: Node, pss: seq<string>) returns (price: Option<string>)
    ensures price == NearbyPrice(page, a, pss)
  {
    var node: Option<Node> := Some(a);
    var i := 0;
    while i < ClimbLimit && node.Some?
      invariant i <= ClimbLimit
      invariant Climb(page, node, i, pss) == NearbyPrice(page, a, pss)
      decreases ClimbLimit - i
    {
      price := PriceBySelectors(page, node, pss);
      if price.Some? {
        return;
      }
      node := page.parent(node.value);
      i := i + 1;
    }
    price := None;
  }

  /** The candidate a title link yields, if its trimmed text is not empty. */
  function CandidateAt(page: Page, a: Node, pss: seq<string>): Option<Candidate> {
    var e := page.element(a);
    var title := Trim(e.text);
    if title == [] then None
    else Some(Candidate(title, LinkOf(page, e.href), NearbyPrice(page, a, pss)))
  }

  /** The candidates of the title links `nodes`, in order. */
  function CandidatesOf(page: Page, nodes: seq<Node>, pss: seq<string>): (r: seq<Candidate>)
    ensures |r| <= |nodes|
  {
    if nodes == [] then []
    else
      var last := nodes[|nodes| - 1];
      CandidatesOf(page, nodes[..|nodes| - 1], pss)
      + (match CandidateAt(page, last, pss) case Some(c) => [c] case None => [])
  }

  /** Every title selector in turn, every element it matches in document order. */
  function SearchCandidates(page: Page, tsels: seq<string>, pss: seq<string>): seq<Candidate> {
    if tsels == [] then []
    else
      SearchCandidates(page, tsels[..|tsels| - 1], pss)
      + CandidatesOf(page, page.selectAll(tsels[|tsels| - 1]), pss)
  }

  /** What every candidate carries: a trimmed non-empty title and, if any, a canonical price. */
  predicate WellFormedCandidate(c: Candidate) {
    && c.title != [] && !IsSpace(c.title[0]) && !IsSpace(c.title[|c.title| - 1])
    && (c.price.Some? ==> IsCanonicalPrice(c.price.value))
  }

  lemma CandidateAtWellFormed(page: Page, a: Node, pss: seq<string>)
    ensures CandidateAt(page, a, pss).Some? ==> WellFormedCandidate(CandidateAt(page, a, pss).value)
    ensures CandidateAt(page, a, pss).None? <==> Trim(page.element(a).text) == []
  {
    ClimbSpec(page, Some(a), 0, pss);
  }

  lemma {:induction false} CandidatesOfWellFormed(page: Page, nodes: seq<Node>, pss: seq<string>)
    ensures forall k :: 0 <= k < |CandidatesOf(page, nodes, pss)| ==> WellFormedCandidate(CandidatesOf(page, nodes, pss)[k])
  {
    if nodes != [] {
      CandidatesOfWellFormed(page, nodes[..|nodes| - 1], pss);
      CandidateAtWellFormed(page, nodes[|nodes| - 1], pss);
    }
  }

  /** Every candidate of the results page is well formed. */
  lemma {:induction false} SearchCandidatesWellFormed(page: Page, tsels: seq<string>, pss: seq<string>)
    ensures forall k :: 0 <= k < |SearchCandidates(page, tsels, pss)| ==> WellFormedCandidate(SearchCandidates(page, tsels, pss)[k])
  {
    if tsels != [] {
      SearchCandidatesWellFormed(page, tsels[..|tsels| - 1], pss);
      CandidatesOfWellFormed(page, page.selectAll(tsels[|tsels| - 1]), pss);
    }
  }

  /** A title selector that matches nothing contributes nothing. */
  lemma EmptySelectorAddsNothing(page: Page, tsels: seq<string>, sel: string, pss: seq<string>)
    requires page.selectAll(sel) == []
    ensures SearchCandidates(page, tsels + [sel], pss) == SearchCandidates(page, tsels, pss)
  {
    assert (tsels + [sel])[..|tsels|] == tsels;
  }

  lemma CandidatesOfStep(page: Page, nodes: seq<Node>, k: nat, pss: seq<string>)
    requires k < |nodes|
    ensures CandidatesOf(page, nodes[..k + 1], pss) ==
      CandidatesOf(page, nodes[..k], pss) + (match CandidateAt(page, nodes[k], pss) case Some(c) => [c] case None => [])
  {
    assert nodes[..k + 1][..k] == nodes[..k];
  }

  /** The inner `for (const a of document.querySelectorAll(sel))` loop. */
  method CollectCandidates(page: Page, nodes: seq<Node>, pss: seq<string>) returns (out: seq<Candidate>)
    ensures out == CandidatesOf(page, nodes, pss)
  {
    out := [];
    for k := 0 to |nodes|
      invariant out == CandidatesOf(page, nodes[..k], pss)
    {
      CandidatesOfStep(page, nodes, k, pss);
      var a := nodes[k];
      var e := page.element(a);
      var title := Trim(e.text);
      if title == [] {
        continue;
      }
      var price := ClimbForPrice(page, a, pss);
      var href := LinkOf(page, e.href);
      out := out + [Candidate(title, href, price)];
    }
    assert nodes[..|nodes|] == nodes;
  }

  /** Collects a candidate for every title element of every title selector, in order (lines 234-273). */
  method ScrapeCandidatesFromSearch(page: Page, tsels: seq<string>, pss: seq<string>) returns (out: seq<Candidate>)
    ensures out == SearchCandidates(page, tsels, pss)
    ensures forall k :: 0 <= k < |out| ==> WellFormedCandidate(out[k])
  {
    out := [];
    for s := 0 to |tsels|
      invariant out == SearchCandidates(page, tsels[..s], pss)
    {
      assert tsels[..s + 1][..s] == tsels[..s];
      var found := CollectCandidates(page, page.selectAll(tsels[s]), pss);
      out := out + found;
    }
    assert tsels[..|tsels|] == tsels;
    SearchCandidatesWellFormed(page, tsels, pss);
  }

  // ---------------------------------------------------------------------------
  // findFirstProductLink

  /** The link a selector yields: the `href` of its first match on the document, resolved. */
  function LinkIn(page: Page, sel: string): Option<string> {
    match page.select(None, sel)
    case None => None
    case Some(n) => LinkOf(page, page.element(n).href)
  }

  function LinksIn(page: Page, sels: seq<string>): (r: seq<Option<string>>)
    ensures |r| == |sels|
    ensures forall i :: 0 <= i < |sels| ==> r[i] == LinkIn(page, sels[i])
  {
    seq(|sels|, i requires 0 <= i < |sels| => LinkIn(page, sels[i]))
  }

  /**
   * No link is found exactly when no selector's first match has a non-empty
   * `href`; otherwise the link is that of the first selector whose match has one.
   */
  lemma FirstLinkSpec(page: Page, sels: seq<string>)
    ensures FirstSome(LinksIn(page, sels)).None? <==>
      forall i :: 0 <= i < |sels| ==>
        (page.select(None, sels[i]).None? || page.element(page.select(None, sels[i]).value).href in {None, Some([])})
    ensures FirstSome(LinksIn(page, sels)).Some? ==>
      exists i :: 0 <= i < |sels| && LinkIn(page, sels[i]) == FirstSome(LinksIn(page, sels))
           && forall j :: 0 <= j < i ==> LinkIn(page, sels[j]).None?
  {
    FirstSomeSpec(LinksIn(page, sels));
  }

  /** The resolved link of the first link selector whose first element has a non-empty `href`. */
  method FindFirstProductLink(page: Page, sels: seq<string>) returns (link: Option<string>)
    ensures link == FirstSome(LinksIn(page, sels))
  {
    ghost var tries := LinksIn(page, sels);
    for i := 0 to |sels|
      invariant forall j :: 0 <= j < i ==> tries[j].None?
    {
      var a := page.select(None, sels[i]);
      var href := if a.Some? then page.element(a.value).href else None;
      if href.Some? && href.value != [] {
        link := page.resolve(href.value, page.location);
        if link.None? {
          link := href;
        }
        FirstSomeAt(tries, i);
        return;
      }
    }
    link := None;
  }
}
