/**
 * The `comparePrices` message handler of background.js: the catalogue of
 * stores, the list of stores to search (every store but the one the shopper
 * is on), one `openAndScrape` per store, and the site -> result map sent back.
 *
 * `encodeURIComponent` is the parameter `encode`. Each store's tab is its own
 * browser oracle, `svcs(site)`. The stores are searched one after another;
 * the source runs them concurrently, but they share no state.
 */
module Orchestrator {
  import opened Wrappers
  import opened Chars
  import opened PriceParser
  import opened StrategyChain

  /** A store of the catalogue: its name, the host it lives on, its search page and its selectors. */
  datatype Store = Store(
    site: string,
    domain: string,
    searchUrl: string,
    selectors: seq<string>,
    linkSelectors: seq<string>,
    titleSelectors: seq<string>)

  const Kroger: Store := Store(
    "kroger", "kroger.com", "https://www.kroger.com/search?query=",
    [".kds-Price-promotional", ".kds-Price",
     "[data-qa=\"ProductPrices\"] .kds-Price", "[data-qa=\"search-results\"] .kds-Price"],
    ["a[data-qa=\"product-name\"]", "[data-qa=\"product-card\"] a", "a.kds-Link"],
    ["a[data-qa=\"product-name\"]", "[data-qa=\"product-card\"] a", ".kds-Text--l a"])

  const Walmart: Store := Store(
    "walmart", "walmart.com", "https://www.walmart.com/search?q=",
    ["span[itemprop=\"price\"]", ".price-characteristic", ".price-group",
     "[data-automation-id=\"product-price\"] span", "[data-automation-id=\"price\"]", ".mr1.mr2-xl.lh-copy"],
    ["a[data-automation-id=\"product-title\"]", "a[href*=\"/ip/\"]", "a[href*=\"/ip\"]"],
    ["a[data-automation-id=\"product-title\"]", "a[href*=\"/ip/\"]", "a[href*=\"/ip\"]"])

  const TargetStore: Store := Store(
    "target", "target.com", "https://www.target.com/s?searchTerm=",
    ["[data-test=\"product-price\"]", "[data-test=\"current-price\"]", ".h-display-xs", "[data-test=\"listing-price\"]"],
    ["a[data-test=\"product-title\"]", "a[href*=\"/p/\"]"],
    ["a[data-test=\"product-title\"]", "a[href*=\"/p/\"]"])

  /** The stores in the order the handler considers them. */
  const Catalogue: seq<Store> := [Kroger, Walmart, TargetStore]

  /** The `openAndScrape` arguments for a store: its search page for the query, and its selectors. */
  function TargetOf(s: Store, query: string, encode: string -> string): (t: Target)
    ensures t.site == s.site && t.url == s.searchUrl + encode(query)
  {
    Target(s.site, s.searchUrl + encode(query), s.selectors, s.linkSelectors, s.titleSelectors)
  }

  // ---------------------------------------------------------------------------
  // which stores are searched

  /** The stores of `stores` whose domain `host` does not contain, in order, as targets. */
  function Dispatch(stores: seq<Store>, host: string, query: string, encode: string -> string): seq<Target>
    decreases |stores|
  {
    if stores == [] then []
    else
      (if Contains(host, stores[0].domain) then [] else [TargetOf(stores[0], query, encode)])
      + Dispatch(stores[1..], host, query, encode)
  }

  /** Every store of `stores` as a target. */
  function AllTargets(stores: seq<Store>, query: string, encode: string -> string): seq<Target>
    decreases |stores|
  {
    if stores == [] then [] else [TargetOf(stores[0], query, encode)] + AllTargets(stores[1..], query, encode)
  }

  /** `a` is `b` with some elements left out, the rest in their order. */
  predicate Subsequence<T(==)>(a: seq<T>, b: seq<T>)
    decreases |b|
  {
    if a == [] then true
    else if b == [] then false
    else (a[0] == b[0] && Subsequence(a[1..], b[1..])) || Subsequence(a, b[1..])
  }

  predicate DistinctSites(ts: seq<Target>) {
    forall i, j :: 0 <= i < j < |ts| ==> ts[i].site != ts[j].site
  }

  predicate DistinctStores(stores: seq<Store>) {
    forall i, j :: 0 <= i < j < |stores| ==> stores[i].site != stores[j].site
  }

  /** The targets built for the query when the shopper is on `host`. */
  function Targets(query: string, host: string, encode: string -> string): seq<Target> {
    Dispatch(Catalogue, host, query, encode)
  }

  /** Every dispatched target is that of a store whose domain the host does not contain. */
  lemma {:induction false} DispatchSound(stores: seq<Store>, host: string, query: string, encode: string -> string,
                                         t: Target)
    requires t in Dispatch(stores, host, query, encode)
    ensures exists i :: 0 <= i < |stores| && !Contains(host, stores[i].domain) && t == TargetOf(stores[i], query, encode)
    decreases |stores|
  {
    assert stores != [];
    var rest := Dispatch(stores[1..], host, query, encode);
    if !Contains(host, stores[0].domain) && t == TargetOf(stores[0], query, encode) {
      assert stores[0] == stores[0];
    } else {
      assert t in rest;
      DispatchSound(stores[1..], host, query, encode, t);
      var i :| 0 <= i < |stores[1..]| && !Contains(host, stores[1..][i].domain)
        && t == TargetOf(stores[1..][i], query, encode);
      assert stores[1..][i] == stores[i + 1];
    }
  }

  /** The target of every store whose domain the host does not contain is dispatched. */
  lemma {:induction false} DispatchComplete(stores: seq<Store>, host: string, query: string, encode: string -> string,
                                            i: nat)
    requires i < |stores| && !Contains(host, stores[i].domain)
    ensures TargetOf(stores[i], query, encode) in Dispatch(stores, host, query, encode)
    decreases |stores|
  {
    if i > 0 {
      DispatchComplete(stores[1..], host, query, encode, i - 1);
      assert stores[1..][i - 1] == stores[i];
    }
  }

  /** The dispatched targets keep the order of the stores, and are at most as many. */
  lemma {:induction false} DispatchInOrder(stores: seq<Store>, host: string, query: string, encode: string -> string)
    ensures Subsequence(Dispatch(stores, host, query, encode), AllTargets(stores, query, encode))
    ensures |Dispatch(stores, host, query, encode)| <= |stores|
    decreases |stores|
  {
    if stores != [] {
      var r := Dispatch(stores, host, query, encode);
      var all := AllTargets(stores, query, encode);
      var rest := Dispatch(stores[1..], host, query, encode);
      DispatchInOrder(stores[1..], host, query, encode);
      assert all[1..] == AllTargets(stores[1..], query, encode);
      if Contains(host, stores[0].domain) {
        assert r == rest;
      } else {
        assert r == [TargetOf(stores[0], query, encode)] + rest;
        assert r[1..] == rest;
      }
    }
  }

  /** Stores with distinct names give targets with distinct names. */
  lemma {:induction false} DispatchDistinct(stores: seq<Store>, host: string, query: string, encode: string -> string)
    requires DistinctStores(stores)
    ensures DistinctSites(Dispatch(stores, host, query, encode))
    decreases |stores|
  {
    if stores != [] {
      var r := Dispatch(stores, host, query, encode);
      var rest := Dispatch(stores[1..], host, query, encode);
      assert DistinctStores(stores[1..]) by {
        forall i, j | 0 <= i < j < |stores[1..]|
          ensures stores[1..][i].site != stores[1..][j].site
        {
          assert stores[1..][i] == stores[i + 1] && stores[1..][j] == stores[j + 1];
        }
      }
      DispatchDistinct(stores[1..], host, query, encode);
      if !Contains(host, stores[0].domain) {
        assert r == [TargetOf(stores[0], query, encode)] + rest;
        forall j | 0 < j < |r|
          ensures r[0].site != r[j].site
        {
          assert r[j] == rest[j - 1];
          DispatchSound(stores[1..], host, query, encode, r[j]);
          var i :| 0 <= i < |stores[1..]| && !Contains(host, stores[1..][i].domain)
            && r[j] == TargetOf(stores[1..][i], query, encode);
          assert stores[1..][i] == stores[i + 1];
        }
        forall i, j | 0 < i < j < |r|
          ensures r[i].site != r[j].site
        {
          assert r[i] == rest[i - 1] && r[j] == rest[j - 1];
        }
      } else {
        assert r == rest;
      }
    }
  }

  lemma CatalogueDistinct()
    ensures DistinctStores(Catalogue)
  {
    assert Catalogue[0].site == "kroger" && Catalogue[1].site == "walmart" && Catalogue[2].site == "target";
  }

  /**
   * The stores searched, for `currentHost` `host`: those of kroger, walmart
   * and target whose domain the host does not contain, in that order, each
   * once; so at most three.
   */
  lemma TargetsChosen(query: string, host: string, encode: string -> string)
    ensures var r := Targets(query, host, encode);
      && |r| <= 3
      && Subsequence(r, AllTargets(Catalogue, query, encode))
      && DistinctSites(r)
      && forall i :: 0 <= i < 3 ==> (TargetOf(Catalogue[i], query, encode) in r <==> !Contains(host, Catalogue[i].domain))
  {
    DispatchInOrder(Catalogue, host, query, encode);
    CatalogueDistinct();
    DispatchDistinct(Catalogue, host, query, encode);
    var r := Targets(query, host, encode);
    forall i | 0 <= i < 3
      ensures TargetOf(Catalogue[i], query, encode) in r <==> !Contains(host, Catalogue[i].domain)
    {
      if TargetOf(Catalogue[i], query, encode) in r {
        DispatchSound(Catalogue, host, query, encode, TargetOf(Catalogue[i], query, encode));
        var j :| 0 <= j < |Catalogue| && !Contains(host, Catalogue[j].domain)
          && TargetOf(Catalogue[i], query, encode) == TargetOf(Catalogue[j], query, encode);
        assert Catalogue[i].site == Catalogue[j].site;
      } else if !Contains(host, Catalogue[i].domain) {
        DispatchComplete(Catalogue, host, query, encode, i);
      }
    }
  }

  /** The three pushes of the handler, one per store, each under its `includes` test. */
  lemma TargetsUnfold(query: string, host: string, encode: string -> string)
    ensures Targets(query, host, encode)
      == (if Contains(host, Kroger.domain) then [] else [TargetOf(Kroger, query, encode)])
       + (if Contains(host, Walmart.domain) then [] else [TargetOf(Walmart, query, encode)])
       + (if Contains(host, TargetStore.domain) then [] else [TargetOf(TargetStore, query, encode)])
  {
    var c := Catalogue;
    assert c[0] == Kroger && c[1..][0] == Walmart && c[1..][1..][0] == TargetStore;
    assert c[1..][1..][1..] == [];
    var t := Dispatch(c[1..][1..], host, query, encode);
    var w := Dispatch(c[1..], host, query, encode);
    assert Dispatch(c[1..][1..][1..], host, query, encode) == [];
    assert t == (if Contains(host, TargetStore.domain) then [] else [TargetOf(TargetStore, query, encode)]) + [];
    assert w == (if Contains(host, Walmart.domain) then [] else [TargetOf(Walmart, query, encode)]) + t;
  }

  /** A host that lacks a character of the domain does not contain it. */
  lemma MissingChar(host: string, domain: string, c: char)
    requires c in domain && c !in host
    ensures !Contains(host, domain)
  {
  }

  /** "www.walmart.com" contains walmart.com ... */
  lemma WalmartHostIsWalmart()
    ensures Contains("www.walmart.com", Walmart.domain)
  {
    assert OccursAt("www.walmart.com", Walmart.domain, 4);
  }

  /** ... but neither kroger.com, which has a 'k' ... */
  lemma WalmartHostIsNotKroger()
    ensures !Contains("www.walmart.com", Kroger.domain)
  {
    assert Kroger.domain[0] == 'k';
    MissingChar("www.walmart.com", Kroger.domain, 'k');
  }

  /** ... nor target.com, which has a 'g'. */
  lemma WalmartHostIsNotTarget()
    ensures !Contains("www.walmart.com", TargetStore.domain)
  {
    assert TargetStore.domain[3] == 'g';
    MissingChar("www.walmart.com", TargetStore.domain, 'g');
  }

  /** A shopper on walmart.com gets kroger and target compared, in that order. */
  lemma OnWalmart(query: string, encode: string -> string)
    ensures Targets(query, "www.walmart.com", encode)
      == [TargetOf(Kroger, query, encode), TargetOf(TargetStore, query, encode)]
  {
    TargetsUnfold(query, "www.walmart.com", encode);
    WalmartHostIsWalmart();
    WalmartHostIsNotKroger();
    WalmartHostIsNotTarget();
  }

  /** With no current host every store is searched. */
  lemma NoHostSearchesAll(query: string, encode: string -> string)
    ensures Targets(query, "", encode) == AllTargets(Catalogue, query, encode)
  {
    TargetsUnfold(query, "", encode);
    assert !Contains("", Kroger.domain) && !Contains("", Walmart.domain) && !Contains("", TargetStore.domain);
    var c := Catalogue;
    assert c[0] == Kroger && c[1..][0] == Walmart && c[1..][1..][0] == TargetStore;
    assert c[1..][1..][1..] == [];
    assert AllTargets(c[1..][1..], query, encode) == [TargetOf(TargetStore, query, encode)] + [];
  }

  /** The handler's target list, built by pushes. */
  method BuildTargets(query: string, host: string, encode: string -> string) returns (targets: seq<Target>)
    ensures targets == Targets(query, host, encode)
  {
    targets := [];
    if !Contains(host, Kroger.domain) {
      targets := targets + [TargetOf(Kroger, query, encode)];
    }
    if !Contains(host, Walmart.domain) {
      targets := targets + [TargetOf(Walmart, query, encode)];
    }
    if !Contains(host, TargetStore.domain) {
      targets := targets + [TargetOf(TargetStore, query, encode)];
    }
    TargetsUnfold(query, host, encode);
  }

  // ---------------------------------------------------------------------------
  // the results

  /** What a store's entry says: the resolved value, or "Error" when `openAndScrape` threw. */
  function ResultText(o: Outcome): (r: string)
    ensures r == "Error" <==> o == Threw || o == Returned("Error")
  {
    match o
    case Returned(value) => value
    case Threw => "Error"
  }

  /** How each target's `openAndScrape` ends, its tab driven by `svcs(site)`. */
  function Outcomes(svcs: string -> Service, query: string): Target -> Outcome {
    (t: Target) => Scrape(svcs(t.site), t, query).0
  }

  /** `resultsArray`: one `[site, result]` pair per target, in the order of the targets. */
  function Entries(outcomeOf: Target -> Outcome, ts: seq<Target>): (r: seq<(string, string)>)
    ensures |r| == |ts|
    decreases |ts|
  {
    if ts == [] then []
    else Entries(outcomeOf, ts[..|ts| - 1]) + [(ts[|ts| - 1].site, ResultText(outcomeOf(ts[|ts| - 1])))]
  }

  lemma {:induction false} EntriesAt(outcomeOf: Target -> Outcome, ts: seq<Target>, i: nat)
    requires i < |ts|
    ensures Entries(outcomeOf, ts)[i] == (ts[i].site, ResultText(outcomeOf(ts[i])))
    decreases |ts|
  {
    if i < |ts| - 1 {
      EntriesAt(outcomeOf, ts[..|ts| - 1], i);
    }
  }

  /** `Object.fromEntries`: the pairs in order, a later pair overwriting an earlier one with the same key. */
  function FromEntries(es: seq<(string, string)>): map<string, string>
    decreases |es|
  {
    if es == [] then map[] else FromEntries(es[..|es| - 1])[es[|es| - 1].0 := es[|es| - 1].1]
  }

  /** The keys of the object are the keys of the pairs. */
  lemma {:induction false} FromEntriesKeys(es: seq<(string, string)>)
    ensures forall k :: k in FromEntries(es) <==> exists i :: 0 <= i < |es| && es[i].0 == k
    decreases |es|
  {
    if es != [] {
      var init := es[..|es| - 1];
      FromEntriesKeys(init);
      forall k
        ensures k in FromEntries(es) <==> exists i :: 0 <= i < |es| && es[i].0 == k
      {
        if k in FromEntries(init) {
          var i :| 0 <= i < |init| && init[i].0 == k;
          assert es[i] == init[i];
        }
        if exists i :: 0 <= i < |es| && es[i].0 == k {
          var i :| 0 <= i < |es| && es[i].0 == k;
          if i < |es| - 1 {
            assert init[i] == es[i];
          }
        }
      }
    }
  }

  /** With keys that differ, every pair can be read back from the object. */
  lemma {:induction false} FromEntriesValue(es: seq<(string, string)>, i: nat)
    requires i < |es|
    requires forall a, b :: 0 <= a < b < |es| ==> es[a].0 != es[b].0
    ensures es[i].0 in FromEntries(es) && FromEntries(es)[es[i].0] == es[i].1
    decreases |es|
  {
    if i < |es| - 1 {
      var init := es[..|es| - 1];
      assert init[i] == es[i];
      FromEntriesValue(init, i);
      assert es[i].0 != es[|es| - 1].0;
    }
  }

  /**
   * For targets with distinct names, the object has exactly their names as
   * keys, and under each name the text of that target's own outcome.
   */
  lemma ObjectOfEntries(outcomeOf: Target -> Outcome, ts: seq<Target>)
    requires DistinctSites(ts)
    ensures var results := FromEntries(Entries(outcomeOf, ts));
      && (forall site :: site in results <==> exists i :: 0 <= i < |ts| && ts[i].site == site)
      && forall i :: 0 <= i < |ts| ==> ts[i].site in results && results[ts[i].site] == ResultText(outcomeOf(ts[i]))
  {
    var es := Entries(outcomeOf, ts);
    FromEntriesKeys(es);
    forall i | 0 <= i < |es|
      ensures es[i] == (ts[i].site, ResultText(outcomeOf(ts[i])))
    {
      EntriesAt(outcomeOf, ts, i);
    }
    forall i | 0 <= i < |ts|
      ensures ts[i].site in FromEntries(es) && FromEntries(es)[ts[i].site] == ResultText(outcomeOf(ts[i]))
    {
      FromEntriesValue(es, i);
    }
  }

  /** `sendResponse({ results })`: the results object for the query, searched from `host`. */
  function Results(svcs: string -> Service, query: string, host: string, encode: string -> string): map<string, string> {
    FromEntries(Entries(Outcomes(svcs, query), Targets(query, host, encode)))
  }

  /** The `Promise.all` over the targets, one `openAndScrape` after another. */
  method CollectResults(svcs: string -> Service, targets: seq<Target>, query: string)
    returns (entries: seq<(string, string)>)
    ensures entries == Entries(Outcomes(svcs, query), targets)
  {
    entries := [];
    var i := 0;
    while i < |targets|
      invariant i <= |targets|
      invariant entries == Entries(Outcomes(svcs, query), targets[..i])
    {
      var t := targets[i];
      var outcome, _ := OpenAndScrape(svcs(t.site), t, query);
      var text := if outcome.Threw? then "Error" else outcome.value;
      assert targets[..i + 1][..i] == targets[..i];
      assert Outcomes(svcs, query)(t) == outcome;
      entries := entries + [(t.site, text)];
      i := i + 1;
    }
    assert targets[..i] == targets;
  }

  /** The body of the `comparePrices` handler: build the targets, scrape them, assemble the object. */
  method ComparePrices(svcs: string -> Service, query: string, host: string, encode: string -> string)
    returns (results: map<string, string>)
    ensures results == Results(svcs, query, host, encode)
  {
    var targets := BuildTargets(query, host, encode);
    var entries := CollectResults(svcs, targets, query);
    results := FromEntries(entries);
  }

  /** "Error" is neither a price nor "Price not found", so an "Error" entry always means a throw. */
  lemma ErrorIsNoPrice()
    ensures !IsCanonicalPrice("Error") && NotFound != "Error"
  {
  }

  /** What one store's entry is: its own outcome's text, "Error" exactly when it threw. */
  lemma StoreEntry(svcs: string -> Service, query: string, t: Target)
    ensures var text := ResultText(Outcomes(svcs, query)(t));
      && (text == "Error" <==> Scrape(svcs(t.site), t, query).0 == Threw)
      && (text == "Error" || text == NotFound || IsCanonicalPrice(text))
  {
    ResultIsPriceOrNotFound(svcs(t.site), t, query);
    ErrorIsNoPrice();
  }

  /**
   * The result object has one key per store searched, and the value under a
   * store's name is what its own `openAndScrape` resolved to, or "Error" when
   * it threw; so every value is a canonical price, "Price not found" or "Error".
   */
  lemma ResultsPerStore(svcs: string -> Service, query: string, host: string, encode: string -> string)
    ensures var results := Results(svcs, query, host, encode);
      var targets := Targets(query, host, encode);
      && (forall site :: site in results <==> exists i :: 0 <= i < |targets| && targets[i].site == site)
      && forall i :: 0 <= i < |targets| ==>
           var text := results[targets[i].site];
           && text == ResultText(Outcomes(svcs, query)(targets[i]))
           && (text == "Error" <==> Scrape(svcs(targets[i].site), targets[i], query).0 == Threw)
           && (text == "Error" || text == NotFound || IsCanonicalPrice(text))
  {
    var targets := Targets(query, host, encode);
    TargetsChosen(query, host, encode);
    ObjectOfEntries(Outcomes(svcs, query), targets);
    forall i | 0 <= i < |targets|
      ensures var text := ResultText(Outcomes(svcs, query)(targets[i]));
        && (text == "Error" <==> Scrape(svcs(targets[i].site), targets[i], query).0 == Threw)
        && (text == "Error" || text == NotFound || IsCanonicalPrice(text))
    {
      StoreEntry(svcs, query, targets[i]);
    }
  }

  /** A store's entry depends on its own tab alone: another store failing does not change it. */
  lemma FailureStaysWithItsStore(svcs: string -> Service, other: string -> Service, query: string, host: string,
                                 encode: string -> string, site: string)
    requires svcs(site) == other(site)
    requires site in Results(svcs, query, host, encode)
    ensures site in Results(other, query, host, encode)
    ensures Results(svcs, query, host, encode)[site] == Results(other, query, host, encode)[site]
  {
    var targets := Targets(query, host, encode);
    TargetsChosen(query, host, encode);
    ObjectOfEntries(Outcomes(svcs, query), targets);
    ObjectOfEntries(Outcomes(other, query), targets);
    var i :| 0 <= i < |targets| && targets[i].site == site;
    assert Outcomes(svcs, query)(targets[i]) == Outcomes(other, query)(targets[i]);
  }

  // ---------------------------------------------------------------------------
  // the message listener

  /** The fields of a runtime message the listener reads. */
  datatype Message = Message(action: string, query: Option<string>, currentHost: Option<string>)

  /** The listener answers a compare-prices request that carries a non-empty query (line 4). */
  predicate Handles(msg: Message) {
    msg.action == "comparePrices" && Truthy(msg.query)
  }

  /** The current host, or the empty string when the message carries none (line 7). */
  function HostOf(msg: Message): (host: string)
    ensures host == if msg.currentHost.Some? then msg.currentHost.value else ""
  {
    if Truthy(msg.currentHost) then msg.currentHost.value else ""
  }

  /**
   * The listener: for a `comparePrices` message with a query it keeps the
   * channel open (`return true`) and answers with the results object;
   * any other message it leaves alone.
   */
  method HandleMessage(svcs: string -> Service, msg: Message, encode: string -> string)
    returns (keepOpen: bool, response: Option<map<string, string>>)
    ensures keepOpen <==> msg.action == "comparePrices" && msg.query.Some? && msg.query.value != []
    ensures keepOpen ==> response == Some(Results(svcs, msg.query.value, HostOf(msg), encode))
    ensures !keepOpen ==> response == None
  {
    if msg.action == "comparePrices" && msg.query.Some? && msg.query.value != [] {
      var results := ComparePrices(svcs, msg.query.value, HostOf(msg), encode);
      return true, Some(results);
    }
    return false, None;
  }
}
