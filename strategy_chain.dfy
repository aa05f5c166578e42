/**
 * `openAndScrape` of background.js: the fallback chain run in one background
 * tab of one store.
 *
 *   1. open the search page and wait for it to load;
 *   2. poll `scrapeFirstPrice` until the first deadline;
 *   3. collect the result candidates, pick the best match for the query, and
 *      return its price, or follow its link and poll again;
 *   4. follow the first product link and poll again;
 *   5. give up with "Price not found".
 *
 * The tab is always closed afterwards, once it was opened.
 *
 * The browser is an oracle, `Service`: whether the call made at position `k`
 * of the tab's call log succeeds, the page that call sees, and how many
 * attempts a polling loop that starts at position `k` makes before its
 * deadline passes (the clock and the 350 ms sleeps are not modelled).
 *
 * The chain itself is stated over `Views`: what each injected script returns
 * when it runs at position `k`. `Observes` ties a `Views` to the page model
 * (`scrapeFirstPrice`, `scrapeCandidatesFromSearch` followed by
 * `pickBestCandidate`, `findFirstProductLink` on the page at `k`), and
 * `Scrape` is the chain over exactly those views.
 */
module StrategyChain {
  import opened Wrappers
  import opened PriceParser
  import opened CandidateMatcher
  import opened PageModel

  /** The arguments of `openAndScrape` that describe one store. */
  datatype Target = Target(
    site: string,
    url: string,
    selectors: seq<string>,
    linkSelectors: seq<string>,
    titleSelectors: seq<string>)

  /** The browser operations on the tab, in the order they are made. */
  datatype Call =
    | Create(url: string)   // chrome.tabs.create
    | Wait                  // waitForComplete
    | ScrapePrice           // executeScript(scrapeFirstPrice)
    | CollectCandidates     // executeScript(scrapeCandidatesFromSearch)
    | FindLink              // executeScript(findFirstProductLink)
    | Navigate(url: string) // chrome.tabs.update
    | Remove                // chrome.tabs.remove

  datatype Service = Service(
    ok: nat -> bool,   // whether the call at this position of the log succeeds
    page: nat -> Page, // the page the call at this position runs in
    polls: nat -> nat) // attempts a polling loop starting at this position makes before its deadline

  /** What the injected scripts yield when run at a position of the log. */
  datatype Views = Views(
    price: nat -> Option<string>,     // scrapeFirstPrice(selectors)
    chosen: nat -> Option<Candidate>, // pickBestCandidate over scrapeCandidatesFromSearch(titleSelectors, selectors)
    link: nat -> Option<string>)      // findFirstProductLink(linkSelectors)

  /** How `openAndScrape` ends: with a value, or by throwing. */
  datatype Outcome = Returned(value: string) | Threw

  /** How one stage of the chain ends: it passes on to the next stage, or the chain stops there. */
  datatype Flow = Next | Stop(outcome: Outcome)

  const NotFound: string := "Price not found"

  /** JavaScript truthiness of a string result: present and not empty. */
  predicate Truthy(s: Option<string>) {
    s.Some? && s.value != []
  }

  // ---------------------------------------------------------------------------
  // the views of a real page

  /**
   * The candidate the candidate stage settles on when its script runs on
   * `page`: none when the page lists no candidate, otherwise the best match.
   */
  function ChosenOn(page: Page, t: Target, query: string): (r: Option<Candidate>)
    ensures r.Some? ==> r.value in SearchCandidates(page, t.titleSelectors, t.selectors)
    ensures r.Some? ==> WellFormedCandidate(r.value)
  {
    var cands := SearchCandidates(page, t.titleSelectors, t.selectors);
    SearchCandidatesWellFormed(page, t.titleSelectors, t.selectors);
    if cands == [] then None else BestCandidate(cands, query)
  }

  /** `v` is what the scripts of target `t` return on the pages of `svc`. */
  ghost predicate Observes(svc: Service, t: Target, query: string, v: Views) {
    && (forall k: nat {:trigger FirstPrice(svc.page(k), None, t.selectors)} ::
          v.price(k) == FirstPrice(svc.page(k), None, t.selectors))
    && (forall k: nat {:trigger ChosenOn(svc.page(k), t, query)} ::
          v.chosen(k) == ChosenOn(svc.page(k), t, query))
    && (forall k: nat {:trigger LinksIn(svc.page(k), t.linkSelectors)} ::
          v.link(k) == FirstSome(LinksIn(svc.page(k), t.linkSelectors)))
  }

  function Observe(svc: Service, t: Target, query: string): Views {
    Views(
      (k: nat) => FirstPrice(svc.page(k), None, t.selectors),
      (k: nat) => ChosenOn(svc.page(k), t, query),
      (k: nat) => FirstSome(LinksIn(svc.page(k), t.linkSelectors)))
  }

  lemma ObserveObserves(svc: Service, t: Target, query: string)
    ensures Observes(svc, t, query, Observe(svc, t, query))
  {
  }

  /** The price the view yields at `k`, if any, is canonical. */
  ghost predicate PriceOk(v: Views, k: nat) {
    v.price(k).Some? ==> IsCanonicalPrice(v.price(k).value)
  }

  /** The candidate the view chooses at `k`, if any, is well formed. */
  ghost predicate ChosenOk(v: Views, k: nat) {
    v.chosen(k).Some? ==> WellFormedCandidate(v.chosen(k).value)
  }

  /** Every price a view yields is canonical, and so is every chosen candidate. */
  ghost predicate ViewsSound(v: Views) {
    forall k: nat :: PriceOk(v, k) && ChosenOk(v, k)
  }

  /** The views of real pages are sound: the scripts only ever yield canonical prices. */
  lemma ObservedSound(svc: Service, t: Target, query: string, v: Views)
    requires Observes(svc, t, query, v)
    ensures ViewsSound(v)
  {
    forall k: nat
      ensures PriceOk(v, k) && ChosenOk(v, k)
    {
      FirstPriceSpec(svc.page(k), None, t.selectors);
      assert v.chosen(k) == ChosenOn(svc.page(k), t, query);
    }
  }

  // ---------------------------------------------------------------------------
  // the stages, each as the calls it makes from log position k0

  /** The call `c`, followed by the stage `r`. */
  function Prefix(c: Call, r: (Flow, seq<Call>)): (Flow, seq<Call>) {
    (r.0, [c] + r.1)
  }

  /** The stage `first`, followed by the stage `rest` when `first` passes on. */
  function Then(first: (Flow, seq<Call>), rest: (Flow, seq<Call>)): (Flow, seq<Call>) {
    if first.0.Stop? then first else (rest.0, first.1 + rest.1)
  }

  /** A polling loop: at most `n` `scrapeFirstPrice` attempts, stopping at the first price. */
  function Poll(svc: Service, v: Views, k0: nat, n: nat): (Flow, seq<Call>)
    decreases n
  {
    if n == 0 then (Next, [])
    else if !svc.ok(k0) then (Stop(Threw), [ScrapePrice])
    else if Truthy(v.price(k0)) then (Stop(Returned(v.price(k0).value)), [ScrapePrice])
    else Prefix(ScrapePrice, Poll(svc, v, k0 + 1, n - 1))
  }

  /** Wait for the tab to load, then poll until the deadline that starts there. */
  function Loaded(svc: Service, v: Views, k0: nat): (Flow, seq<Call>) {
    if !svc.ok(k0) then (Stop(Threw), [Wait])
    else Prefix(Wait, Poll(svc, v, k0 + 1, svc.polls(k0 + 1)))
  }

  /** Navigate the tab to `url`, wait for it to load, and poll until the second deadline. */
  function Visit(svc: Service, v: Views, k0: nat, url: string): (Flow, seq<Call>) {
    if !svc.ok(k0) then (Stop(Threw), [Navigate(url)])
    else Prefix(Navigate(url), Loaded(svc, v, k0 + 1))
  }

  /** The candidate stage: its chosen candidate's price, or the visit of its link. */
  function CandidateStage(svc: Service, v: Views, t: Target, k0: nat): (Flow, seq<Call>) {
    if t.titleSelectors == [] then (Next, [])
    else if !svc.ok(k0) then (Stop(Threw), [CollectCandidates])
    else match v.chosen(k0)
      case None => (Next, [CollectCandidates])
      case Some(best) =>
        if Truthy(best.price) then (Stop(Returned(best.price.value)), [CollectCandidates])
        else if Truthy(best.href) then Prefix(CollectCandidates, Visit(svc, v, k0 + 1, best.href.value))
        else (Next, [CollectCandidates])
  }

  /** The product-link stage: visit the first product link, if there is one. */
  function LinkStage(svc: Service, v: Views, t: Target, k0: nat): (Flow, seq<Call>) {
    if t.linkSelectors == [] then (Next, [])
    else if !svc.ok(k0) then (Stop(Threw), [FindLink])
    else if !Truthy(v.link(k0)) then (Next, [FindLink])
    else Prefix(FindLink, Visit(svc, v, k0 + 1, v.link(k0).value))
  }

  /** The candidate stage, then the product-link stage when the first passes on. */
  function LaterStages(svc: Service, v: Views, t: Target, k0: nat): (Flow, seq<Call>) {
    var cand := CandidateStage(svc, v, t, k0);
    Then(cand, LinkStage(svc, v, t, k0 + |cand.1|))
  }

  /** The `try` block, from the wait for the first load to "Price not found". */
  function Body(svc: Service, v: Views, t: Target, k0: nat): (Flow, seq<Call>) {
    if !svc.ok(k0) then (Stop(Threw), [Wait])
    else
      var direct := Poll(svc, v, k0 + 1, svc.polls(k0 + 1));
      Prefix(Wait, Then(direct, LaterStages(svc, v, t, k0 + 1 + |direct.1|)))
  }

  function OutcomeOf(f: Flow): Outcome {
    if f.Stop? then f.outcome else Returned(NotFound)
  }

  /** The whole chain over views `v`: its outcome and the tab's call log. */
  function Run(svc: Service, v: Views, t: Target): (Outcome, seq<Call>) {
    if !svc.ok(0) then (Threw, [Create(t.url)])
    else
      var body := Body(svc, v, t, 1);
      (OutcomeOf(body.0), [Create(t.url)] + body.1 + [Remove])
  }

  /** `openAndScrape(url, selectors, linkSelectors, titleSelectors, query)` on the pages of `svc`. */
  function Scrape(svc: Service, t: Target, query: string): (Outcome, seq<Call>) {
    Run(svc, Observe(svc, t, query), t)
  }

  // ---------------------------------------------------------------------------
  // what every stage guarantees

  predicate NoRemove(calls: seq<Call>) {
    forall j :: 0 <= j < |calls| ==> calls[j] != Remove
  }

  /** Every call among `calls`, made from position `k0` on, succeeds. */
  predicate AllOk(svc: Service, k0: nat, calls: seq<Call>) {
    forall k: nat :: k0 <= k < k0 + |calls| ==> svc.ok(k)
  }

  /**
   * Every `scrapeFirstPrice` attempt among `calls` found nothing, and every
   * candidate chosen by a `scrapeCandidatesFromSearch` call among them
   * carried no price.
   */
  predicate NoPriceFound(v: Views, k0: nat, calls: seq<Call>) {
    && (forall j :: 0 <= j < |calls| && calls[j] == ScrapePrice ==> v.price(k0 + j).None?)
    && (forall j :: 0 <= j < |calls| && calls[j] == CollectCandidates ==> Unpriced(v.chosen(k0 + j)))
  }

  /** No candidate was chosen, or the chosen one carries no price. */
  predicate Unpriced(chosen: Option<Candidate>) {
    chosen.None? || !Truthy(chosen.value.price)
  }

  /**
   * What the calls of a stage starting at `k0` satisfy: none closes the tab;
   * the stage throws exactly when its last call failed, every other call
   * having succeeded; a value it returns is a canonical price; and when it
   * passes on, none of its price scrapes found anything and no candidate it
   * chose carried a price.
   */
  ghost predicate Sound(svc: Service, v: Views, k0: nat, r: (Flow, seq<Call>)) {
    LogSound(svc, k0, r) && ResultSound(v, k0, r)
  }

  /** No call closes the tab; the stage throws exactly when its last call failed. */
  predicate LogSound(svc: Service, k0: nat, r: (Flow, seq<Call>)) {
    && NoRemove(r.1)
    && (r.0 == Stop(Threw) ==>
          |r.1| > 0 && AllOk(svc, k0, r.1[..|r.1| - 1]) && !svc.ok(k0 + |r.1| - 1))
    && (r.0 != Stop(Threw) ==> AllOk(svc, k0, r.1))
  }

  /** A returned value is a canonical price; passing on means no price was found. */
  ghost predicate ResultSound(v: Views, k0: nat, r: (Flow, seq<Call>)) {
    && (r.0.Stop? && r.0.outcome.Returned? ==> IsCanonicalPrice(r.0.outcome.value))
    && (r.0 == Next ==> NoPriceFound(v, k0, r.1))
  }

  lemma NoRemoveAppend(a: seq<Call>, b: seq<Call>)
    requires NoRemove(a) && NoRemove(b)
    ensures NoRemove(a + b)
  {
    forall j | 0 <= j < |a + b|
      ensures (a + b)[j] != Remove
    {
      if j >= |a| {
        assert (a + b)[j] == b[j - |a|];
      }
    }
  }

  lemma AllOkAppend(svc: Service, k0: nat, a: seq<Call>, b: seq<Call>)
    requires AllOk(svc, k0, a) && AllOk(svc, k0 + |a|, b)
    ensures AllOk(svc, k0, a + b)
  {
    assert k0 + |a + b| == (k0 + |a|) + |b|;
  }

  lemma NoPriceAppend(v: Views, k0: nat, a: seq<Call>, b: seq<Call>)
    requires NoPriceFound(v, k0, a) && NoPriceFound(v, k0 + |a|, b)
    ensures NoPriceFound(v, k0, a + b)
  {
    forall j | 0 <= j < |a + b| && (a + b)[j] == ScrapePrice
      ensures v.price(k0 + j).None?
    {
      if j >= |a| {
        assert b[j - |a|] == ScrapePrice;
        assert v.price((k0 + |a|) + (j - |a|)).None?;
      } else {
        assert a[j] == ScrapePrice;
      }
    }
    forall j | 0 <= j < |a + b| && (a + b)[j] == CollectCandidates
      ensures Unpriced(v.chosen(k0 + j))
    {
      if j >= |a| {
        assert b[j - |a|] == CollectCandidates;
        assert Unpriced(v.chosen((k0 + |a|) + (j - |a|)));
      } else {
        assert a[j] == CollectCandidates;
      }
    }
  }

  /** A stage that passes on, followed by a sound stage, is a sound stage. */
  lemma SoundAppend(svc: Service, v: Views, k0: nat, first: (Flow, seq<Call>), r: (Flow, seq<Call>))
    requires first.0 == Next && Sound(svc, v, k0, first)
    requires Sound(svc, v, k0 + |first.1|, r)
    ensures Sound(svc, v, k0, (r.0, first.1 + r.1))
  {
    var a := first.1;
    var calls := a + r.1;
    NoRemoveAppend(a, r.1);
    if r.0 == Stop(Threw) {
      assert calls[..|calls| - 1] == a + r.1[..|r.1| - 1];
      AllOkAppend(svc, k0, a, r.1[..|r.1| - 1]);
      assert k0 + |calls| - 1 == (k0 + |a|) + |r.1| - 1;
    } else {
      AllOkAppend(svc, k0, a, r.1);
    }
    if r.0 == Next {
      NoPriceAppend(v, k0, a, r.1);
    }
  }

  /**
   * A call that succeeded, and is neither a price scrape that found something
   * nor a candidate collection whose choice carries a price,
   * followed by a sound stage, is a sound stage.
   */
  lemma PrefixSound(svc: Service, v: Views, k0: nat, c: Call, r: (Flow, seq<Call>))
    requires svc.ok(k0) && c != Remove && (c == ScrapePrice ==> v.price(k0).None?)
    requires c == CollectCandidates ==> Unpriced(v.chosen(k0))
    requires Sound(svc, v, k0 + 1, r)
    ensures Sound(svc, v, k0, Prefix(c, r))
  {
    assert Sound(svc, v, k0, (Next, [c]));
    SoundAppend(svc, v, k0, (Next, [c]), r);
  }

  /** Two sound stages in a row make a sound stage. */
  lemma ThenSound(svc: Service, v: Views, k0: nat, first: (Flow, seq<Call>), rest: (Flow, seq<Call>))
    requires Sound(svc, v, k0, first)
    requires Sound(svc, v, k0 + |first.1|, rest)
    ensures Sound(svc, v, k0, Then(first, rest))
  {
    if first.0 == Next {
      SoundAppend(svc, v, k0, first, rest);
    }
  }

  lemma {:induction false} PollSound(svc: Service, v: Views, k0: nat, n: nat)
    requires ViewsSound(v)
    ensures Sound(svc, v, k0, Poll(svc, v, k0, n))
    ensures |Poll(svc, v, k0, n).1| <= n
    decreases n
  {
    assert PriceOk(v, k0);
    if n > 0 && svc.ok(k0) && !Truthy(v.price(k0)) {
      PollSound(svc, v, k0 + 1, n - 1);
      PrefixSound(svc, v, k0, ScrapePrice, Poll(svc, v, k0 + 1, n - 1));
    }
  }

  lemma LoadedSound(svc: Service, v: Views, k0: nat)
    requires ViewsSound(v)
    ensures Sound(svc, v, k0, Loaded(svc, v, k0))
  {
    if svc.ok(k0) {
      PollSound(svc, v, k0 + 1, svc.polls(k0 + 1));
      PrefixSound(svc, v, k0, Wait, Poll(svc, v, k0 + 1, svc.polls(k0 + 1)));
    }
  }

  lemma VisitSound(svc: Service, v: Views, k0: nat, url: string)
    requires ViewsSound(v)
    ensures Sound(svc, v, k0, Visit(svc, v, k0, url))
  {
    if svc.ok(k0) {
      LoadedSound(svc, v, k0 + 1);
      PrefixSound(svc, v, k0, Navigate(url), Loaded(svc, v, k0 + 1));
    }
  }

  lemma CandidateStageSound(svc: Service, v: Views, t: Target, k0: nat)
    requires ViewsSound(v)
    ensures Sound(svc, v, k0, CandidateStage(svc, v, t, k0))
  {
    if t.titleSelectors != [] && svc.ok(k0) && v.chosen(k0).Some? {
      assert ChosenOk(v, k0);
      var best := v.chosen(k0).value;
      if !Truthy(best.price) && Truthy(best.href) {
        VisitSound(svc, v, k0 + 1, best.href.value);
        PrefixSound(svc, v, k0, CollectCandidates, Visit(svc, v, k0 + 1, best.href.value));
      }
    }
  }

  lemma LinkStageSound(svc: Service, v: Views, t: Target, k0: nat)
    requires ViewsSound(v)
    ensures Sound(svc, v, k0, LinkStage(svc, v, t, k0))
  {
    if t.linkSelectors != [] && svc.ok(k0) && Truthy(v.link(k0)) {
      VisitSound(svc, v, k0 + 1, v.link(k0).value);
      PrefixSound(svc, v, k0, FindLink, Visit(svc, v, k0 + 1, v.link(k0).value));
    }
  }

  lemma LaterStagesSound(svc: Service, v: Views, t: Target, k0: nat)
    requires ViewsSound(v)
    ensures Sound(svc, v, k0, LaterStages(svc, v, t, k0))
  {
    var cand := CandidateStage(svc, v, t, k0);
    CandidateStageSound(svc, v, t, k0);
    LinkStageSound(svc, v, t, k0 + |cand.1|);
    ThenSound(svc, v, k0, cand, LinkStage(svc, v, t, k0 + |cand.1|));
  }

  lemma BodySound(svc: Service, v: Views, t: Target, k0: nat)
    requires ViewsSound(v)
    ensures Sound(svc, v, k0, Body(svc, v, t, k0))
  {
    if svc.ok(k0) {
      LoadedBodySound(svc, v, t, k0);
      BodyShape(svc, v, t, k0);
    }
  }

  /** The wait that succeeded, the polling loop and the later stages make a sound stage. */
  lemma LoadedBodySound(svc: Service, v: Views, t: Target, k0: nat)
    requires ViewsSound(v) && svc.ok(k0)
    ensures var direct := Poll(svc, v, k0 + 1, svc.polls(k0 + 1));
      Sound(svc, v, k0, Prefix(Wait, Then(direct, LaterStages(svc, v, t, k0 + 1 + |direct.1|))))
  {
    PollSound(svc, v, k0 + 1, svc.polls(k0 + 1));
    WaitThenLaterSound(svc, v, t, k0, Poll(svc, v, k0 + 1, svc.polls(k0 + 1)));
  }

  /** A wait that succeeded, a sound polling loop and the later stages make a sound stage. */
  lemma WaitThenLaterSound(svc: Service, v: Views, t: Target, k0: nat, direct: (Flow, seq<Call>))
    requires ViewsSound(v) && svc.ok(k0) && Sound(svc, v, k0 + 1, direct)
    ensures Sound(svc, v, k0, Prefix(Wait, Then(direct, LaterStages(svc, v, t, k0 + 1 + |direct.1|))))
  {
    DirectThenLaterSound(svc, v, t, k0 + 1, direct);
    PrefixSound(svc, v, k0, Wait, Then(direct, LaterStages(svc, v, t, k0 + 1 + |direct.1|)));
  }

  /** A sound polling loop, then the later stages, make a sound stage. */
  lemma DirectThenLaterSound(svc: Service, v: Views, t: Target, k0: nat, direct: (Flow, seq<Call>))
    requires ViewsSound(v) && Sound(svc, v, k0, direct)
    ensures Sound(svc, v, k0, Then(direct, LaterStages(svc, v, t, k0 + |direct.1|)))
  {
    LaterStagesSound(svc, v, t, k0 + |direct.1|);
    ThenSound(svc, v, k0, direct, LaterStages(svc, v, t, k0 + |direct.1|));
  }

  /** The `try` block once the first load succeeded: the wait, the polling loop, the later stages. */
  lemma BodyShape(svc: Service, v: Views, t: Target, k0: nat)
    requires svc.ok(k0)
    ensures var direct := Poll(svc, v, k0 + 1, svc.polls(k0 + 1));
      Body(svc, v, t, k0) == Prefix(Wait, Then(direct, LaterStages(svc, v, t, k0 + 1 + |direct.1|)))
  {
  }

  /**
   * What `openAndScrape` promises about its outcome and the tab's call log:
   * the log starts with the tab's creation; an opened tab is closed exactly
   * once, by the last call; when opening failed nothing else happens and the
   * call throws; it throws exactly when a call other than the removal failed;
   * it returns a canonical price or "Price not found", and the latter only
   * when no price scrape found anything and no chosen candidate carried a price.
   */
  ghost predicate ChainSound(svc: Service, v: Views, url: string, r: (Outcome, seq<Call>)) {
    var (outcome, calls) := r;
    && |calls| > 0
    && calls[0] == Create(url)
    && (svc.ok(0) ==> calls[|calls| - 1] == Remove && NoRemove(calls[..|calls| - 1]))
    && (!svc.ok(0) ==> calls == [Create(url)] && outcome == Threw)
    && (outcome == Threw <==> exists k :: 0 <= k < |calls| && calls[k] != Remove && !svc.ok(k))
    && (outcome.Returned? ==> outcome.value == NotFound || IsCanonicalPrice(outcome.value))
    && (outcome == Returned(NotFound) ==> NoPriceFound(v, 0, calls))
  }

  /** A sound `try` block, wrapped in the tab's creation and removal. */
  lemma ClosedRunSound(svc: Service, v: Views, url: string, body: (Flow, seq<Call>))
    requires svc.ok(0) && Sound(svc, v, 1, body)
    ensures ChainSound(svc, v, url, (OutcomeOf(body.0), [Create(url)] + body.1 + [Remove]))
  {
    PrefixSound(svc, v, 0, Create(url), body);
    var openedLog := [Create(url)] + body.1;
    var calls := openedLog + [Remove];
    assert calls[..|calls| - 1] == openedLog;
    if body.0 == Stop(Threw) {
      var k := |openedLog| - 1;
      assert calls[k] == openedLog[k] && calls[k] != Remove && !svc.ok(0 + k);
    } else {
      forall k | 0 <= k < |calls| && calls[k] != Remove
        ensures svc.ok(k)
      {
        assert k < |openedLog| && svc.ok(0 + k);
      }
    }
    NotFoundIsNoPrice();
    if body.0 == Next {
      forall k | 0 <= k < |calls| && calls[k] == ScrapePrice
        ensures v.price(0 + k).None?
      {
        assert k < |openedLog| && openedLog[k] == ScrapePrice;
      }
      forall k | 0 <= k < |calls| && calls[k] == CollectCandidates
        ensures Unpriced(v.chosen(0 + k))
      {
        assert k < |openedLog| && openedLog[k] == CollectCandidates;
      }
    }
  }

  /** The whole chain over sound views keeps every promise of `ChainSound`. */
  lemma RunSound(svc: Service, v: Views, t: Target)
    requires ViewsSound(v)
    ensures ChainSound(svc, v, t.url, Run(svc, v, t))
  {
    if svc.ok(0) {
      BodySound(svc, v, t, 1);
      ClosedRunSound(svc, v, t.url, Body(svc, v, t, 1));
    } else {
      assert Run(svc, v, t).1 == [Create(t.url)];
    }
  }

  /** "Price not found" is never a canonical price, so the two cases cannot be confused. */
  lemma NotFoundIsNoPrice()
    ensures !IsCanonicalPrice(NotFound)
  {
  }

  // ---------------------------------------------------------------------------
  // what openAndScrape guarantees

  /**
   * The tab is closed exactly once, as the last call, whenever it was opened;
   * when opening it failed nothing else is done and the call throws.
   */
  lemma TabClosedOnce(svc: Service, t: Target, query: string)
    ensures var (outcome, calls) := Scrape(svc, t, query);
      && calls[0] == Create(t.url)
      && (svc.ok(0) ==> calls[|calls| - 1] == Remove && NoRemove(calls[..|calls| - 1]))
      && (!svc.ok(0) ==> calls == [Create(t.url)] && outcome == Threw)
  {
    var v := Observe(svc, t, query);
    ObservedSound(svc, t, query, v);
    RunSound(svc, v, t);
  }

  /** What `openAndScrape` resolves to is a canonical price or "Price not found". */
  lemma ResultIsPriceOrNotFound(svc: Service, t: Target, query: string)
    ensures var outcome := Scrape(svc, t, query).0;
      outcome.Returned? ==> outcome.value == NotFound || IsCanonicalPrice(outcome.value)
  {
    var v := Observe(svc, t, query);
    ObservedSound(svc, t, query, v);
    RunSound(svc, v, t);
  }

  /**
   * `openAndScrape` throws exactly when some browser call other than the
   * final tab removal failed (a failed removal is swallowed).
   */
  lemma ThrowsIffCallFailed(svc: Service, t: Target, query: string)
    ensures var (outcome, calls) := Scrape(svc, t, query);
      outcome == Threw <==> exists k :: 0 <= k < |calls| && calls[k] != Remove && !svc.ok(k)
  {
    var v := Observe(svc, t, query);
    ObservedSound(svc, t, query, v);
    RunSound(svc, v, t);
  }

  /**
   * "Price not found" comes only after every stage came up empty: every
   * `scrapeFirstPrice` attempt on the tab (the direct poll and the polls
   * after following a candidate's or a product link) found nothing, and
   * every candidate the candidate stage settled on carried no price.
   */
  lemma NotFoundAfterEveryScrapeFailed(svc: Service, t: Target, query: string)
    ensures var (outcome, calls) := Scrape(svc, t, query);
      outcome == Returned(NotFound) ==>
        && (forall k :: 0 <= k < |calls| && calls[k] == ScrapePrice ==> FirstPrice(svc.page(k), None, t.selectors).None?)
        && (forall k :: 0 <= k < |calls| && calls[k] == CollectCandidates ==> Unpriced(ChosenOn(svc.page(k), t, query)))
  {
    var v := Observe(svc, t, query);
    ObservedSound(svc, t, query, v);
    RunSound(svc, v, t);
    var (outcome, calls) := Scrape(svc, t, query);
    if outcome == Returned(NotFound) {
      forall k | 0 <= k < |calls| && calls[k] == ScrapePrice
        ensures FirstPrice(svc.page(k), None, t.selectors).None?
      {
        assert v.price(0 + k).None?;
      }
      forall k | 0 <= k < |calls| && calls[k] == CollectCandidates
        ensures Unpriced(ChosenOn(svc.page(k), t, query))
      {
        assert Unpriced(v.chosen(0 + k));
      }
    }
  }

  /**
   * A price found by the first polling attempt is returned without any
   * further stage (on real pages the attempt yields
   * `FirstPrice(svc.page(2), None, t.selectors)`).
   */
  lemma FirstPollWins(svc: Service, v: Views, t: Target, p: string)
    requires svc.ok(0) && svc.ok(1) && svc.ok(2) && svc.polls(2) > 0
    requires v.price(2) == Some(p) && p != []
    ensures Run(svc, v, t) == (Returned(p), [Create(t.url), Wait, ScrapePrice, Remove])
  {
    assert Poll(svc, v, 2, svc.polls(2)) == (Stop(Returned(p)), [ScrapePrice]);
    assert [Wait] + [ScrapePrice] == [Wait, ScrapePrice];
    assert Then(Poll(svc, v, 2, svc.polls(2)), LaterStages(svc, v, t, 3)) == (Stop(Returned(p)), [ScrapePrice]);
    assert Body(svc, v, t, 1) == (Stop(Returned(p)), [Wait, ScrapePrice]);
    assert [Create(t.url)] + [Wait, ScrapePrice] + [Remove] == [Create(t.url), Wait, ScrapePrice, Remove];
  }

  /** A chosen candidate that carries a price is answered at once, without navigating anywhere. */
  lemma CandidatePriceNeedsNoNavigation(svc: Service, v: Views, t: Target, k0: nat)
    requires t.titleSelectors != [] && svc.ok(k0)
    requires v.chosen(k0).Some? && Truthy(v.chosen(k0).value.price)
    ensures CandidateStage(svc, v, t, k0) == (Stop(Returned(v.chosen(k0).value.price.value)), [CollectCandidates])
  {
  }

  // ---------------------------------------------------------------------------
  // the imperative version

  /** One `scrapeFirstPrice` injection into the page at position `k`. */
  method ScrapeAt(svc: Service, t: Target, query: string, ghost v: Views, k: nat) returns (price: Option<string>)
    requires Observes(svc, t, query, v)
    ensures price == v.price(k)
  {
    price := ScrapeFirstPrice(svc.page(k), t.selectors);
  }

  /** One `findFirstProductLink` injection into the page at position `k`. */
  method FindLinkAt(svc: Service, t: Target, query: string, ghost v: Views, k: nat) returns (link: Option<string>)
    requires Observes(svc, t, query, v)
    ensures link == v.link(k)
  {
    link := FindFirstProductLink(svc.page(k), t.linkSelectors);
  }

  /**
   * After `attempt` fruitless attempts logged in `calls`, the loop from `k0`
   * is those calls followed by the loop from the next position.
   */
  ghost predicate PollAfter(svc: Service, v: Views, k0: nat, n: nat, attempt: nat, calls: seq<Call>) {
    && attempt <= n && |calls| == attempt
    && Poll(svc, v, k0, n)
         == (Poll(svc, v, k0 + attempt, n - attempt).0, calls + Poll(svc, v, k0 + attempt, n - attempt).1)
  }

  /** One more fruitless attempt. */
  lemma PollAdvance(svc: Service, v: Views, k0: nat, n: nat, attempt: nat, calls: seq<Call>)
    requires PollAfter(svc, v, k0, n, attempt, calls) && attempt < n
    requires svc.ok(k0 + attempt) && !Truthy(v.price(k0 + attempt))
    ensures PollAfter(svc, v, k0, n, attempt + 1, calls + [ScrapePrice])
  {
    var rest := Poll(svc, v, k0 + attempt + 1, n - attempt - 1);
    assert Poll(svc, v, k0 + attempt, n - attempt) == (rest.0, [ScrapePrice] + rest.1);
    assert (calls + [ScrapePrice]) + rest.1 == calls + ([ScrapePrice] + rest.1);
  }

  /** An attempt that stops the loop: its call ends the log. */
  lemma PollStops(svc: Service, v: Views, k0: nat, n: nat, attempt: nat, calls: seq<Call>)
    requires PollAfter(svc, v, k0, n, attempt, calls) && attempt < n
    requires !svc.ok(k0 + attempt) || Truthy(v.price(k0 + attempt))
    ensures !svc.ok(k0 + attempt) ==> Poll(svc, v, k0, n) == (Stop(Threw), calls + [ScrapePrice])
    ensures svc.ok(k0 + attempt) ==>
      Poll(svc, v, k0, n) == (Stop(Returned(v.price(k0 + attempt).value)), calls + [ScrapePrice])
  {
  }

  /** A polling loop: `while (Date.now() < deadline)`, with the deadline counted in attempts. */
  method PollLoop(svc: Service, t: Target, query: string, ghost v: Views, k0: nat, n: nat)
    returns (flow: Flow, calls: seq<Call>)
    requires Observes(svc, t, query, v)
    ensures (flow, calls) == Poll(svc, v, k0, n)
  {
    calls := [];
    var attempt := 0;
    assert calls + Poll(svc, v, k0, n).1 == Poll(svc, v, k0, n).1;
    while attempt < n
      invariant PollAfter(svc, v, k0, n, attempt, calls)
    {
      var k := k0 + attempt;
      if !svc.ok(k) {
        PollStops(svc, v, k0, n, attempt, calls);
        return Stop(Threw), calls + [ScrapePrice];
      }
      var result := ScrapeAt(svc, t, query, v, k);
      if result.Some? && result.value != [] {
        PollStops(svc, v, k0, n, attempt, calls);
        return Stop(Returned(result.value)), calls + [ScrapePrice];
      }
      PollAdvance(svc, v, k0, n, attempt, calls);
      calls := calls + [ScrapePrice];
      attempt := attempt + 1;
    }
    assert calls + [] == calls;
    flow := Next;
  }


  /** `await waitForComplete(tab.id)`, then a polling loop. */
  method LoadSteps(svc: Service, t: Target, query: string, ghost v: Views, k0: nat)
    returns (flow: Flow, calls: seq<Call>)
    requires Observes(svc, t, query, v)
    ensures (flow, calls) == Loaded(svc, v, k0)
  {
    if !svc.ok(k0) {
      return Stop(Threw), [Wait];
    }
    var more;
    flow, more := PollLoop(svc, t, query, v, k0 + 1, svc.polls(k0 + 1));
    calls := [Wait] + more;
  }

  method VisitSteps(svc: Service, t: Target, query: string, ghost v: Views, k0: nat, url: string)
    returns (flow: Flow, calls: seq<Call>)
    requires Observes(svc, t, query, v)
    ensures (flow, calls) == Visit(svc, v, k0, url)
  {
    if !svc.ok(k0) {
      return Stop(Threw), [Navigate(url)];
    }
    var more;
    flow, more := LoadSteps(svc, t, query, v, k0 + 1);
    calls := [Navigate(url)] + more;
  }

  /** The candidates of the results page, and the best match among them when there are any. */
  method ChooseCandidate(svc: Service, t: Target, query: string, ghost v: Views, k0: nat)
    returns (best: Option<Candidate>)
    requires Observes(svc, t, query, v)
    ensures best == v.chosen(k0)
  {
    var candidates := ScrapeCandidatesFromSearch(svc.page(k0), t.titleSelectors, t.selectors);
    best := None;
    if candidates != [] {
      best := PickBestCandidate(candidates, query);
    }
    assert best == ChosenOn(svc.page(k0), t, query);
  }

  method CandidateSteps(svc: Service, t: Target, query: string, ghost v: Views, k0: nat)
    returns (flow: Flow, calls: seq<Call>)
    requires Observes(svc, t, query, v)
    ensures (flow, calls) == CandidateStage(svc, v, t, k0)
  {
    if t.titleSelectors == [] {
      return Next, [];
    }
    calls := [CollectCandidates];
    if !svc.ok(k0) {
      return Stop(Threw), calls;
    }
    var best := ChooseCandidate(svc, t, query, v, k0);
    if best.None? {
      return Next, calls;
    }
    if best.value.price.Some? && best.value.price.value != [] {
      return Stop(Returned(best.value.price.value)), calls;
    }
    if best.value.href.Some? && best.value.href.value != [] {
      var more;
      flow, more := VisitSteps(svc, t, query, v, k0 + 1, best.value.href.value);
      calls := calls + more;
      return;
    }
    flow := Next;
  }

  method LinkSteps(svc: Service, t: Target, query: string, ghost v: Views, k0: nat)
    returns (flow: Flow, calls: seq<Call>)
    requires Observes(svc, t, query, v)
    ensures (flow, calls) == LinkStage(svc, v, t, k0)
  {
    if t.linkSelectors == [] {
      return Next, [];
    }
    calls := [FindLink];
    if !svc.ok(k0) {
      return Stop(Threw), calls;
    }
    var href := FindLinkAt(svc, t, query, v, k0);
    if href.None? || href.value == [] {
      return Next, calls;
    }
    var more;
    flow, more := VisitSteps(svc, t, query, v, k0 + 1, href.value);
    calls := calls + more;
  }

  method LaterSteps(svc: Service, t: Target, query: string, ghost v: Views, k0: nat)
    returns (flow: Flow, calls: seq<Call>)
    requires Observes(svc, t, query, v)
    ensures (flow, calls) == LaterStages(svc, v, t, k0)
  {
    flow, calls := CandidateSteps(svc, t, query, v, k0);
    if flow.Stop? {
      return;
    }
    var link;
    flow, link := LinkSteps(svc, t, query, v, k0 + |calls|);
    calls := calls + link;
  }

  /** The `try` block. */
  method BodySteps(svc: Service, t: Target, query: string, ghost v: Views, k0: nat)
    returns (flow: Flow, calls: seq<Call>)
    requires Observes(svc, t, query, v)
    ensures (flow, calls) == Body(svc, v, t, k0)
  {
    if !svc.ok(k0) {
      return Stop(Threw), [Wait];
    }
    var direct;
    flow, direct := PollLoop(svc, t, query, v, k0 + 1, svc.polls(k0 + 1));
    if flow.Stop? {
      return flow, [Wait] + direct;
    }
    var rest;
    flow, rest := LaterSteps(svc, t, query, v, k0 + 1 + |direct|);
    calls := [Wait] + (direct + rest);
  }

  /** `openAndScrape(...)`: open the tab, run the chain, and always close the tab that was opened. */
  method OpenAndScrape(svc: Service, t: Target, query: string) returns (outcome: Outcome, calls: seq<Call>)
    ensures (outcome, calls) == Scrape(svc, t, query)
  {
    calls := [Create(t.url)];
    if !svc.ok(0) {
      return Threw, calls;
    }
    ghost var v := Observe(svc, t, query);
    ObserveObserves(svc, t, query);
    var flow, more := BodySteps(svc, t, query, v, 1);
    outcome := if flow.Stop? then flow.outcome else Returned(NotFound);
    calls := calls + more + [Remove];
  }
}
