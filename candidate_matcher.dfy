/**
 * Ranking of the products listed on a store's search-results page against the
 * shopper's query: `jaccard` and `pickBestCandidate` of background.js.
 *
 * Scores are exact rationals (`real`); the source computes them in IEEE
 * doubles, which can differ in the last place.
 */
module CandidateMatcher {
  import opened Wrappers
  import opened TextNormalizer

  /** One product read off a results page: its title, its link and a price found near it. */
  datatype Candidate = Candidate(title: string, href: Option<string>, price: Option<string>)

  /** The lowest score a candidate needs to be chosen. */
  const Threshold: real := 0.22

  // ---------------------------------------------------------------------------
  // jaccard

  function Elements(a: seq<string>): set<string> {
    set x | x in a
  }

  /** `jaccard(a, b)`: size of the intersection over size of the union of the two token sets, 0 for two empty lists. */
  function Jaccard(a: seq<string>, b: seq<string>): real {
    var union := Elements(a) + Elements(b);
    if |union| == 0 then 0.0
    else |Elements(a) * Elements(b)| as real / |union| as real
  }

  lemma {:induction false} SubsetCard(x: set<string>, y: set<string>)
    requires x <= y
    ensures |x| <= |y|
    ensures |x| == |y| ==> x == y
  {
    if x != {} {
      var e :| e in x;
      SubsetCard(x - {e}, y - {e});
    } else if |y| == 0 {
      assert y == {};
    }
  }

  lemma FractionRange(n: nat, d: nat)
    requires 0 < d && n <= d
    ensures 0.0 <= n as real / d as real <= 1.0
  {
    assert n as real / d as real * d as real == n as real;
  }

  /** The similarity is a fraction between 0 and 1. */
  lemma JaccardRange(a: seq<string>, b: seq<string>)
    ensures 0.0 <= Jaccard(a, b) <= 1.0
  {
    var inter, union := Elements(a) * Elements(b), Elements(a) + Elements(b);
    SubsetCard(inter, union);
    if |union| > 0 {
      FractionRange(|inter|, |union|);
    }
  }

  /** The similarity does not depend on the order of its arguments. */
  lemma JaccardSymmetric(a: seq<string>, b: seq<string>)
    ensures Jaccard(a, b) == Jaccard(b, a)
  {
    assert Elements(a) * Elements(b) == Elements(b) * Elements(a);
    assert Elements(a) + Elements(b) == Elements(b) + Elements(a);
  }

  /** The similarity is 1 exactly when both lists hold the same, non-empty, set of tokens. */
  lemma JaccardOne(a: seq<string>, b: seq<string>)
    ensures Jaccard(a, b) == 1.0 <==> a != [] && Elements(a) == Elements(b)
  {
    var inter, union := Elements(a) * Elements(b), Elements(a) + Elements(b);
    SubsetCard(inter, union);
    if Jaccard(a, b) == 1.0 {
      assert |inter| == |union|;
      assert inter == union;
      assert Elements(a) == Elements(b);
      assert a[0] in Elements(a);
    }
    if a != [] && Elements(a) == Elements(b) {
      assert inter == union;
      assert a[0] in union;
    }
  }

  /** The similarity is 0 exactly when no token is shared (in particular when both lists are empty). */
  lemma JaccardZero(a: seq<string>, b: seq<string>)
    ensures Jaccard(a, b) == 0.0 <==> Elements(a) * Elements(b) == {}
  {
    var inter, union := Elements(a) * Elements(b), Elements(a) + Elements(b);
    if inter != {} {
      var e :| e in inter;
      assert e in union;
      SubsetCard(inter, union);
    }
  }

  // ---------------------------------------------------------------------------
  // score of one candidate

  /** The query's numbers that the title also has, in query order, repeats kept (line 287). */
  function SharedNumbers(qnums: seq<string>, cnums: seq<string>): (r: seq<string>)
    ensures |r| <= |qnums|
    ensures forall x :: multiset(r)[x] == if x in cnums then multiset(qnums)[x] else 0
  {
    if qnums == [] then []
    else
      assert qnums == [qnums[0]] + qnums[1..];
      (if qnums[0] in cnums then [qnums[0]] else []) + SharedNumbers(qnums[1..], cnums)
  }

  /** The size boost: 0.12 per shared number, capped at 0.4 (line 288). */
  function NumericBoost(numMatches: nat): real {
    if numMatches as real * 0.12 < 0.4 then numMatches as real * 0.12 else 0.4
  }

  /** `0.15` when the query has a brand guess that is also one of the title's tokens. */
  function BrandBoost(brand: Option<string>, ctokens: seq<string>): real {
    if brand.Some? && brand.value in ctokens then 0.15 else 0.0
  }

  /** What is computed once from the query: its tokens, its numeric tokens and its brand guess. */
  datatype QueryInfo = QueryInfo(tokens: seq<string>, nums: seq<string>, brand: Option<string>)

  function QueryOf(query: string): QueryInfo {
    var tokens := Tokenize(query);
    QueryInfo(tokens, NumericTokens(query), GuessBrandToken(tokens))
  }

  /** The score of a title with tokens `ctokens` and numeric tokens `cnums`. */
  function ScoreOf(q: QueryInfo, ctokens: seq<string>, cnums: seq<string>): real {
    Jaccard(q.tokens, ctokens) + NumericBoost(|SharedNumbers(q.nums, cnums)|) + BrandBoost(q.brand, ctokens)
  }

  /** The score of a candidate with the given title. */
  function Score(q: QueryInfo, title: string): real {
    ScoreOf(q, Tokenize(title), NumericTokens(title))
  }

  /** Each part of the score and the score itself stay within their ranges. */
  lemma ScoreRange(q: QueryInfo, ctokens: seq<string>, cnums: seq<string>)
    ensures 0.0 <= NumericBoost(|SharedNumbers(q.nums, cnums)|) <= 0.4
    ensures 0.0 <= ScoreOf(q, ctokens, cnums) <= 1.55
  {
    JaccardRange(q.tokens, ctokens);
  }

  /** A title that shares no token with the query can only score through the numeric boost. */
  lemma NoSharedTokenScore(q: QueryInfo, ctokens: seq<string>, cnums: seq<string>)
    requires Elements(q.tokens) * Elements(ctokens) == {}
    requires q.brand.Some? ==> q.brand.value in q.tokens
    ensures ScoreOf(q, ctokens, cnums) == NumericBoost(|SharedNumbers(q.nums, cnums)|)
  {
    JaccardZero(q.tokens, ctokens);
    if q.brand.Some? {
      var b := q.brand.value;
      assert b in Elements(q.tokens);
      assert b !in Elements(q.tokens) * Elements(ctokens);
      assert b !in Elements(ctokens);
    }
  }

  /** Three shared numbers already reach the cap of the numeric boost's linear part; four hit the cap. */
  lemma NumericBoostCap(m: nat)
    ensures m <= 3 ==> NumericBoost(m) == m as real * 0.12
    ensures m >= 4 ==> NumericBoost(m) == 0.4
  {
  }

  /** The score of every candidate, in order. */
  function Scores(q: QueryInfo, cs: seq<Candidate>): (r: seq<real>)
    ensures |r| == |cs|
  {
    if cs == [] then [] else [Score(q, cs[0].title)] + Scores(q, cs[1..])
  }

  lemma {:induction false} ScoresAt(q: QueryInfo, cs: seq<Candidate>, i: nat)
    requires i < |cs|
    ensures Scores(q, cs)[i] == Score(q, cs[i].title)
  {
    if i > 0 {
      ScoresAt(q, cs[1..], i - 1);
    }
  }

  // ---------------------------------------------------------------------------
  // pickBestCandidate

  /**
   * The running leader of the `score > bestScore` scan that starts from a
   * best score of 0: the first position of the highest positive score, or
   * nothing when no score is positive.
   */
  function Leader(scores: seq<real>): (r: (Option<nat>, real))
    ensures r.0.None? ==> r.1 == 0.0 && forall j :: 0 <= j < |scores| ==> scores[j] <= 0.0
    ensures r.0.Some? ==> r.0.value < |scores| && r.1 == scores[r.0.value] && r.1 > 0.0
    ensures r.0.Some? ==> forall j :: 0 <= j < |scores| ==> scores[j] <= r.1
    ensures r.0.Some? ==> forall j :: 0 <= j < r.0.value ==> scores[j] < r.1
  {
    if scores == [] then (None, 0.0)
    else
      var n := |scores| - 1;
      var prev := Leader(scores[..n]);
      assert forall j :: 0 <= j < n ==> scores[..n][j] == scores[j];
      if scores[n] > prev.1 then (Some(n), scores[n]) else prev
  }

  /** The index `pickBestCandidate` chooses, if any. */
  function BestIndex(scores: seq<real>): (r: Option<nat>)
    ensures r.Some? ==> r.value < |scores|
  {
    var (b, s) := Leader(scores);
    if b.Some? && s >= Threshold then b else None
  }

  /**
   * The choice is the first candidate with the highest score, provided that
   * score reaches the threshold; there is no choice exactly when every score
   * is below the threshold.
   */
  lemma BestIndexSpec(scores: seq<real>)
    ensures BestIndex(scores).None? <==> forall j :: 0 <= j < |scores| ==> scores[j] < Threshold
    ensures BestIndex(scores).Some? ==>
      var i := BestIndex(scores).value;
      scores[i] >= Threshold
      && (forall j :: 0 <= j < |scores| ==> scores[j] <= scores[i])
      && (forall j :: 0 <= j < i ==> scores[j] < scores[i])
  {
    var (b, s) := Leader(scores);
    if b.Some? && s < Threshold {
      assert forall j :: 0 <= j < |scores| ==> scores[j] < Threshold;
    }
  }

  /** `pickBestCandidate(cands, query)` as a value. */
  function BestCandidate(cs: seq<Candidate>, query: string): (r: Option<Candidate>)
    ensures r.Some? ==> r.value in cs
  {
    match BestIndex(Scores(QueryOf(query), cs))
    case Some(i) => Some(cs[i])
    case None => None
  }

  /** The chosen candidate scores at least the threshold and no candidate scores more. */
  lemma BestCandidateSpec(cs: seq<Candidate>, query: string)
    ensures BestCandidate(cs, query).None? <==>
      forall j :: 0 <= j < |cs| ==> Score(QueryOf(query), cs[j].title) < Threshold
    ensures BestCandidate(cs, query).Some? ==>
      var best := BestCandidate(cs, query).value;
      Score(QueryOf(query), best.title) >= Threshold
      && forall j :: 0 <= j < |cs| ==> Score(QueryOf(query), cs[j].title) <= Score(QueryOf(query), best.title)
  {
    var q := QueryOf(query);
    forall j | 0 <= j < |cs|
      ensures Scores(q, cs)[j] == Score(q, cs[j].title)
    {
      ScoresAt(q, cs, j);
    }
    BestIndexSpec(Scores(q, cs));
  }

  /** An empty result list never yields a choice. */
  lemma NoCandidates(query: string)
    ensures BestCandidate([], query) == None
  {
  }

  /** One step of the scan: the leader after position `i` compared with the score at `i`. */
  lemma LeaderStep(scores: seq<real>, i: nat)
    requires i < |scores|
    ensures Leader(scores[..i + 1]) ==
      if scores[i] > Leader(scores[..i]).1 then (Some(i), scores[i]) else Leader(scores[..i])
  {
    assert scores[..i + 1][..i] == scores[..i];
  }

  /** The body of the `for (const c of cands)` loop up to the comparison: the candidate's score. */
  method ScoreCandidate(qtokens: seq<string>, qnums: seq<string>, qbrand: Option<string>, title: string)
    returns (score: real)
    ensures score == ScoreOf(QueryInfo(qtokens, qnums, qbrand), Tokenize(title), NumericTokens(title))
  {
    var ctokens := Tokenize(title);
    var cnums := ExtractNumericTokens(title);
    var numMatches := |SharedNumbers(qnums, cnums)|;
    score := Jaccard(qtokens, ctokens) + NumericBoost(numMatches);
    if qbrand.Some? && qbrand.value in ctokens {
      score := score + 0.15;
    }
  }

  /** The candidate at an optional position. */
  function At(cs: seq<Candidate>, i: Option<nat>): Option<Candidate>
    requires i.Some? ==> i.value < |cs|
  {
    if i.Some? then Some(cs[i.value]) else None
  }

  /** The `for (const c of cands)` loop: the running best candidate and its score after the last candidate. */
  method ScanCandidates(cs: seq<Candidate>, qtokens: seq<string>, qnums: seq<string>, qbrand: Option<string>)
    returns (best: Option<Candidate>, bestScore: real)
    ensures var scores := Scores(QueryInfo(qtokens, qnums, qbrand), cs);
      best == At(cs, Leader(scores).0) && bestScore == Leader(scores).1
  {
    ghost var scores := Scores(QueryInfo(qtokens, qnums, qbrand), cs);
    ghost var leader: Option<nat> := None;
    best := None;
    bestScore := 0.0;
    for i := 0 to |cs|
      invariant leader == Leader(scores[..i]).0 && bestScore == Leader(scores[..i]).1
      invariant leader.Some? ==> leader.value < i
      invariant best == At(cs, leader)
    {
      var score := ScoreCandidate(qtokens, qnums, qbrand, cs[i].title);
      ScoresAt(QueryInfo(qtokens, qnums, qbrand), cs, i);
      LeaderStep(scores, i);
      if score > bestScore {
        best, bestScore, leader := Some(cs[i]), score, Some(i);
      }
    }
    assert scores[..|cs|] == scores;
  }

  /** `pickBestCandidate(cands, query)`: the best-scoring candidate, kept only when it reaches the threshold. */
  method PickBestCandidate(cs: seq<Candidate>, query: string) returns (best: Option<Candidate>)
    ensures best == BestCandidate(cs, query)
  {
    var qtokens := Tokenize(query);
    var qnums := ExtractNumericTokens(query);
    var qbrand := GuessBrandToken(qtokens);
    var bestScore;
    best, bestScore := ScanCandidates(cs, qtokens, qnums, qbrand);
    if !(best.Some? && bestScore >= Threshold) {
      best := None;
    }
  }
}
