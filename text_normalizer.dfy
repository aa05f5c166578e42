/**
 * The text normaliser that the candidate matcher uses on the query and on
 * every candidate title: `tokenize`, `extractNumericTokens` and
 * `guessBrandToken` of background.js.
 *
 * The two regular expressions of `extractNumericTokens` are modelled with the
 * order in which a backtracking matcher tries its choices; lemmas then show
 * that only the longest numeric prefix can ever lead to a match
 * (UnitMatchAtLongest, BareNumberAtLongest).
 */
module TextNormalizer {
  import opened Wrappers
  import opened Chars
  import PriceParser

  // ---------------------------------------------------------------------------
  // tokenize

  /** `[^a-z0-9\s]` is replaced by a space. */
  function BlankChar(c: char): char {
    if IsLowerAlnum(c) || IsSpace(c) then c else ' '
  }

  /** `toLowerCase()` followed by `replace(/[^a-z0-9\s]/g, ' ')`. */
  function Clean(s: string): (r: string)
    ensures |r| == |s|
    ensures forall k :: 0 <= k < |r| ==> IsLowerAlnum(r[k]) || IsSpace(r[k])
  {
    seq(|s|, k requires 0 <= k < |s| => BlankChar(LowerChar(s[k])))
  }

  function Flush(cur: string): seq<string> {
    if cur == [] then [] else [cur]
  }

  /**
   * `split(/\s+/).filter(Boolean)` of `s` from index `i`, with `cur` the part
   * of the current piece read so far: the maximal runs of non-whitespace.
   */
  function Fields(s: string, i: nat, cur: string): seq<string>
    requires i <= |s|
    decreases |s| - i
  {
    if i == |s| then Flush(cur)
    else if IsSpace(s[i]) then Flush(cur) + Fields(s, i + 1, [])
    else Fields(s, i + 1, cur + [s[i]])
  }

  /** A token: non-empty, made of `a-z` and `0-9` only. */
  predicate IsToken(t: string) {
    t != [] && forall k :: 0 <= k < |t| ==> IsLowerAlnum(t[k])
  }

  /** `tokenize(s)`: the lower-cased words of `s`, punctuation acting as a separator. */
  function Tokenize(s: string): (r: seq<string>)
    ensures forall k :: 0 <= k < |r| ==> IsToken(r[k])
  {
    FieldsAreTokens(Clean(s), 0, []);
    Fields(Clean(s), 0, [])
  }

  lemma {:induction false} FieldsAreTokens(s: string, i: nat, cur: string)
    requires i <= |s|
    requires forall k :: i <= k < |s| ==> IsLowerAlnum(s[k]) || IsSpace(s[k])
    requires forall k :: 0 <= k < |cur| ==> IsLowerAlnum(cur[k])
    ensures forall k :: 0 <= k < |Fields(s, i, cur)| ==> IsToken(Fields(s, i, cur)[k])
    decreases |s| - i
  {
    if i < |s| {
      if IsSpace(s[i]) {
        FieldsAreTokens(s, i + 1, []);
      } else {
        FieldsAreTokens(s, i + 1, cur + [s[i]]);
      }
    }
  }

  /** The tokens separated by single spaces. */
  function Join(ts: seq<string>): string {
    if ts == [] then ""
    else if |ts| == 1 then ts[0]
    else ts[0] + (" " + Join(ts[1..]))
  }

  lemma {:induction false} FieldsWord(s: string, i: nat, n: nat, cur: string)
    requires i + n <= |s| && forall k :: i <= k < i + n ==> !IsSpace(s[k])
    ensures Fields(s, i, cur) == Fields(s, i + n, cur + s[i..i + n])
    decreases n
  {
    if n == 0 {
      assert cur + s[i..i] == cur;
    } else {
      FieldsWord(s, i + 1, n - 1, cur + [s[i]]);
      assert cur + [s[i]] + s[i + 1..i + n] == cur + s[i..i + n];
    }
  }

  lemma {:induction false} FieldsJoin(s: string, i: nat, ts: seq<string>)
    requires i <= |s| && s[i..] == Join(ts)
    requires forall k :: 0 <= k < |ts| ==> IsToken(ts[k])
    ensures Fields(s, i, []) == ts
    decreases ts
  {
    if ts == [] {
      assert i == |s|;
    } else {
      var t := ts[0];
      if |ts| == 1 {
        assert s[i..i + |t|] == s[i..];
        FieldsFirstWord(s, i, t);
      } else {
        FieldsAfterWord(s, i, t, Join(ts[1..]));
        FieldsFirstWord(s, i, t);
        FieldsJoin(s, i + |t| + 1, ts[1..]);
      }
    }
  }

  lemma FieldsFirstWord(s: string, i: nat, t: string)
    requires IsToken(t) && i + |t| <= |s| && s[i..i + |t|] == t
    ensures Fields(s, i, []) == Fields(s, i + |t|, t)
  {
    forall k | i <= k < i + |t| ensures !IsSpace(s[k]) {
      assert s[k] == s[i..i + |t|][k - i];
    }
    FieldsWord(s, i, |t|, []);
    assert [] + s[i..i + |t|] == t;
  }

  lemma FieldsAfterWord(s: string, i: nat, t: string, rest: string)
    requires IsToken(t) && i <= |s| && s[i..] == t + (" " + rest)
    ensures s[i..i + |t|] == t
    ensures Fields(s, i + |t|, t) == [t] + Fields(s, i + |t| + 1, [])
    ensures s[i + |t| + 1..] == rest
  {
    assert s[i..i + |t|] == s[i..][..|t|];
    assert s[i + |t|] == s[i..][|t|] == ' ';
    assert s[i + |t| + 1..] == s[i..][|t| + 1..];
  }

  lemma CleanTokenText(s: string)
    requires forall k :: 0 <= k < |s| ==> IsLowerAlnum(s[k]) || s[k] == ' '
    ensures Clean(s) == s
  {
  }

  lemma {:induction false} JoinChars(ts: seq<string>)
    requires forall k :: 0 <= k < |ts| ==> IsToken(ts[k])
    ensures forall k :: 0 <= k < |Join(ts)| ==> IsLowerAlnum(Join(ts)[k]) || Join(ts)[k] == ' '
  {
    if |ts| > 1 {
      JoinChars(ts[1..]);
      var t, rest := ts[0], Join(ts[1..]);
      forall k | 0 <= k < |t + " " + rest| ensures IsLowerAlnum((t + " " + rest)[k]) || (t + " " + rest)[k] == ' ' {
        if k < |t| {
          assert (t + " " + rest)[k] == t[k];
        } else if k > |t| {
          assert (t + " " + rest)[k] == rest[k - |t| - 1];
        }
      }
    }
  }

  /** Round trip: tokens written out with single spaces are tokenized back to themselves. */
  lemma TokenizeJoin(ts: seq<string>)
    requires forall k :: 0 <= k < |ts| ==> IsToken(ts[k])
    ensures Tokenize(Join(ts)) == ts
  {
    JoinChars(ts);
    CleanTokenText(Join(ts));
    FieldsJoin(Join(ts), 0, ts);
  }

  /** Tokenizing is idempotent on its own output, written out with spaces. */
  lemma TokenizeIdempotent(s: string)
    ensures Tokenize(Join(Tokenize(s))) == Tokenize(s)
  {
    TokenizeJoin(Tokenize(s));
  }

  // ---------------------------------------------------------------------------
  // extractNumericTokens: the unit pattern
  //   (\d+[\d\.,]*\s?(?:oz|ounce|fl\s?oz|lb|lbs|pound|ct|count|pk|pack|g|kg|l|ml|quart|qt|pt|liter|litre|dozen|dz))\b

  /** One alternative of the unit group; `fl\s?oz` is the only one that is not a plain word. */
  datatype Unit = Word(w: string) | FlOz

  predicate WellFormedUnit(u: Unit) {
    u.FlOz? || (|u.w| >= 1 && IsLowerLetter(u.w[0]) && IsLowerLetter(u.w[|u.w| - 1]))
  }

  /** A list of alternatives, each a non-empty word of lower-case letters or `fl\s?oz`. */
  type UnitTable = us: seq<Unit> | forall k :: 0 <= k < |us| ==> WellFormedUnit(us[k])

  // The unit alternatives, in the order the pattern lists them, in four runs.
  const MassUnits: UnitTable := [Word("oz"), Word("ounce"), FlOz, Word("lb"), Word("lbs"), Word("pound")]
  const CountUnits: UnitTable := [Word("ct"), Word("count"), Word("pk"), Word("pack")]
  const MetricUnits: UnitTable := [Word("g"), Word("kg"), Word("l"), Word("ml")]
  const OtherUnits: UnitTable := [Word("quart"), Word("qt"), Word("pt"), Word("liter"), Word("litre"), Word("dozen"), Word("dz")]
  const UnitAlternatives: UnitTable := MassUnits + CountUnits + MetricUnits + OtherUnits

  predicate IsLowerLetter(c: char) {
    'a' <= c <= 'z'
  }

  /** `\b` right after a word character: the end of the text or a non-word character. */
  predicate EndsWord(t: string, x: nat) {
    x == |t| || (x < |t| && !IsWordChar(t[x]))
  }

  /** Where unit `u` followed by `\b` ends when it is tried at `q`; `\s?` in `fl\s?oz` first tries one whitespace. */
  function UnitEnd(t: string, q: nat, u: Unit): (r: Option<nat>)
    requires WellFormedUnit(u)
    ensures r.Some? ==> q < r.value <= |t| && IsLowerLetter(t[r.value - 1]) && EndsWord(t, r.value)
    ensures r.Some? ==> IsLowerLetter(t[q])
  {
    match u
    case Word(w) =>
      if OccursAt(t, w, q) && EndsWord(t, q + |w|) then
        assert t[q + |w| - 1] == t[q..q + |w|][|w| - 1] && t[q] == t[q..q + |w|][0];
        Some(q + |w|)
      else None
    case FlOz =>
      if q + 5 <= |t| && t[q] == 'f' && t[q + 1] == 'l' && IsSpace(t[q + 2]) && t[q + 3] == 'o' && t[q + 4] == 'z'
         && EndsWord(t, q + 5) then Some(q + 5)
      else if q + 4 <= |t| && t[q] == 'f' && t[q + 1] == 'l' && t[q + 2] == 'o' && t[q + 3] == 'z'
         && EndsWord(t, q + 4) then Some(q + 4)
      else None
  }

  /** The alternation: the first unit, from the `k`-th on, that matches at `q` and is followed by `\b`. */
  function FirstUnitEnd(t: string, q: nat, units: UnitTable, k: nat): (r: Option<nat>)
    requires k <= |units|
    ensures r.Some? ==> q < r.value <= |t| && IsLowerLetter(t[r.value - 1]) && EndsWord(t, r.value)
    ensures r.Some? ==> IsLowerLetter(t[q])
    decreases |units| - k
  {
    if k == |units| then None
    else
      match UnitEnd(t, q, units[k])
      case Some(e) => Some(e)
      case None => FirstUnitEnd(t, q, units, k + 1)
  }

  /** `\s?` then the unit group, after the number ends at `e`: with the whitespace first, then without. */
  function AfterNumber(t: string, e: nat, units: UnitTable): (r: Option<nat>)
    requires e <= |t|
    ensures r.Some? ==> e < r.value <= |t| && IsLowerLetter(t[r.value - 1])
  {
    if e < |t| && IsSpace(t[e]) then
      match FirstUnitEnd(t, e + 1, units, 0)
      case Some(x) => Some(x)
      case None => FirstUnitEnd(t, e, units, 0)
    else FirstUnitEnd(t, e, units, 0)
  }

  predicate IsNumChar(c: char) {
    IsDigit(c) || c == '.' || c == ','
  }

  /** The length of the run of `[\d\.,]` characters at `i`. */
  function NumRun(t: string, i: nat): (n: nat)
    requires i <= |t|
    ensures i + n <= |t|
    ensures i + n < |t| ==> !IsNumChar(t[i + n])
    decreases |t| - i
  {
    if i < |t| && IsNumChar(t[i]) then 1 + NumRun(t, i + 1) else 0
  }

  /**
   * `\d+[\d\.,]*` takes every numeric character it can and gives them back one
   * at a time: the prefix lengths are tried from `len` down to 1.
   */
  function TryLengths(t: string, p: nat, len: nat, units: UnitTable): (r: Option<nat>)
    requires p + len <= |t|
    ensures r.Some? ==> p < r.value <= |t| && IsLowerLetter(t[r.value - 1])
    decreases len
  {
    if len == 0 then None
    else
      match AfterNumber(t, p + len, units)
      case Some(e) => Some(e)
      case None => TryLengths(t, p, len - 1, units)
  }

  /** Where a match of the unit pattern that starts at `p` ends, if there is one. */
  function UnitMatchAt(t: string, p: nat, units: UnitTable): (r: Option<nat>)
    requires p <= |t|
    ensures r.Some? ==> p < r.value <= |t| && IsLowerLetter(t[r.value - 1])
  {
    if p < |t| && IsDigit(t[p]) then TryLengths(t, p, NumRun(t, p), units) else None
  }

  /** `unitRegex.exec(text)` with `lastIndex == from`: the leftmost match at or after `from`, as (start, end). */
  function NextUnitMatch(t: string, from: nat, units: UnitTable): (r: Option<(nat, nat)>)
    requires from <= |t|
    ensures r.Some? ==> from <= r.value.0 < r.value.1 <= |t| && UnitMatchAt(t, r.value.0, units) == Some(r.value.1)
    decreases |t| - from
  {
    if from == |t| then None
    else
      match UnitMatchAt(t, from, units)
      case Some(e) => Some((from, e))
      case None => NextUnitMatch(t, from + 1, units)
  }

  /** The tokens of the `while (exec)` loop from `lastIndex == from` on: each match with its whitespace deleted. */
  function UnitTokens(t: string, from: nat, units: UnitTable): seq<string>
    requires from <= |t|
    decreases |t| - from
  {
    match NextUnitMatch(t, from, units)
    case None => []
    case Some((p, e)) => [RemoveSpaces(t[p..e])] + UnitTokens(t, e, units)
  }

  // ---------------------------------------------------------------------------
  // extractNumericTokens: the bare numbers, /\b\d{1,3}\b/g

  /** `\b` before a digit at `p`: the start of the text or a non-word character before it. */
  predicate StartsWord(t: string, p: nat) {
    p == 0 || (p <= |t| && !IsWordChar(t[p - 1]))
  }

  /** `\d{1,3}` gives back digits until `\b` holds: the lengths are tried from `len` down to 1. */
  function TryDigits(t: string, p: nat, len: nat): (r: Option<nat>)
    requires p + len <= |t|
    ensures r.Some? ==> p < r.value <= p + len
    decreases len
  {
    if len == 0 then None
    else if EndsWord(t, p + len) then Some(p + len)
    else TryDigits(t, p, len - 1)
  }

  /** Where a match of `\b\d{1,3}\b` that starts at `p` ends, if there is one. */
  function BareNumberAt(t: string, p: nat): (r: Option<nat>)
    requires p <= |t|
    ensures r.Some? ==> p < r.value <= |t|
  {
    if p < |t| && IsDigit(t[p]) && StartsWord(t, p) then TryDigits(t, p, PriceParser.LeadingDigits(t, p, 3))
    else None
  }

  function NextBareNumber(t: string, from: nat): (r: Option<(nat, nat)>)
    requires from <= |t|
    ensures r.Some? ==> from <= r.value.0 < r.value.1 <= |t| && BareNumberAt(t, r.value.0) == Some(r.value.1)
    decreases |t| - from
  {
    if from == |t| then None
    else
      match BareNumberAt(t, from)
      case Some(e) => Some((from, e))
      case None => NextBareNumber(t, from + 1)
  }

  /** `text.match(/\b\d{1,3}\b/g) || []` from index `from` on. */
  function BareNumbers(t: string, from: nat): seq<string>
    requires from <= |t|
    decreases |t| - from
  {
    match NextBareNumber(t, from)
    case None => []
    case Some((p, e)) => [t[p..e]] + BareNumbers(t, e)
  }

  // ---------------------------------------------------------------------------
  // extractNumericTokens: assembling the list

  /** Appends each number in turn, unless the list already holds it (line 307). */
  function AppendAbsent(acc: seq<string>, nums: seq<string>): seq<string>
    decreases |nums|
  {
    if nums == [] then acc
    else AppendAbsent(if nums[0] in acc then acc else acc + [nums[0]], nums[1..])
  }

  /** `extractNumericTokens(s)`: the unit tokens in order, then the bare numbers not yet listed. */
  function NumericTokens(s: string): seq<string> {
    var text := Lower(s);
    AppendAbsent(UnitTokens(text, 0, UnitAlternatives), BareNumbers(text, 0))
  }

  /** The `while ((m = unitRegex.exec(text)) !== null)` loop: each match, its whitespace deleted, in order. */
  method CollectUnitTokens(text: string, units: UnitTable) returns (tokens: seq<string>)
    ensures tokens == UnitTokens(text, 0, units)
  {
    tokens := [];
    var lastIndex := 0;
    var m := NextUnitMatch(text, 0, units);
    while m.Some?
      invariant lastIndex <= |text|
      invariant m == NextUnitMatch(text, lastIndex, units)
      invariant tokens + UnitTokens(text, lastIndex, units) == UnitTokens(text, 0, units)
      decreases |text| - lastIndex
    {
      var (p, e) := m.value;
      UnitTokensStep(text, lastIndex, units);
      tokens := tokens + [RemoveSpaces(text[p..e])];
      lastIndex := e;
      m := NextUnitMatch(text, lastIndex, units);
    }
  }

  /** The `for (const n of nums)` loop: each number not yet listed is pushed. */
  method PushAbsent(acc: seq<string>, nums: seq<string>) returns (tokens: seq<string>)
    ensures tokens == AppendAbsent(acc, nums)
  {
    tokens := acc;
    assert nums[0..] == nums;
    for i := 0 to |nums|
      invariant AppendAbsent(tokens, nums[i..]) == AppendAbsent(acc, nums)
    {
      AppendAbsentStep(tokens, nums, i);
      if nums[i] !in tokens {
        tokens := tokens + [nums[i]];
      }
    }
  }

  method ExtractNumericTokens(s: string) returns (tokens: seq<string>)
    ensures tokens == NumericTokens(s)
  {
    var text := Lower(s);
    tokens := CollectUnitTokens(text, UnitAlternatives);
    tokens := PushAbsent(tokens, BareNumbers(text, 0));
  }

  lemma UnitTokensStep(t: string, from: nat, units: UnitTable)
    requires from <= |t| && NextUnitMatch(t, from, units).Some?
    ensures var (p, e) := NextUnitMatch(t, from, units).value;
      UnitTokens(t, from, units) == [RemoveSpaces(t[p..e])] + UnitTokens(t, e, units)
  {
  }

  lemma AppendAbsentStep(acc: seq<string>, nums: seq<string>, i: nat)
    requires i < |nums|
    ensures AppendAbsent(acc, nums[i..])
      == AppendAbsent(if nums[i] in acc then acc else acc + [nums[i]], nums[i + 1..])
  {
    assert nums[i..][0] == nums[i];
    assert nums[i..][1..] == nums[i + 1..];
  }

  // ---------------------------------------------------------------------------
  // Backtracking never pays off: only the longest prefix can match

  lemma {:induction false} NumRunChars(t: string, i: nat)
    requires i <= |t|
    ensures forall k :: i <= k < i + NumRun(t, i) ==> IsNumChar(t[k])
    decreases |t| - i
  {
    if i < |t| && IsNumChar(t[i]) {
      NumRunChars(t, i + 1);
    }
  }

  /** A unit word starts with a letter, so none can follow a numeric character that is still unread. */
  lemma InsideNumberNoUnit(t: string, x: nat, units: UnitTable)
    requires x < |t| && IsNumChar(t[x])
    ensures AfterNumber(t, x, units) == None
  {
  }

  lemma TryLengthsUnfold(t: string, p: nat, len: nat, units: UnitTable)
    requires 0 < len && p + len <= |t|
    ensures TryLengths(t, p, len, units) == if AfterNumber(t, p + len, units).Some? then AfterNumber(t, p + len, units) else TryLengths(t, p, len - 1, units)
  {
  }

  lemma {:induction false} TryLengthsShort(t: string, p: nat, len: nat, units: UnitTable)
    requires p + len < |t|
    requires forall m :: p < m <= p + len ==> IsNumChar(t[m])
    ensures TryLengths(t, p, len, units) == None
    decreases len
  {
    if len > 0 {
      InsideNumberNoUnit(t, p + len, units);
      TryLengthsUnfold(t, p, len, units);
      TryLengthsShort(t, p, len - 1, units);
    }
  }

  /** The unit pattern at `p` succeeds exactly when a unit follows the whole run of numeric characters. */
  lemma UnitMatchAtLongest(t: string, p: nat, units: UnitTable)
    requires p <= |t|
    ensures UnitMatchAt(t, p, units) == if p < |t| && IsDigit(t[p]) then AfterNumber(t, p + NumRun(t, p), units) else None
  {
    if p < |t| && IsDigit(t[p]) {
      var n := NumRun(t, p);
      UnitMatchAtDef(t, p, units);
      ShorterPrefixesFail(t, p, units);
      TryLengthsUnfold(t, p, n, units);
    }
  }

  lemma UnitMatchAtDef(t: string, p: nat, units: UnitTable)
    requires p < |t| && IsDigit(t[p])
    ensures NumRun(t, p) > 0 && UnitMatchAt(t, p, units) == TryLengths(t, p, NumRun(t, p), units)
  {
  }

  lemma ShorterPrefixesFail(t: string, p: nat, units: UnitTable)
    requires p < |t| && IsDigit(t[p])
    ensures NumRun(t, p) > 0 && TryLengths(t, p, NumRun(t, p) - 1, units) == None
  {
    NumRunChars(t, p);
    TryLengthsShort(t, p, NumRun(t, p) - 1, units);
  }

  lemma {:induction false} TryDigitsShort(t: string, p: nat, len: nat)
    requires p + len < |t|
    requires forall m :: p < m <= p + len ==> IsDigit(t[m])
    ensures TryDigits(t, p, len) == None
    decreases len
  {
    if len > 0 {
      TryDigitsShort(t, p, len - 1);
    }
  }

  /** `\b\d{1,3}\b` at `p` succeeds exactly when the greedy run of at most three digits ends a word. */
  lemma BareNumberAtLongest(t: string, p: nat)
    requires p <= |t|
    ensures var d := PriceParser.LeadingDigits(t, p, 3);
      BareNumberAt(t, p) == if p < |t| && IsDigit(t[p]) && StartsWord(t, p) && EndsWord(t, p + d) then Some(p + d) else None
  {
    if p < |t| && IsDigit(t[p]) && StartsWord(t, p) {
      var d := PriceParser.LeadingDigits(t, p, 3);
      PriceParser.LeadingDigitsAreDigits(t, p, 3);
      if !EndsWord(t, p + d) {
        TryDigitsShort(t, p, d - 1);
      }
    }
  }

  // ---------------------------------------------------------------------------
  // What the numeric tokens look like

  /** A bare number: one to three digits. */
  predicate IsBareNumber(n: string) {
    1 <= |n| <= 3 && forall k :: 0 <= k < |n| ==> IsDigit(n[k])
  }

  /** A unit token: starts with a digit, ends with a unit letter, has no whitespace. */
  predicate IsUnitToken(x: string) {
    |x| >= 2 && IsDigit(x[0]) && IsLowerLetter(x[|x| - 1]) && forall k :: 0 <= k < |x| ==> !IsSpace(x[k])
  }

  /** A unit token always ends with a letter, so it is never mistaken for a bare number. */
  lemma UnitTokenIsNotBareNumber(x: string)
    requires IsUnitToken(x)
    ensures !IsBareNumber(x)
  {
  }

  lemma CondensedEnds(x: string)
    requires |x| >= 2 && IsDigit(x[0]) && IsLowerLetter(x[|x| - 1])
    ensures IsUnitToken(RemoveSpaces(x))
  {
    var init, last := x[..|x| - 1], x[|x| - 1];
    assert x == init + [last];
    KeepsFirst(init);
    KeepsLast(init, last);
    DigitThenLetter(RemoveSpaces(init), last);
  }

  lemma DigitThenLetter(a: string, last: char)
    requires a != [] && IsDigit(a[0]) && IsLowerLetter(last)
    requires forall i :: 0 <= i < |a| ==> !IsSpace(a[i])
    ensures IsUnitToken(a + [last])
  {
    assert !IsSpace(last);
  }

  lemma KeepsFirst(s: string)
    requires s != [] && !IsSpace(s[0])
    ensures RemoveSpaces(s) != [] && RemoveSpaces(s)[0] == s[0]
  {
    assert RemoveSpaces(s) == [s[0]] + RemoveSpaces(s[1..]);
  }

  lemma KeepsLast(s: string, c: char)
    requires !IsSpace(c)
    ensures RemoveSpaces(s + [c]) == RemoveSpaces(s) + [c]
  {
    RemoveSpacesAppend(s, [c]);
    assert RemoveSpaces([c]) == [c] + RemoveSpaces([]);
  }

  lemma UnitMatchToken(t: string, p: nat, units: UnitTable)
    requires p <= |t| && UnitMatchAt(t, p, units).Some?
    ensures IsUnitToken(RemoveSpaces(t[p..UnitMatchAt(t, p, units).value]))
  {
    var e := UnitMatchAt(t, p, units).value;
    var x := t[p..e];
    assert x[0] == t[p] && x[|x| - 1] == t[e - 1];
    CondensedEnds(x);
  }

  lemma {:induction false} UnitTokensShape(t: string, from: nat, units: UnitTable)
    requires from <= |t|
    ensures forall k :: 0 <= k < |UnitTokens(t, from, units)| ==> IsUnitToken(UnitTokens(t, from, units)[k])
    decreases |t| - from
  {
    var m := NextUnitMatch(t, from, units);
    if m.Some? {
      var (p, e) := m.value;
      UnitMatchToken(t, p, units);
      UnitTokensShape(t, e, units);
    }
  }

  lemma BareMatchToken(t: string, p: nat)
    requires p <= |t| && BareNumberAt(t, p).Some?
    ensures IsBareNumber(t[p..BareNumberAt(t, p).value])
  {
    BareNumberAtLongest(t, p);
    PriceParser.LeadingDigitsAreDigits(t, p, 3);
    var e := BareNumberAt(t, p).value;
    forall k | 0 <= k < e - p ensures IsDigit(t[p..e][k]) {
      assert t[p..e][k] == t[p + k];
    }
  }

  lemma {:induction false} BareNumbersShape(t: string, from: nat)
    requires from <= |t|
    ensures forall k :: 0 <= k < |BareNumbers(t, from)| ==> IsBareNumber(BareNumbers(t, from)[k])
    decreases |t| - from
  {
    var m := NextBareNumber(t, from);
    if m.Some? {
      var (p, e) := m.value;
      BareMatchToken(t, p);
      BareNumbersShape(t, e);
    }
  }

  /**
   * `AppendAbsent` keeps the list it starts from as a prefix, appends only
   * numbers that are not yet listed, each once, and leaves none of them out.
   */
  lemma {:induction false} AppendAbsentSpec(acc: seq<string>, nums: seq<string>)
    ensures var r := AppendAbsent(acc, nums);
      && |acc| <= |r| && r[..|acc|] == acc
      && (forall k :: |acc| <= k < |r| ==> r[k] in nums && r[k] !in r[..k])
      && (forall n :: n in nums ==> n in r)
    decreases |nums|
  {
    if nums != [] {
      var n := nums[0];
      var acc' := if n in acc then acc else acc + [n];
      AppendAbsentSpec(acc', nums[1..]);
      var r := AppendAbsent(acc, nums);
      assert r == AppendAbsent(acc', nums[1..]);
      assert r[..|acc|] == r[..|acc'|][..|acc|] == acc;
      assert n in r by {
        if n in acc {
          var j :| 0 <= j < |acc| && acc[j] == n;
          assert r[j] == r[..|acc|][j];
        } else {
          assert r[|acc|] == r[..|acc'|][|acc|] == n;
        }
      }
      forall k | |acc| <= k < |r| ensures r[k] in nums && r[k] !in r[..k] {
        if k < |acc'| {
          assert r[k] == acc'[k] == n;
          assert r[..k] == acc;
        } else {
          assert r[k] in nums[1..];
        }
      }
      forall x | x in nums ensures x in r {
        if x != n {
          assert x in nums[1..];
        }
      }
    }
  }

  /**
   * `extractNumericTokens`: every unit-tagged match comes first, in text
   * order and with its duplicates kept; after them come the bare one-to-three
   * digit numbers, each at most once and never one already listed; and every
   * bare number of the text is listed.
   */
  lemma NumericTokensShape(s: string)
    ensures var t := Lower(s);
      var tagged, r := UnitTokens(t, 0, UnitAlternatives), NumericTokens(s);
      && |tagged| <= |r| && r[..|tagged|] == tagged
      && (forall k :: 0 <= k < |tagged| ==> IsUnitToken(r[k]))
      && (forall k :: |tagged| <= k < |r| ==> IsBareNumber(r[k]) && r[k] !in r[..k])
      && (forall n :: n in BareNumbers(t, 0) ==> n in r)
  {
    var t := Lower(s);
    var tagged, nums := UnitTokens(t, 0, UnitAlternatives), BareNumbers(t, 0);
    var r := NumericTokens(s);
    AppendAbsentSpec(tagged, nums);
    UnitTokensShape(t, 0, UnitAlternatives);
    BareNumbersShape(t, 0);
    forall k | 0 <= k < |tagged| ensures IsUnitToken(r[k]) {
      assert r[k] == r[..|tagged|][k] == tagged[k];
    }
    forall k | |tagged| <= k < |r| ensures IsBareNumber(r[k]) {
      var j :| 0 <= j < |nums| && nums[j] == r[k];
    }
  }

  // ---------------------------------------------------------------------------
  // guessBrandToken

  const StopWords: set<string> := {"the", "and", "with", "for", "of", "in", "to", "a", "an", "by", "on", "at", "from", "new"}

  /** Not a stop word, does not start with a digit (`/^\d/`), at least three characters long. */
  predicate QualifiesAsBrand(t: string) {
    t !in StopWords && !(|t| > 0 && IsDigit(t[0])) && |t| >= 3
  }

  /** `guessBrandToken(tokens)`: the first token that can be a brand name. */
  function GuessBrandToken(tokens: seq<string>): (r: Option<string>)
    ensures r.Some? ==> r.value in tokens && QualifiesAsBrand(r.value)
  {
    if tokens == [] then None
    else if QualifiesAsBrand(tokens[0]) then Some(tokens[0])
    else GuessBrandToken(tokens[1..])
  }

  /** No brand is guessed exactly when no token qualifies; otherwise the guess is the first one that does. */
  lemma {:induction false} GuessBrandTokenIsFirst(tokens: seq<string>)
    ensures GuessBrandToken(tokens).None? <==> forall k :: 0 <= k < |tokens| ==> !QualifiesAsBrand(tokens[k])
    ensures GuessBrandToken(tokens).Some? ==>
      exists k :: 0 <= k < |tokens| && tokens[k] == GuessBrandToken(tokens).value
        && forall j :: 0 <= j < k ==> !QualifiesAsBrand(tokens[j])
  {
    if tokens != [] && !QualifiesAsBrand(tokens[0]) {
      GuessBrandTokenIsFirst(tokens[1..]);
      if GuessBrandToken(tokens[1..]).Some? {
        var k :| 0 <= k < |tokens[1..]| && tokens[1..][k] == GuessBrandToken(tokens[1..]).value
          && forall j :: 0 <= j < k ==> !QualifiesAsBrand(tokens[1..][j]);
        assert tokens[k + 1] == tokens[1..][k];
        assert forall j :: 0 <= j < k + 1 ==> !QualifiesAsBrand(tokens[j]) by {
          forall j | 0 <= j < k + 1 ensures !QualifiesAsBrand(tokens[j]) {
            if j > 0 {
              assert tokens[j] == tokens[1..][j - 1];
            }
          }
        }
      } else {
        forall k | 0 <= k < |tokens| ensures !QualifiesAsBrand(tokens[k]) {
          if k > 0 {
            assert tokens[k] == tokens[1..][k - 1];
          }
        }
      }
    }
  }

  /**
   * An illustration of the skip rules on one input: a stop word, a token that
   * starts with a digit, then the brand. `GuessBrandTokenIsFirst` states the
   * rule for every input.
   */
  lemma GuessBrandTokenExample()
    ensures GuessBrandToken(["the", "12oz", "kroger", "milk"]) == Some("kroger")
  {
  }
}
