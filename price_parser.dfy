/**
 * The price-text parser that `scrapeFirstPrice` and `scrapeCandidatesFromSearch`
 * both apply to an element's raw text: trim, delete all whitespace, take the
 * leftmost match of
 *
 *     \$?\d{1,3}(?:,\d{3})*(?:\.\d{1,2})?  |  \$\d+(?:\.\d{1,2})?
 *
 * and put a `$` in front when the match has none; otherwise, when the text has
 * a digit, the whole condensed text with a `$` in front; otherwise no price.
 *
 * The regular expression is modelled piece by piece, each piece matched at a
 * position of the string, with the greedy choices a backtracking matcher makes.
 * The main results: the match always starts at the first digit of the
 * condensed text (MatchPriceIsPriceAtFirstDigit), so the digit-only fallback
 * can never be reached and the second alternative never wins; every result is
 * `$` followed by a complete grouped amount (IsCanonicalPrice); parsing a
 * result again gives it back (ParsePriceIdempotent); and an amount written
 * out in the grouped format is read back verbatim (PriceRoundTrip).
 */
module PriceParser {
  import opened Wrappers
  import opened Chars

  // ---------------------------------------------------------------------------
  // The pieces of the regular expression, each matched at position i of s

  /** Greedy `\d{1,max}`: the number of digits at `i`, at most `max` (0 when it fails). */
  function LeadingDigits(s: string, i: nat, max: nat): (n: nat)
    requires i <= |s|
    ensures n <= max && i + n <= |s|
    ensures n < max && i + n < |s| ==> !IsDigit(s[i + n])
    decreases max
  {
    if max == 0 || i == |s| || !IsDigit(s[i]) then 0 else 1 + LeadingDigits(s, i + 1, max - 1)
  }

  /** One iteration of `(?:,\d{3})` matches at `i`. */
  predicate GroupAt(s: string, i: nat) {
    i + 4 <= |s| && s[i] == ',' && IsDigit(s[i + 1]) && IsDigit(s[i + 2]) && IsDigit(s[i + 3])
  }

  /** Greedy `(?:,\d{3})*`: as many thousands groups as follow `i`. */
  function GroupsLen(s: string, i: nat): (n: nat)
    requires i <= |s|
    ensures i + n <= |s|
    ensures !GroupAt(s, i + n)
    decreases |s| - i
  {
    if GroupAt(s, i) then 4 + GroupsLen(s, i + 4) else 0
  }

  /** Greedy `(?:\.\d{1,2})?`: a decimal point and one or two decimals, when present. */
  function DecimalLen(s: string, i: nat): (n: nat)
    requires i <= |s|
    ensures i + n <= |s| && n <= 3
    ensures n > 0 ==> s[i] == '.'
  {
    if i + 2 <= |s| && s[i] == '.' && IsDigit(s[i + 1]) then 1 + LeadingDigits(s, i + 1, 2) else 0
  }

  /** `\d{1,3}(?:,\d{3})*(?:\.\d{1,2})?` at `i`; 0 when there is no digit at `i`. */
  function AmountLen(s: string, i: nat): (n: nat)
    requires i <= |s|
    ensures i + n <= |s|
    ensures n > 0 <==> i < |s| && IsDigit(s[i])
  {
    var d := LeadingDigits(s, i, 3);
    if d == 0 then 0
    else
      var g := GroupsLen(s, i + d);
      d + g + DecimalLen(s, i + d + g)
  }

  /** The first alternative, `\$?` then the grouped amount; 0 when it fails. */
  function Alt1Len(s: string, i: nat): (n: nat)
    requires i <= |s|
    ensures i + n <= |s|
  {
    // `\$?` is greedy: the `$` is kept when a digit follows it; when none does
    // the matcher backtracks to an empty `\$?` and then needs a digit at once
    if i + 2 <= |s| && s[i] == '$' && IsDigit(s[i + 1]) then 1 + AmountLen(s, i + 1) else AmountLen(s, i)
  }

  /** The second alternative, `\$\d+(?:\.\d{1,2})?`; 0 when it fails. */
  function Alt2Len(s: string, i: nat): (n: nat)
    requires i <= |s|
    ensures i + n <= |s|
  {
    if i + 2 <= |s| && s[i] == '$' && IsDigit(s[i + 1]) then
      var d := LeadingDigits(s, i + 1, |s| - i - 1);
      1 + d + DecimalLen(s, i + 1 + d)
    else 0
  }

  /** The alternation at `i`: the second alternative is tried only when the first fails. */
  function MatchLen(s: string, i: nat): (n: nat)
    requires i <= |s|
    ensures i + n <= |s|
  {
    if Alt1Len(s, i) > 0 then Alt1Len(s, i) else Alt2Len(s, i)
  }

  /** Where `String.prototype.match` without the `g` flag finds its match: the leftmost position that has one. */
  function LeftmostStart(s: string, from: nat): (r: Option<nat>)
    ensures r.Some? ==> from <= r.value < |s| && MatchLen(s, r.value) > 0
    decreases |s| - from
  {
    if from >= |s| then None
    else if MatchLen(s, from) > 0 then Some(from)
    else LeftmostStart(s, from + 1)
  }

  /** The matched text. */
  function LeftmostMatch(s: string): Option<string> {
    match LeftmostStart(s, 0)
    case Some(i) => Some(s[i..i + MatchLen(s, i)])
    case None => None
  }

  /** The text with a `$` in front, unless it already starts with one (line 227). */
  function Dollar(m: string): string {
    if m != [] && m[0] == '$' then m else "$" + m
  }

  /** The match, and the digit-only fallback, applied to the condensed text. */
  function MatchPrice(condensed: string): Option<string> {
    match LeftmostMatch(condensed)
    case Some(m) => Some(Dollar(m))
    case None => if HasDigit(condensed) then Some(Dollar(condensed)) else None
  }

  // ---------------------------------------------------------------------------
  // Reference definition and the parser

  /** Index of the first digit of `s` at or after `i`. */
  function FirstDigitFrom(s: string, i: nat): (k: nat)
    requires i <= |s| && exists j :: i <= j < |s| && IsDigit(s[j])
    ensures i <= k < |s| && IsDigit(s[k])
    ensures forall j :: i <= j < k ==> !IsDigit(s[j])
    decreases |s| - i
  {
    if IsDigit(s[i]) then i else FirstDigitFrom(s, i + 1)
  }

  /** Index of the first digit of `s`. */
  function FirstDigit(s: string): (k: nat)
    requires HasDigit(s)
    ensures k < |s| && IsDigit(s[k])
    ensures forall j :: 0 <= j < k ==> !IsDigit(s[j])
  {
    FirstDigitFrom(s, 0)
  }

  /** A canonical price: a `$` followed by a complete grouped amount and nothing else. */
  predicate IsCanonicalPrice(p: string) {
    |p| >= 2 && p[0] == '$' && 1 + AmountLen(p, 1) == |p|
  }

  /** Reference definition: `$` and the grouped amount that starts at the first digit. */
  function PriceAtFirstDigit(c: string): Option<string> {
    if HasDigit(c) then
      var k := FirstDigit(c);
      Some("$" + c[k..k + AmountLen(c, k)])
    else None
  }

  /**
   * The price that an element's raw text (its `content` attribute or its text)
   * yields: nothing when the trimmed text is empty; otherwise the match, with
   * the fallback, on the text with every whitespace character deleted.
   */
  function ParsePrice(raw: string): (r: Option<string>)
    ensures r == PriceAtFirstDigit(RemoveSpaces(raw))
    ensures r.None? <==> !HasDigit(raw)
    ensures r.Some? ==> IsCanonicalPrice(r.value)
  {
    TrimThenRemoveSpaces(raw);
    RemoveSpacesKeepsDigits(raw);
    var t := Trim(raw);
    if t == [] then None
    else
      MatchPriceIsPriceAtFirstDigit(RemoveSpaces(t));
      PriceAtFirstDigitIsCanonical(RemoveSpaces(t));
      MatchPrice(RemoveSpaces(t))
  }

  // ---------------------------------------------------------------------------
  // The regular expression against the reference definition

  /** The second alternative can only match where the first one does, so it never decides a match. */
  lemma SecondAlternativeShadowed(s: string, i: nat)
    requires i <= |s|
    ensures Alt2Len(s, i) > 0 ==> Alt1Len(s, i) > 0
    ensures MatchLen(s, i) == Alt1Len(s, i)
  {
  }

  /** Neither alternative matches at a position that is not a digit and not a `$` right before one. */
  lemma NoMatchBeforeDigit(s: string, i: nat)
    requires i < |s| && !IsDigit(s[i])
    requires !(i + 1 < |s| && s[i] == '$' && IsDigit(s[i + 1]))
    ensures MatchLen(s, i) == 0
  {
  }

  lemma {:induction false} NoDigitNoMatch(s: string, from: nat)
    requires !HasDigit(s)
    ensures LeftmostStart(s, from).None?
    decreases |s| - from
  {
    if from < |s| {
      NoMatchBeforeDigit(s, from);
      NoDigitNoMatch(s, from + 1);
    }
  }

  /** No match of either alternative starts in `s[lo..hi]`. */
  predicate NoMatchBetween(s: string, lo: nat, hi: nat)
    requires hi <= |s|
    decreases hi - lo
  {
    lo >= hi || (MatchLen(s, lo) == 0 && NoMatchBetween(s, lo + 1, hi))
  }

  /** The search for the leftmost match passes over positions where none starts. */
  lemma {:induction false} SkipNoMatch(s: string, from: nat, i: nat)
    requires from <= i <= |s| && NoMatchBetween(s, from, i)
    ensures LeftmostStart(s, from) == LeftmostStart(s, i)
    decreases i - from
  {
    if from < i {
      StartSkip(s, from);
      SkipNoMatch(s, from + 1, i);
    }
  }

  /**
   * Before the first digit nothing matches, up to the digit or up to the `$`
   * right before it.
   */
  lemma {:induction false} NoMatchBeforeFirstDigit(s: string, from: nat, b: nat)
    requires from <= b < |s| && forall j :: from <= j < b ==> !IsDigit(s[j])
    requires from < b ==> !(s[b - 1] == '$' && IsDigit(s[b]))
    ensures NoMatchBetween(s, from, b)
    decreases b - from
  {
    if from < b {
      NoMatchBeforeDigit(s, from);
      NoMatchBeforeFirstDigit(s, from + 1, b);
    }
  }

  lemma StartSkip(s: string, i: nat)
    requires i < |s| && MatchLen(s, i) == 0
    ensures LeftmostStart(s, i) == LeftmostStart(s, i + 1)
  {
  }

  lemma StartAtDigit(s: string, k: nat)
    requires k < |s| && IsDigit(s[k])
    ensures LeftmostStart(s, k) == Some(k)
  {
    MatchAtDigit(s, k);
  }

  lemma StartAtDollar(s: string, i: nat)
    requires i + 1 < |s| && s[i] == '$' && IsDigit(s[i + 1])
    ensures LeftmostStart(s, i) == Some(i)
  {
    MatchAtDollar(s, i);
  }

  /** `Dollar` applied to the leftmost match gives `$` and the amount at the first digit. */
  lemma LeftmostDollar(s: string, k: nat)
    requires k < |s| && IsDigit(s[k]) && forall j :: 0 <= j < k ==> !IsDigit(s[j])
    ensures LeftmostMatch(s).Some?
    ensures Dollar(LeftmostMatch(s).value) == "$" + s[k..k + AmountLen(s, k)]
  {
    if 0 < k && s[k - 1] == '$' {
      var i := k - 1;
      NoMatchBeforeFirstDigit(s, 0, i);
      LeftmostWithDollar(s, i, k);
    } else {
      NoMatchBeforeFirstDigit(s, 0, k);
      LeftmostWithoutDollar(s, k);
    }
  }

  lemma LeftmostWithDollar(s: string, i: nat, k: nat)
    requires k == i + 1 && k < |s| && s[i] == '$' && IsDigit(s[k]) && NoMatchBetween(s, 0, i)
    ensures LeftmostMatch(s).Some?
    ensures Dollar(LeftmostMatch(s).value) == "$" + s[k..k + AmountLen(s, k)]
  {
    var e := k + AmountLen(s, k);
    SkipNoMatch(s, 0, i);
    StartAtDollar(s, i);
    MatchAtDollar(s, i);
    MatchFrom(s, i, e);
    DollarKept(s, i, e);
  }

  lemma LeftmostWithoutDollar(s: string, k: nat)
    requires k < |s| && IsDigit(s[k]) && NoMatchBetween(s, 0, k)
    ensures LeftmostMatch(s).Some?
    ensures Dollar(LeftmostMatch(s).value) == "$" + s[k..k + AmountLen(s, k)]
  {
    var e := k + AmountLen(s, k);
    SkipNoMatch(s, 0, k);
    StartAtDigit(s, k);
    MatchAtDigit(s, k);
    MatchFrom(s, k, e);
    DollarAdded(s, k, e);
  }

  lemma MatchFrom(s: string, i: nat, e: nat)
    requires LeftmostStart(s, 0) == Some(i) && i + MatchLen(s, i) == e
    ensures LeftmostMatch(s) == Some(s[i..e])
  {
  }

  lemma DollarKept(s: string, b: nat, e: nat)
    requires b < e <= |s| && s[b] == '$'
    ensures Dollar(s[b..e]) == "$" + s[b + 1..e]
  {
    assert s[b..e][0] == s[b];
    assert s[b..e] == [s[b]] + s[b + 1..e];
  }

  lemma DollarAdded(s: string, k: nat, e: nat)
    requires k < e <= |s| && IsDigit(s[k])
    ensures Dollar(s[k..e]) == "$" + s[k..e]
  {
    assert s[k..e][0] == s[k];
  }

  /** At a digit, the first alternative matches, without a `$`. */
  lemma MatchAtDigit(s: string, k: nat)
    requires k < |s| && IsDigit(s[k])
    ensures MatchLen(s, k) == AmountLen(s, k) > 0
  {
  }

  /** At a `$` before a digit, the first alternative matches, with the `$`. */
  lemma MatchAtDollar(s: string, i: nat)
    requires i + 1 < |s| && s[i] == '$' && IsDigit(s[i + 1])
    ensures MatchLen(s, i) == 1 + AmountLen(s, i + 1)
  {
  }

  /** The leftmost-match parser agrees with the reference definition on every condensed text. */
  lemma MatchPriceIsPriceAtFirstDigit(c: string)
    ensures MatchPrice(c) == PriceAtFirstDigit(c)
  {
    if HasDigit(c) {
      var k := FirstDigit(c);
      LeftmostDollar(c, k);
      MatchPriceFound(c);
      PriceAtDigit(c, k);
    } else {
      NoDigitNoMatch(c, 0);
      MatchPriceNone(c);
    }
  }

  lemma MatchPriceFound(c: string)
    requires LeftmostMatch(c).Some?
    ensures MatchPrice(c) == Some(Dollar(LeftmostMatch(c).value))
  {
  }

  lemma MatchPriceNone(c: string)
    requires LeftmostStart(c, 0).None? && !HasDigit(c)
    ensures MatchPrice(c) == None
  {
  }

  lemma PriceAtDigit(c: string, k: nat)
    requires HasDigit(c) && k == FirstDigit(c)
    ensures PriceAtFirstDigit(c) == Some("$" + c[k..k + AmountLen(c, k)])
  {
  }

  /** The digit-only fallback (`/\d/.test(condensed)`) is dead: text with a digit always has a match. */
  lemma DigitFallbackUnreachable(c: string)
    requires HasDigit(c)
    ensures LeftmostMatch(c).Some?
  {
    LeftmostDollar(c, FirstDigit(c));
  }

  // ---------------------------------------------------------------------------
  // The amount pattern reads no further than the characters it consumes and
  // the one after them: the same characters elsewhere match the same way

  /** Character `q` of `s` after `i` is character `q` of `t` after `j`. */
  predicate Same(s: string, i: nat, t: string, j: nat, q: nat) {
    i + q < |s| && j + q < |t| && s[i + q] == t[j + q]
  }

  /** `t` from `j` to its end is `s` from `i` for `len` characters. */
  predicate Window(s: string, i: nat, t: string, j: nat, len: nat) {
    i + len <= |s| && j + len == |t| && forall q :: 0 <= q < len ==> Same(s, i, t, j, q)
  }

  lemma WindowStep(s: string, i: nat, t: string, j: nat, len: nat, m: nat)
    requires Window(s, i, t, j, len) && m <= len
    ensures Window(s, i + m, t, j + m, len - m)
    ensures m < len ==> s[i + m] == t[j + m]
  {
    var i2, j2 := i + m, j + m;
    forall q | 0 <= q < len - m ensures Same(s, i2, t, j2, q) {
      assert Same(s, i, t, j, m + q);
    }
    if m < len {
      assert Same(s, i, t, j, m);
    }
  }

  lemma {:induction false} LeadingDigitsWindow(s: string, i: nat, t: string, j: nat, len: nat, max: nat)
    requires Window(s, i, t, j, len) && LeadingDigits(s, i, max) <= len
    ensures LeadingDigits(t, j, max) == LeadingDigits(s, i, max)
    decreases max
  {
    if max > 0 && len > 0 {
      WindowStep(s, i, t, j, len, 0);
      if IsDigit(s[i]) {
        WindowStep(s, i, t, j, len, 1);
        LeadingDigitsWindow(s, i + 1, t, j + 1, len - 1, max - 1);
      }
    }
  }

  lemma {:induction false} GroupsLenWindow(s: string, i: nat, t: string, j: nat, len: nat)
    requires Window(s, i, t, j, len) && GroupsLen(s, i) <= len
    ensures GroupsLen(t, j) == GroupsLen(s, i)
    decreases |s| - i
  {
    if len >= 4 {
      WindowStep(s, i, t, j, len, 0);
      WindowStep(s, i, t, j, len, 1);
      WindowStep(s, i, t, j, len, 2);
      WindowStep(s, i, t, j, len, 3);
      assert GroupAt(t, j) == GroupAt(s, i);
      if GroupAt(s, i) {
        WindowStep(s, i, t, j, len, 4);
        GroupsLenWindow(s, i + 4, t, j + 4, len - 4);
      }
    }
  }

  lemma DecimalLenWindow(s: string, i: nat, t: string, j: nat, len: nat)
    requires Window(s, i, t, j, len) && DecimalLen(s, i) <= len
    ensures DecimalLen(t, j) == DecimalLen(s, i)
  {
    if len >= 2 {
      WindowStep(s, i, t, j, len, 0);
      WindowStep(s, i, t, j, len, 1);
      assert s[i] == t[j] && s[i + 1] == t[j + 1];
      if DecimalLen(s, i) > 0 {
        LeadingDigitsWindow(s, i + 1, t, j + 1, len - 1, 2);
      }
    }
  }

  lemma AmountLenWindow(s: string, i: nat, t: string, j: nat, len: nat)
    requires Window(s, i, t, j, len) && AmountLen(s, i) <= len
    ensures AmountLen(t, j) == AmountLen(s, i)
  {
    var d := LeadingDigits(s, i, 3);
    LeadingDigitsWindow(s, i, t, j, len, 3);
    if d > 0 {
      var g := GroupsLen(s, i + d);
      var e := DecimalLen(s, i + d + g);
      AmountLenParts(s, i, d, g, e);
      AmountTailWindow(s, i, t, j, len, d);
      AmountLenParts(t, j, d, g, e);
    }
  }

  lemma AmountTailWindow(s: string, i: nat, t: string, j: nat, len: nat, d: nat)
    requires Window(s, i, t, j, len) && d <= len
    requires d + GroupsLen(s, i + d) + DecimalLen(s, i + d + GroupsLen(s, i + d)) <= len
    ensures j + d <= |t| && GroupsLen(t, j + d) == GroupsLen(s, i + d)
    ensures DecimalLen(t, j + d + GroupsLen(s, i + d)) == DecimalLen(s, i + d + GroupsLen(s, i + d))
  {
    WindowStep(s, i, t, j, len, d);
    GroupsDecimalWindow(s, i + d, t, j + d, len - d);
  }

  /** The thousands groups and the decimals read the same in a window. */
  lemma GroupsDecimalWindow(s: string, i: nat, t: string, j: nat, len: nat)
    requires Window(s, i, t, j, len)
    requires GroupsLen(s, i) + DecimalLen(s, i + GroupsLen(s, i)) <= len
    ensures GroupsLen(t, j) == GroupsLen(s, i)
    ensures DecimalLen(t, j + GroupsLen(s, i)) == DecimalLen(s, i + GroupsLen(s, i))
  {
    var g := GroupsLen(s, i);
    GroupsLenWindow(s, i, t, j, len);
    WindowStep(s, i, t, j, len, g);
    DecimalLenWindow(s, i + g, t, j + g, len - g);
  }

  lemma AmountLenParts(t: string, j: nat, d: nat, g: nat, e: nat)
    requires j <= |t| && 0 < d && LeadingDigits(t, j, 3) == d
    requires j + d <= |t| && GroupsLen(t, j + d) == g
    requires j + d + g <= |t| && DecimalLen(t, j + d + g) == e
    ensures AmountLen(t, j) == d + g + e
  {
  }

  lemma PriceAtFirstDigitIsCanonical(c: string)
    ensures PriceAtFirstDigit(c).Some? ==> IsCanonicalPrice(PriceAtFirstDigit(c).value)
  {
    if HasDigit(c) {
      AmountIsCanonical(c, FirstDigit(c));
    }
  }

  /** `$` and the amount matched at a digit form a canonical price. */
  lemma AmountIsCanonical(c: string, k: nat)
    requires k < |c| && IsDigit(c[k])
    ensures IsCanonicalPrice("$" + c[k..k + AmountLen(c, k)])
  {
    var a := AmountLen(c, k);
    var p := "$" + c[k..k + a];
    WindowOfPrice(c, k, a);
    AmountLenWindow(c, k, p, 1, a);
  }

  lemma WindowOfPrice(c: string, k: nat, a: nat)
    requires k + a <= |c|
    ensures Window(c, k, "$" + c[k..k + a], 1, a)
  {
    var p := "$" + c[k..k + a];
    forall q | 0 <= q < a ensures Same(c, k, p, 1, q) {
      assert p[1 + q] == c[k..k + a][q];
    }
  }

  // ---------------------------------------------------------------------------
  // Properties of the parser

  lemma {:induction false} LeadingDigitsAreDigits(s: string, i: nat, max: nat)
    requires i <= |s|
    ensures forall m :: i <= m < i + LeadingDigits(s, i, max) ==> IsDigit(s[m])
    decreases max
  {
    if max > 0 && i < |s| && IsDigit(s[i]) {
      LeadingDigitsAreDigits(s, i + 1, max - 1);
    }
  }

  /** The characters the amount pattern can consume. */
  predicate IsAmountChar(c: char) {
    IsDigit(c) || c == ',' || c == '.'
  }

  predicate AmountCharsIn(s: string, lo: nat, hi: nat)
    requires lo <= hi <= |s|
  {
    forall m :: lo <= m < hi ==> IsAmountChar(s[m])
  }

  lemma AmountCharsJoin(s: string, lo: nat, mid: nat, hi: nat)
    requires lo <= mid <= hi <= |s| && AmountCharsIn(s, lo, mid) && AmountCharsIn(s, mid, hi)
    ensures AmountCharsIn(s, lo, hi)
  {
  }

  lemma DigitsAreAmountChars(s: string, lo: nat, n: nat)
    requires lo + n <= |s| && forall m :: lo <= m < lo + n ==> IsDigit(s[m])
    ensures AmountCharsIn(s, lo, lo + n)
  {
  }

  lemma {:induction false} GroupsChars(s: string, i: nat)
    requires i <= |s|
    ensures AmountCharsIn(s, i, i + GroupsLen(s, i))
    decreases |s| - i
  {
    if GroupAt(s, i) {
      GroupsChars(s, i + 4);
      assert AmountCharsIn(s, i, i + 4);
      AmountCharsJoin(s, i, i + 4, i + GroupsLen(s, i));
    }
  }

  lemma DecimalChars(s: string, i: nat)
    requires i <= |s|
    ensures AmountCharsIn(s, i, i + DecimalLen(s, i))
  {
    if DecimalLen(s, i) > 0 {
      LeadingDigitsAreDigits(s, i + 1, 2);
      DigitsAreAmountChars(s, i + 1, LeadingDigits(s, i + 1, 2));
    }
  }

  /** What the amount pattern consumes is digits, commas and points only. */
  lemma AmountChars(s: string, i: nat)
    requires i <= |s|
    ensures AmountCharsIn(s, i, i + AmountLen(s, i))
  {
    var d := LeadingDigits(s, i, 3);
    if d > 0 {
      var g := GroupsLen(s, i + d);
      var e := DecimalLen(s, i + d + g);
      LeadingDigitsAreDigits(s, i, 3);
      DigitsAreAmountChars(s, i, d);
      GroupsChars(s, i + d);
      DecimalChars(s, i + d + g);
      AmountCharsJoin(s, i, i + d, i + d + g);
      AmountCharsJoin(s, i, i + d + g, i + d + g + e);
      AmountLenParts(s, i, d, g, e);
    }
  }

  lemma FirstDigitAt(s: string, k: nat)
    requires k < |s| && IsDigit(s[k]) && forall j :: 0 <= j < k ==> !IsDigit(s[j])
    ensures HasDigit(s) && FirstDigit(s) == k
  {
    var f := FirstDigit(s);
    assert !(f < k) && !(k < f);
  }

  /** A canonical price is parsed back to itself. */
  lemma CanonicalPriceFixed(p: string)
    requires IsCanonicalPrice(p)
    ensures ParsePrice(p) == Some(p)
  {
    CanonicalPriceNoSpace(p);
    RemoveSpacesNoSpace(p);
    CanonicalPriceFound(p);
  }

  lemma CanonicalPriceNoSpace(p: string)
    requires IsCanonicalPrice(p)
    ensures forall m :: 0 <= m < |p| ==> !IsSpace(p[m])
  {
    AmountChars(p, 1);
  }

  lemma CanonicalPriceFound(p: string)
    requires IsCanonicalPrice(p)
    ensures PriceAtFirstDigit(p) == Some(p)
  {
    FirstDigitAt(p, 1);
    assert "$" + p[1..1 + AmountLen(p, 1)] == p;
  }

  /** Parsing a price the parser produced gives the same price back: its output is a fixed point. */
  lemma ParsePriceIdempotent(raw: string)
    requires ParsePrice(raw).Some?
    ensures ParsePrice(ParsePrice(raw).value) == ParsePrice(raw)
  {
    CanonicalPriceFixed(ParsePrice(raw).value);
  }

  /** A price written out in the grouped format `1,234,567.89`. */
  datatype Amount = Amount(whole: string, groups: seq<string>, cents: string) {
    predicate Valid() {
      && 1 <= |whole| <= 3 && (forall i :: 0 <= i < |whole| ==> IsDigit(whole[i]))
      && (forall j :: 0 <= j < |groups| ==> IsGroup(groups[j]))
      && |cents| <= 2 && (forall i :: 0 <= i < |cents| ==> IsDigit(cents[i]))
    }
  }

  predicate IsGroup(g: string) {
    |g| == 3 && IsDigit(g[0]) && IsDigit(g[1]) && IsDigit(g[2])
  }

  function JoinGroups(groups: seq<string>): string {
    if groups == [] then "" else "," + groups[0] + JoinGroups(groups[1..])
  }

  /** The integer part, a comma before each thousands group, a point before the cents. */
  function Format(a: Amount): string {
    a.whole + JoinGroups(a.groups) + CentsPart(a.cents)
  }

  function CentsPart(cents: string): string {
    if cents == "" then "" else "." + cents
  }

  /** `\d{1,max}` at `i` over exactly `n` digits followed by a non-digit takes those `n` digits. */
  lemma {:induction false} LeadingDigitsExact(s: string, i: nat, n: nat, max: nat)
    requires i + n <= |s| && n <= max
    requires forall m :: i <= m < i + n ==> IsDigit(s[m])
    requires n < max && i + n < |s| ==> !IsDigit(s[i + n])
    ensures LeadingDigits(s, i, max) == n
    decreases n
  {
    if n > 0 {
      LeadingDigitsExact(s, i + 1, n - 1, max - 1);
    }
  }

  lemma {:induction false} GroupsExact(s: string, i: nat, groups: seq<string>)
    requires forall j :: 0 <= j < |groups| ==> IsGroup(groups[j])
    requires i + |JoinGroups(groups)| <= |s| && s[i..i + |JoinGroups(groups)|] == JoinGroups(groups)
    requires !GroupAt(s, i + |JoinGroups(groups)|)
    ensures GroupsLen(s, i) == |JoinGroups(groups)|
    decreases groups
  {
    if groups != [] {
      var jg := JoinGroups(groups);
      var g := groups[0];
      assert jg == [','] + g + JoinGroups(groups[1..]);
      assert s[i..i + |jg|][0] == ',';
      assert s[i..i + |jg|][1] == g[0] && s[i..i + |jg|][2] == g[1] && s[i..i + |jg|][3] == g[2];
      assert GroupAt(s, i);
      assert s[i + 4..i + |jg|] == s[i..i + |jg|][4..];
      GroupsExact(s, i + 4, groups[1..]);
    }
  }

  /** A one-to-three digit integer part followed by a non-digit is read whole by `\d{1,3}`. */
  lemma FormatWhole(w: string, rest: string)
    requires 1 <= |w| <= 3 && forall i :: 0 <= i < |w| ==> IsDigit(w[i])
    requires rest != [] ==> !IsDigit(rest[0])
    ensures LeadingDigits(w + rest, 0, 3) == |w|
  {
    var s := w + rest;
    forall m | 0 <= m < |w| ensures IsDigit(s[m]) {
      assert s[m] == w[m];
    }
    if |w| < |s| {
      assert s[|w|] == rest[0];
    }
    LeadingDigitsExact(s, 0, |w|, 3);
  }

  /** The decimal part of the format (or its absence) before digit-free text is read whole, and ends the groups. */
  lemma FormatCents(s: string, k: nat, cents: string, suffix: string)
    requires k <= |s| && s[k..] == CentsPart(cents) + suffix
    requires |cents| <= 2 && (forall i :: 0 <= i < |cents| ==> IsDigit(cents[i])) && !HasDigit(suffix)
    ensures DecimalLen(s, k) == |CentsPart(cents)|
    ensures !GroupAt(s, k)
  {
    if cents == "" {
      if k + 2 <= |s| {
        assert s[k + 1] == s[k..][1] == suffix[1];
      }
    } else {
      var n := |cents|;
      assert s[k] == s[k..][0] == '.';
      forall m | k + 1 <= m < k + 1 + n ensures IsDigit(s[m]) {
        assert s[m] == s[k..][m - k] == cents[m - k - 1];
      }
      if n < 2 && k + 1 + n < |s| {
        assert s[k + 1 + n] == s[k..][1 + n] == suffix[0];
      }
      LeadingDigitsExact(s, k + 1, n, 2);
    }
  }

  /** The formatted amount followed by digit-free text is matched exactly. */
  lemma FormatAmountLen(a: Amount, suffix: string)
    requires a.Valid() && !HasDigit(suffix)
    ensures AmountLen(Format(a) + suffix, 0) == |Format(a)|
  {
    var w, gs, cp := a.whole, JoinGroups(a.groups), CentsPart(a.cents);
    FormatLeadLen(a, suffix);
    FormatGroupsLen(a, suffix);
    FormatCentsLen(a, suffix);
    AmountLenParts(Format(a) + suffix, 0, |w|, |gs|, |cp|);
  }

  lemma FormatLeadLen(a: Amount, suffix: string)
    requires a.Valid() && !HasDigit(suffix)
    ensures LeadingDigits(Format(a) + suffix, 0, 3) == |a.whole|
  {
    FormatPieces(a, suffix);
    FormatWhole(a.whole, JoinGroups(a.groups) + CentsPart(a.cents) + suffix);
  }

  lemma FormatGroupsLen(a: Amount, suffix: string)
    requires a.Valid() && !HasDigit(suffix)
    ensures |a.whole| + |JoinGroups(a.groups)| <= |Format(a) + suffix|
    ensures GroupsLen(Format(a) + suffix, |a.whole|) == |JoinGroups(a.groups)|
  {
    FormatPieces(a, suffix);
    GroupsThenCents(Format(a) + suffix, |a.whole|, a.groups, a.cents, suffix);
  }

  lemma FormatCentsLen(a: Amount, suffix: string)
    requires a.Valid() && !HasDigit(suffix)
    ensures |a.whole| + |JoinGroups(a.groups)| <= |Format(a) + suffix|
    ensures DecimalLen(Format(a) + suffix, |a.whole| + |JoinGroups(a.groups)|) == |CentsPart(a.cents)|
  {
    FormatPieces(a, suffix);
    GroupsThenCents(Format(a) + suffix, |a.whole|, a.groups, a.cents, suffix);
  }

  /** The thousands groups, then the decimal part, then digit-free text: each is read exactly. */
  lemma GroupsThenCents(s: string, i: nat, groups: seq<string>, cents: string, suffix: string)
    requires forall j :: 0 <= j < |groups| ==> IsGroup(groups[j])
    requires |cents| <= 2 && (forall j :: 0 <= j < |cents| ==> IsDigit(cents[j])) && !HasDigit(suffix)
    requires i + |JoinGroups(groups)| <= |s| && s[i..i + |JoinGroups(groups)|] == JoinGroups(groups)
    requires s[i + |JoinGroups(groups)|..] == CentsPart(cents) + suffix
    ensures GroupsLen(s, i) == |JoinGroups(groups)|
    ensures DecimalLen(s, i + |JoinGroups(groups)|) == |CentsPart(cents)|
  {
    FormatCents(s, i + |JoinGroups(groups)|, cents, suffix);
    GroupsExact(s, i, groups);
  }

  /** Where each piece of the format sits in the formatted text. */
  lemma FormatPieces(a: Amount, suffix: string)
    requires a.Valid() && !HasDigit(suffix)
    ensures var w, gs, cp := a.whole, JoinGroups(a.groups), CentsPart(a.cents);
      && Format(a) + suffix == w + (gs + cp + suffix)
      && (gs + cp + suffix != [] ==> !IsDigit((gs + cp + suffix)[0]))
      && (Format(a) + suffix)[|w|..|w| + |gs|] == gs
      && (Format(a) + suffix)[|w| + |gs|..] == cp + suffix
  {
    var w, gs, cp := a.whole, JoinGroups(a.groups), CentsPart(a.cents);
    var rest := gs + cp + suffix;
    if rest != [] {
      if a.groups != [] {
        assert rest[0] == gs[0] == ',';
      } else if a.cents != "" {
        assert rest[0] == cp[0];
      } else {
        assert rest[0] == suffix[0];
      }
    }
  }

  lemma FormatHasNoSpace(a: Amount)
    requires a.Valid()
    ensures forall i :: 0 <= i < |Format(a)| ==> !IsSpace(Format(a)[i])
  {
    FormatAmountLen(a, "");
    assert Format(a) + "" == Format(a);
    AmountChars(Format(a), 0);
  }

  /**
   * Round trip: a grouped amount, with or without its `$`, between pieces of
   * text that have no digits, is read back verbatim with exactly one `$` in front.
   */
  lemma PriceRoundTrip(a: Amount, prefix: string, suffix: string)
    requires a.Valid() && !HasDigit(prefix) && !HasDigit(suffix)
    ensures ParsePrice(prefix + "$" + Format(a) + suffix) == Some("$" + Format(a))
    ensures ParsePrice(prefix + Format(a) + suffix) == Some("$" + Format(a))
  {
    RoundTripDollar(a, prefix, suffix);
    RoundTripBare(a, prefix, suffix);
  }

  lemma RoundTripDollar(a: Amount, prefix: string, suffix: string)
    requires a.Valid() && !HasDigit(prefix) && !HasDigit(suffix)
    ensures ParsePrice(prefix + "$" + Format(a) + suffix) == Some("$" + Format(a))
  {
    var f := Format(a);
    assert prefix + "$" + f + suffix == (prefix + "$") + (f + suffix);
    DigitFreeDollar(prefix);
    RoundTripAfter(a, prefix + "$", suffix);
  }

  lemma RoundTripBare(a: Amount, prefix: string, suffix: string)
    requires a.Valid() && !HasDigit(prefix) && !HasDigit(suffix)
    ensures ParsePrice(prefix + Format(a) + suffix) == Some("$" + Format(a))
  {
    var f := Format(a);
    assert prefix + f + suffix == prefix + (f + suffix);
    RoundTripAfter(a, prefix, suffix);
  }

  lemma DigitFreeDollar(p: string)
    requires !HasDigit(p)
    ensures !HasDigit(p + "$")
  {
    forall m | 0 <= m < |p + "$"| ensures !IsDigit((p + "$")[m]) {
      if m < |p| {
        assert (p + "$")[m] == p[m];
      }
    }
  }

  lemma RoundTripAfter(a: Amount, prefix: string, suffix: string)
    requires a.Valid() && !HasDigit(prefix) && !HasDigit(suffix)
    ensures ParsePrice(prefix + (Format(a) + suffix)) == Some("$" + Format(a))
  {
    var f := Format(a);
    FormatHasNoSpace(a);
    RemoveSpacesNoSpace(f);
    RemoveSpacesKeepsDigits(prefix);
    RemoveSpacesKeepsDigits(suffix);
    RemoveSpacesAppend(prefix, f + suffix);
    RemoveSpacesAppend(f, suffix);
    var p, q := RemoveSpaces(prefix), RemoveSpaces(suffix);
    FormatAmountLen(a, q);
    assert f[0] == a.whole[0];
    RoundTripAt(p, f, q);
  }

  lemma RoundTripAt(p: string, f: string, q: string)
    requires !HasDigit(p)
    requires f != [] && IsDigit(f[0]) && AmountLen(f + q, 0) == |f|
    ensures PriceAtFirstDigit(p + (f + q)) == Some("$" + f)
  {
    var c := p + (f + q);
    var k := |p|;
    FirstDigitAfter(p, f + q);
    WindowAtEnd(p, f + q);
    AmountLenWindow(f + q, 0, c, k, |f + q|);
    assert c[k..k + |f|] == f;
  }

  /** Behind a digit-free prefix, the first digit is the first character after it. */
  lemma FirstDigitAfter(p: string, r: string)
    requires !HasDigit(p) && r != [] && IsDigit(r[0])
    ensures HasDigit(p + r) && FirstDigit(p + r) == |p|
  {
    var c := p + r;
    assert c[|p|] == r[0];
    forall j | 0 <= j < |p| ensures !IsDigit(c[j]) {
      assert c[j] == p[j];
    }
    FirstDigitAt(c, |p|);
  }

  lemma WindowAtEnd(p: string, r: string)
    ensures Window(r, 0, p + r, |p|, |r|)
  {
    forall x | 0 <= x < |r| ensures Same(r, 0, p + r, |p|, x) {
      assert (p + r)[|p| + x] == r[x];
    }
  }

  /**
   * The first alternative shadows the second: an amount of four or more digits
   * with no thousands separator (`$1234.56`) is cut after three digits (`$123`).
   */
  lemma UngroupedAmountTruncated(digits: string, suffix: string)
    requires |digits| >= 4 && forall i :: 0 <= i < |digits| ==> IsDigit(digits[i])
    ensures ParsePrice("$" + digits + suffix) == Some("$" + digits[..3])
  {
    var d := "$" + digits;
    forall m | 0 <= m < |d| ensures !IsSpace(d[m]) {
      if m > 0 {
        assert d[m] == digits[m - 1];
      }
    }
    RemoveSpacesNoSpace(d);
    RemoveSpacesAppend(d, suffix);
    var c := d + RemoveSpaces(suffix);
    TruncatedAt(c, digits);
  }

  lemma TruncatedAt(c: string, digits: string)
    requires |digits| >= 4 && forall i :: 0 <= i < |digits| ==> IsDigit(digits[i])
    requires |c| >= 1 + |digits| && c[0] == '$' && c[1..1 + |digits|] == digits
    ensures PriceAtFirstDigit(c) == Some("$" + digits[..3])
  {
    forall m | 1 <= m < 5 ensures c[m] == digits[m - 1] {
      assert c[1..1 + |digits|][m - 1] == digits[m - 1];
    }
    FirstDigitAt(c, 1);
    LeadingDigitsExact(c, 1, 3, 3);
    assert !GroupAt(c, 4) && GroupsLen(c, 4) == 0;
    assert DecimalLen(c, 4) == 0;
    AmountLenParts(c, 1, 3, 0, 0);
    assert c[1..4] == digits[..3];
  }
}
