/**
 * Character classes and string primitives of the JavaScript runtime that the
 * price-discovery code relies on: the `\s`, `\d` and `\w` regular-expression
 * classes, `String.prototype.trim`, `toLowerCase`, `includes`, and the
 * `replace(/\s+/g, '')` whitespace deletion.
 */
module Chars {

  /** `\d`: an ASCII decimal digit. */
  predicate IsDigit(c: char) {
    '0' <= c <= '9'
  }

  /** `\w`: ASCII letters, digits and the underscore (no `u` flag, so ASCII only). */
  predicate IsWordChar(c: char) {
    'a' <= c <= 'z' || 'A' <= c <= 'Z' || IsDigit(c) || c == '_'
  }

  /** The characters `[a-z0-9]` that survive the tokenizer's clean-up. */
  predicate IsLowerAlnum(c: char) {
    'a' <= c <= 'z' || IsDigit(c)
  }

  /**
   * `\s`, which is also the set `trim()` removes: the ECMAScript WhiteSpace
   * code points (tab, vertical tab, form feed, space, no-break space, the
   * byte-order mark and the Space_Separator category) and the LineTerminator
   * code points (line feed, carriage return, line and paragraph separators).
   */
  predicate IsSpace(c: char) {
    || c == '\t' || c == '\n' || c == '\U{B}' || c == '\U{C}' || c == '\r'
    || c == ' ' || c == '\U{A0}' || c == '\U{1680}'
    || ('\U{2000}' <= c <= '\U{200A}')
    || c == '\U{2028}' || c == '\U{2029}' || c == '\U{202F}' || c == '\U{205F}'
    || c == '\U{3000}' || c == '\U{FEFF}'
  }

  /** Whether the text holds at least one ASCII digit. */
  predicate HasDigit(s: string) {
    exists i :: 0 <= i < |s| && IsDigit(s[i])
  }

  /** `needle` occurs in `hay` starting at index `i`. */
  predicate OccursAt(hay: string, needle: string, i: nat) {
    i + |needle| <= |hay| && hay[i..i + |needle|] == needle
  }

  /** Whether `needle` occurs as a contiguous piece of `hay`. */
  predicate Contains(hay: string, needle: string) {
    exists i: nat :: i <= |hay| && OccursAt(hay, needle, i)
  }

  /** `toLowerCase` on one character, for the ASCII letters. */
  function LowerChar(c: char): (r: char)
    ensures 'A' <= c <= 'Z' ==> 'a' <= r <= 'z'
    ensures !('A' <= c <= 'Z') ==> r == c
  {
    if 'A' <= c <= 'Z' then (c as int - 'A' as int + 'a' as int) as char else c
  }

  /** `s.toLowerCase()`: every ASCII upper-case letter replaced by its lower-case form. */
  function Lower(s: string): (r: string)
    ensures |r| == |s|
    ensures forall i :: 0 <= i < |s| ==> r[i] == LowerChar(s[i])
  {
    seq(|s|, i requires 0 <= i < |s| => LowerChar(s[i]))
  }

  /** Leading-whitespace removal half of `trim()`. */
  function TrimStart(s: string): (r: string)
    ensures |r| <= |s| && r == s[|s| - |r|..]
    ensures forall i :: 0 <= i < |s| - |r| ==> IsSpace(s[i])
    ensures r != [] ==> !IsSpace(r[0])
  {
    if s != [] && IsSpace(s[0]) then TrimStart(s[1..]) else s
  }

  /** Trailing-whitespace removal half of `trim()`. */
  function TrimEnd(s: string): (r: string)
    ensures |r| <= |s| && r == s[..|r|]
    ensures forall i :: |r| <= i < |s| ==> IsSpace(s[i])
    ensures r != [] ==> !IsSpace(r[|r| - 1])
  {
    if s != [] && IsSpace(s[|s| - 1]) then TrimEnd(s[..|s| - 1]) else s
  }

  /** The text with leading and trailing whitespace removed (`trim`). */
  function Trim(s: string): (r: string)
    ensures r != [] ==> !IsSpace(r[0]) && !IsSpace(r[|r| - 1])
  {
    TrimEnd(TrimStart(s))
  }

  /** `s.replace(/\s+/g, '')`: every whitespace character deleted, the rest kept in order. */
  function RemoveSpaces(s: string): (r: string)
    ensures |r| <= |s|
    ensures forall i :: 0 <= i < |r| ==> !IsSpace(r[i])
  {
    if s == [] then []
    else (if IsSpace(s[0]) then [] else [s[0]]) + RemoveSpaces(s[1..])
  }

  lemma {:induction false} RemoveSpacesAppend(a: string, b: string)
    ensures RemoveSpaces(a + b) == RemoveSpaces(a) + RemoveSpaces(b)
  {
    if a != [] {
      assert (a + b)[0] == a[0];
      assert (a + b)[1..] == a[1..] + b;
      RemoveSpacesAppend(a[1..], b);
    } else {
      assert a + b == b;
    }
  }

  /** A string without whitespace is left as it is. */
  lemma {:induction false} RemoveSpacesNoSpace(s: string)
    requires forall i :: 0 <= i < |s| ==> !IsSpace(s[i])
    ensures RemoveSpaces(s) == s
  {
    if s != [] {
      RemoveSpacesNoSpace(s[1..]);
    }
  }

  lemma HasDigitCons(c: char, rest: string)
    ensures HasDigit([c] + rest) <==> IsDigit(c) || HasDigit(rest)
  {
    var s := [c] + rest;
    assert s[0] == c;
    if HasDigit(s) {
      var i :| 0 <= i < |s| && IsDigit(s[i]);
      if i > 0 {
        assert rest[i - 1] == s[i];
      }
    }
    if HasDigit(rest) {
      var j :| 0 <= j < |rest| && IsDigit(rest[j]);
      assert s[j + 1] == rest[j];
    }
  }

  /** Deleting whitespace neither adds nor removes digits. */
  lemma {:induction false} RemoveSpacesKeepsDigits(s: string)
    ensures HasDigit(RemoveSpaces(s)) <==> HasDigit(s)
  {
    if s != [] {
      RemoveSpacesKeepsDigits(s[1..]);
      assert s == [s[0]] + s[1..];
      HasDigitCons(s[0], s[1..]);
      if IsSpace(s[0]) {
        assert RemoveSpaces(s) == RemoveSpaces(s[1..]);
      } else {
        assert RemoveSpaces(s) == [s[0]] + RemoveSpaces(s[1..]);
        HasDigitCons(s[0], RemoveSpaces(s[1..]));
      }
    }
  }

  /** A string made only of whitespace has nothing left once whitespace is deleted. */
  lemma {:induction false} RemoveSpacesAllSpace(s: string)
    requires forall i :: 0 <= i < |s| ==> IsSpace(s[i])
    ensures RemoveSpaces(s) == []
  {
    if s != [] {
      RemoveSpacesAllSpace(s[1..]);
    }
  }

  lemma TrimStartThenRemoveSpaces(s: string)
    ensures RemoveSpaces(TrimStart(s)) == RemoveSpaces(s)
  {
    var t := TrimStart(s);
    var n := |s| - |t|;
    assert s == s[..n] + t;
    RemoveSpacesAllSpace(s[..n]);
    RemoveSpacesAppend(s[..n], t);
  }

  lemma TrimEndThenRemoveSpaces(t: string)
    ensures RemoveSpaces(TrimEnd(t)) == RemoveSpaces(t)
  {
    var u := TrimEnd(t);
    assert t == u + t[|u|..];
    RemoveSpacesAllSpace(t[|u|..]);
    RemoveSpacesAppend(u, t[|u|..]);
  }

  /** Trimming first does not change what whitespace deletion leaves. */
  lemma TrimThenRemoveSpaces(s: string)
    ensures RemoveSpaces(Trim(s)) == RemoveSpaces(s)
    ensures Trim(s) == [] <==> RemoveSpaces(s) == []
  {
    TrimStartThenRemoveSpaces(s);
    TrimEndThenRemoveSpaces(TrimStart(s));
    var u := Trim(s);
    if u != [] {
      assert RemoveSpaces(u) == [u[0]] + RemoveSpaces(u[1..]);
    }
  }
}
