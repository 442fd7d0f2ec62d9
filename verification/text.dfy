/** The three string primitives the domain normalises with: `strip`, `lower` and the
    `isdigit` filter, over the ASCII range. */
module Text {

  /** Python's `str.isspace` on ASCII: tab, line feed, vertical tab, form feed,
      carriage return, the separators 0x1C..0x1F, and the space. */
  predicate IsSpace(c: char) {
    (9 <= c as int <= 13) || (28 <= c as int <= 32)
  }

  predicate IsDigit(c: char) {
    '0' <= c <= '9'
  }

  predicate IsUpper(c: char) {
    'A' <= c <= 'Z'
  }

  predicate AllSpace(s: string) {
    forall i :: 0 <= i < |s| ==> IsSpace(s[i])
  }

  predicate AllDigits(s: string) {
    forall i :: 0 <= i < |s| ==> IsDigit(s[i])
  }

  predicate NoUpper(s: string) {
    forall i :: 0 <= i < |s| ==> !IsUpper(s[i])
  }

  /** Neither end of `s` is white space: what `strip` leaves behind. */
  predicate IsTrimmed(s: string) {
    s == [] || (!IsSpace(s[0]) && !IsSpace(s[|s| - 1]))
  }

  // ---------------------------------------------------------------------------
  // strip
  // ---------------------------------------------------------------------------

  /** The first index at or after `i` that does not hold white space (or `|s|`):
      where `lstrip` starts the result. */
  function SkipSpace(s: string, i: nat): (j: nat)
    requires i <= |s|
    ensures i <= j <= |s|
    ensures j == |s| || !IsSpace(s[j])
    ensures forall k :: i <= k < j ==> IsSpace(s[k])
    decreases |s| - i
  {
    if i < |s| && IsSpace(s[i]) then SkipSpace(s, i + 1) else i
  }

  /** The last end at or before `j`, and not before `lo`, whose preceding
      character is not white space (or `lo`): where `rstrip` ends the result. */
  function SkipSpaceBack(s: string, lo: nat, j: nat): (e: nat)
    requires lo <= j <= |s|
    ensures lo <= e <= j
    ensures e == lo || !IsSpace(s[e - 1])
    ensures forall k :: e <= k < j ==> IsSpace(s[k])
    decreases j
  {
    if lo < j && IsSpace(s[j - 1]) then SkipSpaceBack(s, lo, j - 1) else j
  }

  /** `strip`: `s` without its leading and trailing white space. `TrimIsInfix`
      shows that the result is the infix of `s` left after cutting white space
      from both ends. */
  function Trim(s: string): (r: string)
    ensures |r| <= |s|
    ensures IsTrimmed(r)
  {
    var i := SkipSpace(s, 0);
    s[i..SkipSpaceBack(s, i, |s|)]
  }

  /** `strip` keeps the infix `s[i..j]`, and everything it cut away on either
      side is white space. */
  lemma TrimIsInfix(s: string) returns (i: nat, j: nat)
    ensures i <= j <= |s| && Trim(s) == s[i..j]
    ensures forall k :: 0 <= k < i ==> IsSpace(s[k])
    ensures forall k :: j <= k < |s| ==> IsSpace(s[k])
  {
    i := SkipSpace(s, 0);
    j := SkipSpaceBack(s, i, |s|);
  }

  // ---------------------------------------------------------------------------
  // lower
  // ---------------------------------------------------------------------------

  function LowerChar(c: char): (d: char)
    ensures !IsUpper(d)
    ensures !IsUpper(c) ==> d == c
    ensures IsUpper(c) ==> d as int == c as int + 32
    ensures IsSpace(d) <==> IsSpace(c)
  {
    if IsUpper(c) then (c as int + 32) as char else c
  }

  /** `lower`: the same string with every upper-case letter replaced by its
      lower-case counterpart and every other character kept. */
  function Lower(s: string): (r: string)
    ensures |r| == |s|
    ensures NoUpper(r)
    ensures forall i :: 0 <= i < |s| && !IsUpper(s[i]) ==> r[i] == s[i]
    ensures forall i :: 0 <= i < |s| && IsUpper(s[i]) ==> r[i] as int == s[i] as int + 32
    ensures forall i :: 0 <= i < |s| ==> (IsSpace(r[i]) <==> IsSpace(s[i]))
  {
    seq(|s|, i requires 0 <= i < |s| => LowerChar(s[i]))
  }

  // ---------------------------------------------------------------------------
  // digit filter
  // ---------------------------------------------------------------------------

  /** The digit filter: every digit of `s` is kept, as often as it occurs, and
      every other character is dropped; `DigitsConcat` shows the order is kept. */
  function Digits(s: string): (r: string)
    ensures |r| <= |s|
    ensures AllDigits(r)
    ensures AllDigits(s) ==> r == s
    ensures forall c :: multiset(r)[c] == (if IsDigit(c) then multiset(s)[c] else 0)
  {
    if s == [] then []
    else
      assert s == [s[0]] + s[1..];
      (if IsDigit(s[0]) then [s[0]] else []) + Digits(s[1..])
  }

  // ---------------------------------------------------------------------------
  // Properties
  // ---------------------------------------------------------------------------

  /** `strip` returns the empty string exactly when the input is all white space. */
  lemma TrimEmptyIffBlank(s: string)
    ensures Trim(s) == [] <==> AllSpace(s)
  {
    var i, j := TrimIsInfix(s);
    if i < j {
      assert Trim(s)[0] == s[i];
    }
  }

  /** A string that is already trimmed is left unchanged by `strip`. */
  lemma TrimFixesTrimmed(s: string)
    requires IsTrimmed(s)
    ensures Trim(s) == s
  {
    assert SkipSpace(s, 0) == 0;
    if s != [] {
      assert SkipSpaceBack(s, 0, |s|) == |s|;
    }
  }

  /** `strip` is idempotent. */
  lemma TrimIdempotent(s: string)
    ensures Trim(Trim(s)) == Trim(s)
  {
    TrimFixesTrimmed(Trim(s));
  }

  /** `lower` keeps the white space at both ends exactly where it was. */
  lemma LowerKeepsTrimmed(s: string)
    requires IsTrimmed(s)
    ensures IsTrimmed(Lower(s))
  {
  }

  /** `lower` is idempotent. */
  lemma LowerIdempotent(s: string)
    ensures Lower(Lower(s)) == Lower(s)
  {
  }

  /** A character that is no letter occurs in `lower(s)` exactly when it occurs
      in `s`. */
  lemma LowerKeepsNonLetters(s: string, c: char)
    requires !IsUpper(c) && !('a' <= c <= 'z')
    ensures c in Lower(s) <==> c in s
  {
    if c in Lower(s) {
      var i :| 0 <= i < |s| && Lower(s)[i] == c;
      assert s[i] == c;
    }
    if c in s {
      var i :| 0 <= i < |s| && s[i] == c;
      assert Lower(s)[i] == c;
    }
  }

  /** The digit filter distributes over concatenation: it keeps the digits of
      each part in their original order. */
  lemma {:induction false} DigitsConcat(a: string, b: string)
    ensures Digits(a + b) == Digits(a) + Digits(b)
    decreases |a|
  {
    if a == [] {
      assert a + b == b;
    } else {
      var head := if IsDigit(a[0]) then [a[0]] else [];
      assert (a + b)[0] == a[0];
      assert (a + b)[1..] == a[1..] + b;
      DigitsConcat(a[1..], b);
      calc {
        Digits(a + b);
        head + Digits(a[1..] + b);
        head + (Digits(a[1..]) + Digits(b));
        (head + Digits(a[1..])) + Digits(b);
      }
    }
  }

  /** White space contains no digits. */
  lemma {:induction false} DigitsOfBlank(s: string)
    requires AllSpace(s)
    ensures Digits(s) == []
    decreases |s|
  {
    if s != [] {
      assert IsSpace(s[0]);
      DigitsOfBlank(s[1..]);
    }
  }

  /** Stripping before filtering digits changes nothing: only white space is cut. */
  lemma DigitsIgnoreTrim(s: string)
    ensures Digits(Trim(s)) == Digits(s)
  {
    var i, j := TrimIsInfix(s);
    var a, t, c := s[..i], s[i..j], s[j..];
    assert s == a + t + c;
    assert AllSpace(a) by {
      forall k | 0 <= k < |a|
        ensures IsSpace(a[k])
      {
        assert a[k] == s[k];
      }
    }
    assert AllSpace(c) by {
      forall k | 0 <= k < |c|
        ensures IsSpace(c[k])
      {
        assert c[k] == s[j + k];
      }
    }
    DigitsConcat(a + t, c);
    DigitsConcat(a, t);
    DigitsOfBlank(a);
    DigitsOfBlank(c);
  }

  /** A string of digits has no white space at either end. */
  lemma DigitsAreTrimmed(s: string)
    requires AllDigits(s)
    ensures IsTrimmed(s)
  {
  }
}
