/**
 * Character classes and string operations of the JavaScript runtime that the
 * storefront relies on: `\s`/`\S`, `\d`/`\D`, `String.prototype.trim`,
 * `String.prototype.toLowerCase`, `String.prototype.includes`, and the
 * decimal rendering of a timestamp in `'PREFIX-' + Date.now()`.
 */
module Text {
  import opened Sequences

  /**
   * What `\s` matches and what `trim` strips: the WhiteSpace and
   * LineTerminator code points of ECMAScript (sections 12.2 and 12.3 of ECMA-262).
   */
  predicate IsWhitespace(c: char) {
    c == '\t' || c == '\n' || c == '\U{000B}' || c == '\U{000C}' || c == '\r' || c == ' '
    || c == '\U{00A0}' || c == '\U{1680}' || ('\U{2000}' <= c <= '\U{200A}')
    || c == '\U{2028}' || c == '\U{2029}' || c == '\U{202F}' || c == '\U{205F}'
    || c == '\U{3000}' || c == '\U{FEFF}'
  }

  /** What `\d` matches: the ASCII digits only. */
  predicate IsDigit(c: char) {
    '0' <= c <= '9'
  }

  /** Some character of `s` is not whitespace. */
  predicate HasNonWhitespace(s: string) {
    exists i :: 0 <= i < |s| && !IsWhitespace(s[i])
  }

  function TrimStart(s: string): (r: string)
    ensures |r| <= |s| && r == s[|s| - |r|..]
    ensures forall i :: 0 <= i < |s| - |r| ==> IsWhitespace(s[i])
    ensures r == [] || !IsWhitespace(r[0])
  {
    if s == [] || !IsWhitespace(s[0]) then s else TrimStart(s[1..])
  }

  function TrimEnd(s: string): (r: string)
    ensures |r| <= |s| && r == s[..|r|]
    ensures forall i :: |r| <= i < |s| ==> IsWhitespace(s[i])
    ensures r == [] || !IsWhitespace(r[|r| - 1])
  {
    if s == [] || !IsWhitespace(s[|s| - 1]) then s else TrimEnd(s[..|s| - 1])
  }

  /**
   * `String.prototype.trim`: the block of `s` that is left once the leading and
   * the trailing whitespace are cut off; it neither starts nor ends with whitespace.
   */
  function Trim(s: string): (r: string)
    ensures r == [] || (!IsWhitespace(r[0]) && !IsWhitespace(r[|r| - 1]))
    ensures exists i :: TrimmedAt(s, r, i)
  {
    var t := TrimStart(s);
    var r := TrimEnd(t);
    assert TrimmedAt(s, r, |s| - |t|);
    r
  }

  /** `r` is the block of `s` starting at `i`, and everything outside it is whitespace. */
  predicate TrimmedAt(s: string, r: string, i: int) {
    0 <= i && i + |r| <= |s| && r == s[i..i + |r|]
    && (forall k :: 0 <= k < i ==> IsWhitespace(s[k]))
    && (forall k :: i + |r| <= k < |s| ==> IsWhitespace(s[k]))
  }

  /** `s.trim()` is truthy exactly when `s` has a character that is not whitespace. */
  lemma TrimNonEmptyIff(s: string)
    ensures Trim(s) != [] <==> HasNonWhitespace(s)
  {
    var t := TrimStart(s);
    if Trim(s) != [] {
      var r := Trim(s);
      assert !IsWhitespace(t[0]);
      assert t[0] == s[|s| - |t|];
    }
  }

  /** `s.replace(/\D/g, '')`: the digits of `s`, in order. */
  function RemoveNonDigits(s: string): (r: string)
    ensures IsSubsequence(r, s)
    ensures forall i :: 0 <= i < |r| ==> IsDigit(r[i])
    ensures forall c :: c in r <==> c in s && IsDigit(c)
    ensures forall c :: multiset(r)[c] == if IsDigit(c) then multiset(s)[c] else 0
  {
    var r := Filter(s, IsDigit);
    assert forall c :: c in r <==> c in s && IsDigit(c) by {
      forall c ensures c in r <==> c in s && IsDigit(c) {
        FilterMembership(s, IsDigit, c);
      }
    }
    r
  }

  /** `s.replace(/\s/g, '')`: the characters of `s` that are not whitespace, in order. */
  function RemoveWhitespace(s: string): (r: string)
    ensures IsSubsequence(r, s)
    ensures forall i :: 0 <= i < |r| ==> !IsWhitespace(r[i])
    ensures forall c :: c in r <==> c in s && !IsWhitespace(c)
    ensures forall c :: multiset(r)[c] == if IsWhitespace(c) then 0 else multiset(s)[c]
  {
    var r := Filter(s, c => !IsWhitespace(c));
    assert forall c :: c in r <==> c in s && !IsWhitespace(c) by {
      forall c ensures c in r <==> c in s && !IsWhitespace(c) {
        FilterMembership(s, c => !IsWhitespace(c), c);
      }
    }
    r
  }

  /** `toLowerCase` on one character; only the ASCII letters are mapped. */
  function ToLower(c: char): char {
    if 'A' <= c <= 'Z' then (c as int + 32) as char else c
  }

  /**
   * `s.length`: the number of UTF-16 code units, one for a character of the
   * Basic Multilingual Plane and two (a surrogate pair) for any other.
   */
  function Utf16Length(s: string): (n: nat)
    ensures |s| <= n <= 2 * |s|
    ensures (forall i :: 0 <= i < |s| ==> s[i] < '\U{10000}') ==> n == |s|
  {
    if s == [] then 0 else (if s[0] < '\U{10000}' then 1 else 2) + Utf16Length(s[1..])
  }

  /** `String.prototype.toLowerCase`, character by character. */
  function Lower(s: string): (r: string)
    ensures |r| == |s|
    ensures forall i :: 0 <= i < |s| ==> r[i] == ToLower(s[i])
  {
    seq(|s|, i requires 0 <= i < |s| => ToLower(s[i]))
  }

  /** Lowercasing twice is lowercasing once. */
  lemma LowerIdempotent(s: string)
    ensures Lower(Lower(s)) == Lower(s)
  {
    assert forall i :: 0 <= i < |s| ==> ToLower(ToLower(s[i])) == ToLower(s[i]);
  }

  /**
   * `haystack.includes(needle)`: `needle` occurs as a contiguous block, that
   * is, `haystack` is some text, then `needle`, then some more text. The empty
   * needle occurs everywhere.
   */
  function Contains(haystack: string, needle: string): (r: bool)
    ensures r <==> exists pre, post :: haystack == pre + needle + post
    ensures needle == [] ==> r
    ensures r ==> |needle| <= |haystack|
  {
    OccurrenceIsSplit(haystack, needle);
    exists i :: 0 <= i <= |haystack| && OccursAt(haystack, needle, i)
  }

  lemma OccurrenceIsSplit(haystack: string, needle: string)
    ensures (exists i :: 0 <= i <= |haystack| && OccursAt(haystack, needle, i))
            <==> exists pre, post :: haystack == pre + needle + post
    ensures needle == [] ==> OccursAt(haystack, needle, 0)
  {
    if exists pre, post :: haystack == pre + needle + post {
      var pre, post :| haystack == pre + needle + post;
      SplitOccurs(pre, needle, post);
    }
    if exists i :: 0 <= i <= |haystack| && OccursAt(haystack, needle, i) {
      var i :| 0 <= i <= |haystack| && OccursAt(haystack, needle, i);
      OccurrenceSplits(haystack, needle, i);
    }
  }

  lemma SplitOccurs(pre: string, needle: string, post: string)
    ensures OccursAt(pre + needle + post, needle, |pre|)
  {
    assert (pre + needle + post)[|pre|..|pre| + |needle|] == needle;
  }

  lemma OccurrenceSplits(haystack: string, needle: string, i: nat)
    requires OccursAt(haystack, needle, i)
    ensures haystack == haystack[..i] + needle + haystack[i + |needle|..]
  {
  }

  predicate OccursAt(haystack: string, needle: string, i: nat) {
    i + |needle| <= |haystack| && haystack[i..i + |needle|] == needle
  }

  function DigitChar(d: nat): (c: char)
    requires d < 10
    ensures IsDigit(c) && c as int - '0' as int == d
  {
    ('0' as int + d) as char
  }

  /** `String(n)` for a non-negative integer: its decimal digits, without leading zeros. */
  function NatToString(n: nat): (r: string)
    ensures r != [] && forall i :: 0 <= i < |r| ==> IsDigit(r[i])
  {
    if n < 10 then [DigitChar(n)] else NatToString(n / 10) + [DigitChar(n % 10)]
  }

  /** `String(n)` for an integer: a minus sign before the digits of a negative number. */
  function IntToString(n: int): string {
    if n < 0 then "-" + NatToString(-n) else NatToString(n)
  }

  /** The number a string of decimal digits denotes. */
  function DecimalValue(s: string): nat
    requires forall i :: 0 <= i < |s| ==> IsDigit(s[i])
  {
    if s == [] then 0
    else
      assert IsDigit(s[|s| - 1]);
      10 * DecimalValue(s[..|s| - 1]) + (s[|s| - 1] as int - '0' as int)
  }

  /** Reading back the decimal rendering gives the number. */
  lemma {:induction false} DecimalValueOfNatToString(n: nat)
    ensures DecimalValue(NatToString(n)) == n
  {
    var s := NatToString(n);
    if n >= 10 {
      DecimalValueOfNatToString(n / 10);
      assert s[..|s| - 1] == NatToString(n / 10);
    }
  }

  /** Distinct timestamps render as distinct strings. */
  lemma NatToStringInjective(m: nat, n: nat)
    ensures NatToString(m) == NatToString(n) ==> m == n
  {
    DecimalValueOfNatToString(m);
    DecimalValueOfNatToString(n);
  }

  /** Two ids `prefix + String(t)` built from distinct timestamps differ. */
  lemma PrefixedIdInjective(prefix: string, m: nat, n: nat)
    ensures prefix + NatToString(m) == prefix + NatToString(n) ==> m == n
  {
    if prefix + NatToString(m) == prefix + NatToString(n) {
      assert NatToString(m) == (prefix + NatToString(m))[|prefix|..];
      assert NatToString(n) == (prefix + NatToString(n))[|prefix|..];
      NatToStringInjective(m, n);
    }
  }
}
