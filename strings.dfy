/**
  The three JavaScript string operations the journal's rules rely on:
  `toLowerCase`, `includes` and `trim`.
 */
module Strings {

  // ---------------------------------------------------------------------------
  // toLowerCase
  // ---------------------------------------------------------------------------

  /** The upper-case letters whose lower-case form this model knows: ASCII A-Z and
      the Latin-1 capitals U+00C0..U+00DE (U+00D7, the multiplication sign, is not a letter). */
  predicate IsUpper(c: char) {
    'A' <= c <= 'Z' || ('\U{C0}' <= c <= '\U{DE}' && c != '\U{D7}')
  }

  /** Lower-cases one character. For every letter of IsUpper the Unicode lower-case
      form lies 0x20 code points higher; every other character is left as it is. */
  function LowerChar(c: char): (d: char)
    ensures !IsUpper(d)
    ensures !IsUpper(c) ==> d == c
    ensures IsUpper(c) ==> d as int == c as int + 0x20
  {
    if IsUpper(c) then (c as int + 0x20) as char else c
  }

  /** `s.toLowerCase()`: lower-cases character by character. */
  function Lower(s: string): (r: string)
    ensures |r| == |s|
    ensures forall i :: 0 <= i < |s| ==> r[i] == LowerChar(s[i])
  {
    if s == [] then [] else [LowerChar(s[0])] + Lower(s[1..])
  }

  lemma {:induction false} LowerConcat(a: string, b: string)
    ensures Lower(a + b) == Lower(a) + Lower(b)
  {
    if a == [] {
      assert a + b == b;
    } else {
      assert (a + b)[1..] == a[1..] + b;
      LowerConcat(a[1..], b);
    }
  }

  /** A string without upper-case letters is its own lower-case form. */
  lemma {:induction false} LowerFixes(s: string)
    requires forall c :: c in s ==> !IsUpper(c)
    ensures Lower(s) == s
  {
    if s != [] {
      assert s[0] in s;
      assert forall c :: c in s[1..] ==> c in s;
      LowerFixes(s[1..]);
    }
  }

  /** Lower-casing twice is lower-casing once. */
  lemma LowerIdempotent(s: string)
    ensures Lower(Lower(s)) == Lower(s)
  {
    LowerFixes(Lower(s));
  }

  // ---------------------------------------------------------------------------
  // includes
  // ---------------------------------------------------------------------------

  /** `k` occurs in `s` starting at index `i`. */
  predicate OccursAt(s: string, k: string, i: nat) {
    i + |k| <= |s| && s[i..i + |k|] == k
  }

  lemma OccursAfterHead(s: string, k: string)
    requires s != []
    ensures forall j: nat :: OccursAt(s[1..], k, j) <==> OccursAt(s, k, j + 1)
  {
    forall j: nat
      ensures OccursAt(s[1..], k, j) <==> OccursAt(s, k, j + 1)
    {
      if j + 1 + |k| <= |s| {
        assert s[1..][j..j + |k|] == s[j + 1..j + 1 + |k|];
      }
    }
  }

  /** `s.includes(k)`: tries each start position from the left. */
  function Includes(s: string, k: string): (r: bool)
    ensures r <==> exists i: nat :: OccursAt(s, k, i)
    decreases |s|
  {
    if |s| < |k| then
      false
    else if s[..|k|] == k then
      assert OccursAt(s, k, 0);
      true
    else
      OccursAfterHead(s, k);
      assert !OccursAt(s, k, 0);
      assert forall i: nat :: OccursAt(s, k, i) ==> i > 0 && OccursAt(s[1..], k, i - 1);
      Includes(s[1..], k)
  }

  /** Substring containment is not whole-word matching: surrounding a string
      with any text keeps every string it includes. */
  lemma IncludesWithin(p: string, s: string, q: string, k: string)
    requires Includes(s, k)
    ensures Includes(p + s + q, k)
  {
    var i: nat :| OccursAt(s, k, i);
    var t := p + s + q;
    assert t[|p| + i..|p| + i + |k|] == s[i..i + |k|];
    assert OccursAt(t, k, |p| + i);
  }

  /** A lower-cased text includes `k` wherever some stretch of the original text
      lower-cases to `k`, whatever case that stretch was written in. */
  lemma IncludesCaseVariant(p: string, w: string, q: string, k: string)
    requires Lower(w) == k
    ensures Includes(Lower(p + w + q), k)
  {
    LowerConcat(p + w, q);
    LowerConcat(p, w);
    assert OccursAt(k, k, 0);
    IncludesWithin(Lower(p), k, Lower(q), k);
  }

  // ---------------------------------------------------------------------------
  // trim
  // ---------------------------------------------------------------------------

  /** What ECMAScript's `trim` strips: the WhiteSpace code points (tab, vertical tab,
      form feed, the byte order mark and every Unicode space separator) and the
      LineTerminator code points (line feed, carriage return, U+2028, U+2029). */
  predicate IsJsSpace(c: char) {
    || c == '\t' || c == '\U{B}' || c == '\U{C}' || c == '\U{FEFF}'
    || c == ' ' || c == '\U{A0}' || c == '\U{1680}' || ('\U{2000}' <= c <= '\U{200A}')
    || c == '\U{202F}' || c == '\U{205F}' || c == '\U{3000}'
    || c == '\n' || c == '\r' || c == '\U{2028}' || c == '\U{2029}'
  }

  /** Drops the leading white space. */
  function TrimStart(s: string): (r: string)
    ensures |r| <= |s| && r == s[|s| - |r|..]
    ensures forall i :: 0 <= i < |s| - |r| ==> IsJsSpace(s[i])
    ensures r != [] ==> !IsJsSpace(r[0])
  {
    if s != [] && IsJsSpace(s[0]) then TrimStart(s[1..]) else s
  }

  /** Drops the trailing white space. */
  function TrimEnd(s: string): (r: string)
    ensures |r| <= |s| && r == s[..|r|]
    ensures forall i :: |r| <= i < |s| ==> IsJsSpace(s[i])
    ensures r != [] ==> !IsJsSpace(r[|r| - 1])
  {
    if s != [] && IsJsSpace(s[|s| - 1]) then TrimEnd(s[..|s| - 1]) else s
  }

  /** `r` is the stretch of `s` at index `a`, and everything around it is white space. */
  predicate Surrounded(s: string, r: string, a: nat) {
    && OccursAt(s, r, a)
    && (forall i :: 0 <= i < a ==> IsJsSpace(s[i]))
    && (forall i :: a + |r| <= i < |s| ==> IsJsSpace(s[i]))
  }

  /** `s.trim()`: the stretch of `s` between its leading and its trailing white space. */
  function Trim(s: string): string {
    TrimEnd(TrimStart(s))
  }

  /** What `trim` leaves: a stretch of the input surrounded only by white space,
      which neither starts nor ends with white space, and which is empty exactly
      when the input is all white space. */
  lemma TrimBounds(s: string)
    ensures exists a: nat :: Surrounded(s, Trim(s), a)
    ensures Trim(s) != [] ==> !IsJsSpace(Trim(s)[0]) && !IsJsSpace(Trim(s)[|Trim(s)| - 1])
    ensures Trim(s) == [] <==> forall i :: 0 <= i < |s| ==> IsJsSpace(s[i])
  {
    var t := TrimStart(s);
    var r := TrimEnd(t);
    assert Trim(s) == r;
    assert Surrounded(s, r, |s| - |t|);
    assert forall i :: |s| - |t| <= i < |s| ==> s[i] == t[i - (|s| - |t|)];
  }
}
