/** The string primitives of the JavaScript runtime that the worker uses:
    `toUpperCase`, `toLowerCase` and `includes`. Strings are sequences of
    Unicode scalar values. */
module Text {

  predicate IsAsciiLower(c: char) { 'a' <= c <= 'z' }

  predicate IsAsciiUpper(c: char) { 'A' <= c <= 'Z' }

  /** The ASCII case mappings of one character. */
  function AsciiUpper(c: char): char {
    if IsAsciiLower(c) then (c as int - 32) as char else c
  }

  function AsciiLower(c: char): char {
    if IsAsciiUpper(c) then (c as int + 32) as char else c
  }

  /** The non-ASCII characters whose full upper case (Unicode special casing
      included) consists of ASCII letters only. */
  const SpecialUpper: map<char, string> := map[
    '\U{DF}' := "SS",     // sharp s
    '\U{131}' := "I",     // dotless i
    '\U{17F}' := "S",     // long s
    '\U{FB00}' := "FF",
    '\U{FB01}' := "FI",
    '\U{FB02}' := "FL",
    '\U{FB03}' := "FFI",
    '\U{FB04}' := "FFL",
    '\U{FB05}' := "ST",
    '\U{FB06}' := "ST"
  ]

  /** `toUpperCase` on one character. Every character whose upper case is
      ASCII is mapped as JavaScript maps it; any other character is kept as
      it is (its real upper case is not ASCII either). */
  function UpperChar(c: char): (u: string)
    ensures 1 <= |u| <= 3
    ensures forall i :: 0 <= i < |u| ==> !IsAsciiLower(u[i]) && u[i] !in SpecialUpper
    ensures c !in SpecialUpper ==> u == [AsciiUpper(c)]
  {
    if c in SpecialUpper then SpecialUpper[c] else [AsciiUpper(c)]
  }

  /** `String.prototype.toUpperCase`, character by character. */
  function ToUpper(s: string): string {
    if s == [] then [] else UpperChar(s[0]) + ToUpper(s[1..])
  }

  /** Upper-casing leaves no ASCII lower-case letter and no character that has
      a special upper case. */
  lemma {:induction false} ToUpperIsUpper(s: string)
    ensures forall i :: 0 <= i < |ToUpper(s)| ==>
              !IsAsciiLower(ToUpper(s)[i]) && ToUpper(s)[i] !in SpecialUpper
  {
    if s != [] {
      ToUpperIsUpper(s[1..]);
      var u, r := UpperChar(s[0]), ToUpper(s[1..]);
      assert ToUpper(s) == u + r;
      assert forall i :: |u| <= i < |u + r| ==> (u + r)[i] == r[i - |u|];
    }
  }

  /** On a string without special characters, upper-casing is the ASCII case
      mapping of each character, and keeps the length. */
  lemma {:induction false} ToUpperPlain(s: string)
    requires forall i :: 0 <= i < |s| ==> s[i] !in SpecialUpper
    ensures |ToUpper(s)| == |s|
    ensures forall i :: 0 <= i < |s| ==> ToUpper(s)[i] == AsciiUpper(s[i])
  {
    if s != [] {
      ToUpperPlain(s[1..]);
      assert ToUpper(s) == [AsciiUpper(s[0])] + ToUpper(s[1..]);
    }
  }

  /** Upper-casing distributes over concatenation. */
  lemma {:induction false} ToUpperAppend(a: string, b: string)
    ensures ToUpper(a + b) == ToUpper(a) + ToUpper(b)
  {
    if a == [] {
      assert a + b == b;
    } else {
      assert (a + b)[0] == a[0];
      assert (a + b)[1..] == a[1..] + b;
      ToUpperAppend(a[1..], b);
    }
  }

  /** Upper-casing twice is upper-casing once. */
  lemma ToUpperIdempotent(s: string)
    ensures ToUpper(ToUpper(s)) == ToUpper(s)
  {
    var r := ToUpper(s);
    ToUpperIsUpper(s);
    ToUpperPlain(r);
  }

  /** `toLowerCase` on one character: ASCII letters, and the Kelvin sign, whose
      lower case is the ASCII `k`. Every other character is kept; its real
      lower case contains a non-ASCII character, so it never equals an ASCII
      letter. */
  function LowerChar(c: char): (l: char)
    ensures IsAsciiUpper(c) ==> l as int == c as int + 32
    ensures !IsAsciiUpper(c) && c != '\U{212A}' ==> l == c
  {
    if c == '\U{212A}' then 'k' else AsciiLower(c)
  }

  /** `String.prototype.toLowerCase`, character by character. */
  function ToLower(s: string): (r: string)
    ensures |r| == |s|
    ensures forall i :: 0 <= i < |s| ==> r[i] == LowerChar(s[i])
  {
    if s == [] then [] else [LowerChar(s[0])] + ToLower(s[1..])
  }

  /** `s.includes(t)`: `t` occurs in `s` as a contiguous substring. */
  function Includes(s: string, t: string): bool
    decreases |s|
  {
    if |t| > |s| then false
    else if s[..|t|] == t then true
    else Includes(s[1..], t)
  }

  /** `t` occurs in `s` starting at index `i`. */
  predicate OccursAt(s: string, t: string, i: int) {
    0 <= i <= |s| - |t| && s[i..i + |t|] == t
  }

  /** A slice of `s` is the matching slice of its tail, shifted by one. */
  lemma SliceOfTail(s: string, a: int, b: int)
    requires 1 <= a <= b <= |s|
    ensures s[a..b] == s[1..][a - 1..b - 1]
  {
    assert |s[a..b]| == |s[1..][a - 1..b - 1]|;
    forall k | 0 <= k < b - a ensures s[a..b][k] == s[1..][a - 1..b - 1][k] {
      assert s[a..b][k] == s[a + k];
    }
  }

  /** `Includes` holds exactly when `t` occurs somewhere in `s`. */
  lemma {:induction false} IncludesIff(s: string, t: string)
    ensures Includes(s, t) <==> exists i :: OccursAt(s, t, i)
    decreases |s|
  {
    if |t| > |s| {
    } else if s[..|t|] == t {
      assert OccursAt(s, t, 0);
    } else {
      IncludesIff(s[1..], t);
      if Includes(s[1..], t) {
        var j :| OccursAt(s[1..], t, j);
        SliceOfTail(s, j + 1, j + 1 + |t|);
        assert OccursAt(s, t, j + 1);
      } else {
        forall i | 0 <= i <= |s| - |t| ensures !OccursAt(s, t, i) {
          if i > 0 {
            SliceOfTail(s, i, i + |t|);
            assert !OccursAt(s[1..], t, i - 1);
          }
        }
      }
    }
  }
}
