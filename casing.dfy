/**
  The name normaliser: the lower-case and capitalised forms of a user-supplied
  name. JavaScript's `toLowerCase`/`toUpperCase` are modelled on ASCII letters;
  every other character maps to itself.
 */
module Casing {

  predicate IsUpper(c: char) { 'A' <= c <= 'Z' }

  predicate IsLower(c: char) { 'a' <= c <= 'z' }

  /** `c.toLowerCase()` for one character. */
  function Lower(c: char): (r: char)
    ensures IsUpper(c) ==> IsLower(r) && r as int == c as int + 32
    ensures !IsUpper(c) ==> r == c
    ensures !IsUpper(r)
  {
    if IsUpper(c) then (c as int + 32) as char else c
  }

  /** `c.toUpperCase()` for one character. */
  function Upper(c: char): (r: char)
    ensures IsLower(c) ==> IsUpper(r) && r as int == c as int - 32
    ensures !IsLower(c) ==> r == c
    ensures !IsLower(r)
  {
    if IsLower(c) then (c as int - 32) as char else c
  }

  lemma LowerIdempotent(c: char)
    ensures Lower(Lower(c)) == Lower(c)
  {
  }

  /** Lower-casing forgets a preceding upper-casing. */
  lemma LowerAfterUpper(c: char)
    ensures Lower(Upper(c)) == Lower(c)
  {
  }

  /** `s.toLowerCase()`: every character lower-cased, nothing else changed. */
  function LowerStr(s: string): (r: string)
    ensures |r| == |s|
    ensures forall i :: 0 <= i < |s| ==> r[i] == Lower(s[i])
  {
    if s == [] then [] else [Lower(s[0])] + LowerStr(s[1..])
  }

  /** Two strings whose characters lower-case alike have the same lower-case form. */
  lemma LowerStrPointwise(a: string, b: string)
    requires |a| == |b|
    requires forall i :: 0 <= i < |a| ==> Lower(a[i]) == Lower(b[i])
    ensures LowerStr(a) == LowerStr(b)
  {
    assert forall i :: 0 <= i < |a| ==> LowerStr(a)[i] == LowerStr(b)[i];
  }

  /** Lower-casing a string twice is lower-casing it once. */
  lemma LowerStrIdempotent(s: string)
    ensures LowerStr(LowerStr(s)) == LowerStr(s)
  {
    var l := LowerStr(s);
    forall i | 0 <= i < |s|
      ensures LowerStr(l)[i] == l[i]
    {
      LowerIdempotent(s[i]);
    }
  }

  /** A lower-cased string has no upper-case letter left. */
  lemma LowerStrHasNoUpper(s: string)
    ensures forall i :: 0 <= i < |s| ==> !IsUpper(LowerStr(s)[i])
  {
  }

  /**
    `${s[0].toUpperCase()}${s.slice(1)}`. JavaScript throws when `s` is empty
    (`s[0]` is `undefined`); the callers model that case themselves.
   */
  function Capitalized(s: string): (r: string)
    requires |s| > 0
    ensures |r| == |s|
    ensures r[0] == Upper(s[0])
    ensures forall i :: 1 <= i < |s| ==> r[i] == s[i]
  {
    [Upper(s[0])] + s[1..]
  }

  /** Capitalising leaves the lower-case form, hence the output path, unchanged. */
  lemma LowerStrOfCapitalized(s: string)
    requires |s| > 0
    ensures LowerStr(Capitalized(s)) == LowerStr(s)
  {
    var c := Capitalized(s);
    forall i | 0 <= i < |s|
      ensures Lower(c[i]) == Lower(s[i])
    {
      if i == 0 {
        LowerAfterUpper(s[0]);
      }
    }
    LowerStrPointwise(c, s);
  }

  /** Capitalising an already capitalised string changes nothing. */
  lemma CapitalizedIdempotent(s: string)
    requires |s| > 0
    ensures Capitalized(Capitalized(s)) == Capitalized(s)
  {
  }
}
