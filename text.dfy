/** The few `java.lang.String` operations the entity models use, over the
    ASCII letters (Java folds case over all of Unicode; see README). */
module Text {
  import opened Common

  predicate IsLower(c: char) { 'a' <= c <= 'z' }
  predicate IsUpper(c: char) { 'A' <= c <= 'Z' }

  function UpperChar(c: char): (u: char)
    ensures !IsLower(u)
    ensures IsLower(c) || u == c
  {
    if IsLower(c) then (c as int - 'a' as int + 'A' as int) as char else c
  }

  function LowerChar(c: char): (l: char)
    ensures !IsUpper(l)
    ensures IsUpper(c) || l == c
  {
    if IsUpper(c) then (c as int - 'A' as int + 'a' as int) as char else c
  }

  /** `s.toUpperCase()` */
  function UpperCase(s: string): (r: string)
    ensures |r| == |s|
    ensures forall i :: 0 <= i < |s| ==> r[i] == UpperChar(s[i])
  {
    if s == [] then [] else [UpperChar(s[0])] + UpperCase(s[1..])
  }

  /** Two characters are equal ignoring case. */
  predicate SameLetter(a: char, b: char)
  {
    a == b || UpperChar(a) == UpperChar(b)
  }

  /** `literal.equalsIgnoreCase(s)`: false when `s` is null. */
  predicate EqualsIgnoreCase(literal: string, s: JStr)
  {
    s.Some? && |s.value| == |literal| &&
    forall i :: 0 <= i < |literal| ==> SameLetter(literal[i], s.value[i])
  }

  /** `s.lastIndexOf(c)`: the index of the last occurrence of `c`, or -1. */
  function LastIndexOf(s: string, c: char): (r: int)
    ensures -1 <= r < |s|
    ensures r >= 0 ==> s[r] == c
    ensures forall i :: r < i < |s| ==> s[i] != c
  {
    if s == [] then -1
    else if s[|s| - 1] == c then |s| - 1
    else LastIndexOf(s[..|s| - 1], c)
  }
}
