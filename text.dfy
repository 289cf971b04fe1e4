/**
 * Lower-casing of strings, as `String.toLowerCase()` does it for the ASCII
 * names this model feeds it (Java enum constant names and class simple names).
 */
module Text {

  predicate IsUpper(c: char)
  {
    'A' <= c <= 'Z'
  }

  function LowerChar(c: char): (d: char)
    ensures !IsUpper(d)
    ensures !IsUpper(c) ==> d == c
    ensures IsUpper(c) ==> 'a' <= d <= 'z' && d as int - c as int == 'a' as int - 'A' as int
  {
    if IsUpper(c) then (c as int - 'A' as int + 'a' as int) as char else c
  }

  /** Lower-cases every upper-case ASCII letter and keeps every other character. */
  function Lower(s: string): (r: string)
    ensures |r| == |s|
    ensures forall i :: 0 <= i < |s| ==> r[i] == LowerChar(s[i])
    ensures forall i :: 0 <= i < |r| ==> !IsUpper(r[i])
  {
    if |s| == 0 then "" else [LowerChar(s[0])] + Lower(s[1..])
  }

  /** A string with no lower-case ASCII letter, such as a Java enum constant name. */
  predicate NoLowerCase(s: string)
  {
    forall i :: 0 <= i < |s| ==> !('a' <= s[i] <= 'z')
  }

  /** On strings with no lower-case letters, lower-casing loses no information. */
  lemma LowerInjective(s: string, t: string)
    requires NoLowerCase(s) && NoLowerCase(t)
    requires Lower(s) == Lower(t)
    ensures s == t
  {
  }
}
