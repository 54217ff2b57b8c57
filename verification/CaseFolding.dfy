/**
 Comparing names without regard to the case of ASCII letters.
 */
module CaseFolding {

  function Lower(c: char): char {
    if 'A' <= c <= 'Z' then (c as int + 32) as char else c
  }

  function Fold(s: string): (t: string)
    ensures |t| == |s| && forall i {:trigger t[i]} :: 0 <= i < |s| ==> t[i] == Lower(s[i])
  {
    seq(|s|, i requires 0 <= i < |s| => Lower(s[i]))
  }

  /** sqlite4_stricmp(a, b) == 0 */
  predicate SameName(a: string, b: string) {
    Fold(a) == Fold(b)
  }
}
