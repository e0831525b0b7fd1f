/** The one piece of Go's `strings` package the router uses. */
module Strings {

  /** `strings.HasPrefix(s, prefix)`: `s` is at least as long as `prefix`
      and its first `len(prefix)` characters are `prefix`. */
  function HasPrefix(s: string, prefix: string): bool
  {
    |s| >= |prefix| && s[..|prefix|] == prefix
  }

  /** Two prefixes that disagree at some position cannot both begin the same string. */
  lemma DivergentPrefixes(s: string, p: string, q: string, i: nat)
    requires i < |p| && i < |q| && p[i] != q[i]
    ensures !(HasPrefix(s, p) && HasPrefix(s, q))
  {
  }
}
