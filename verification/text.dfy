/** String helpers shared by the route gate and the navigation table. */
module Text {

  /** JavaScript's `s.startsWith(p)`: `p` is a raw character prefix of `s`. */
  predicate StartsWith(s: string, p: string)
  {
    |p| <= |s| && s[..|p|] == p
  }

  /** Two prefixes of one string are prefixes of each other: the shorter
      one is a prefix of the longer one. */
  lemma PrefixesNest(s: string, a: string, b: string)
    requires StartsWith(s, a) && StartsWith(s, b) && |a| <= |b|
    ensures StartsWith(b, a)
  {
    assert b[..|a|] == s[..|b|][..|a|] == s[..|a|];
  }

  /** A string starts with itself. */
  lemma StartsWithSelf(s: string)
    ensures StartsWith(s, s)
  {
  }
}
