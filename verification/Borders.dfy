/** Border theory: which prefixes of a pattern are suffixes of a text. */
module Borders {

  /** The first k characters of p are the last k characters of t. */
  ghost predicate Matches(p: string, t: string, k: int) {
    0 <= k <= |p| && k <= |t| && p[..k] == t[|t| - k..]
  }

  /** The longest prefix of p, no longer than bound, that is a suffix of t. */
  ghost function Longest(p: string, t: string, bound: nat): (k: nat)
    ensures k <= bound && Matches(p, t, k)
    ensures forall j :: k < j <= bound ==> !Matches(p, t, j)
  {
    if bound == 0 || Matches(p, t, bound) then bound else Longest(p, t, bound - 1)
  }

  /** What the table holds for the prefix p[..i]: its longest proper border. */
  ghost predicate TableUpTo(p: string, table: seq<nat>, n: nat) {
    && n <= |table| == |p|
    && forall i {:trigger table[i]} :: 0 <= i < n ==> table[i] == Longest(p, p[..i + 1], i)
  }

  ghost predicate ValidTable(p: string, table: seq<nat>) {
    TableUpTo(p, table, |p|)
  }

  lemma LongestIs(p: string, t: string, bound: nat, k: nat)
    requires k <= bound && Matches(p, t, k)
    requires forall j :: k < j <= bound ==> !Matches(p, t, j)
    ensures Longest(p, t, bound) == k
  {}

  /** Dropping the last character from both sides of a match. */
  lemma MatchesShrink(p: string, t: string, c: char, k: nat)
    requires k > 0
    ensures Matches(p, t + [c], k) <==> k <= |p| && Matches(p, t, k - 1) && p[k - 1] == c
  {
    var u := t + [c];
    if Matches(p, u, k) {
      assert p[k - 1] == u[|u| - k..][k - 1] == c;
      assert p[..k - 1] == p[..k][..k - 1] == u[|u| - k..][..k - 1] == t[|t| - (k - 1)..];
    }
    if k <= |p| && Matches(p, t, k - 1) && p[k - 1] == c {
      assert p[..k] == p[..k - 1] + [c] == u[|u| - k..];
    }
  }

  /** When p[..s] is a suffix of t, the shorter prefixes that are suffixes of t are
      exactly the borders of p[..s]. */
  lemma MatchesInside(p: string, t: string, s: nat, k: nat)
    requires Matches(p, t, s) && k <= s
    ensures Matches(p, t, k) <==> Matches(p, p[..s], k)
  {}
}
