/** Finite sets of indices: sizes, and the pigeonhole principle for sequences. */
module Sets {

  lemma {:induction false} SubsetSize(a: set<nat>, b: set<nat>)
    requires a <= b
    ensures |a| <= |b|
    decreases |a|
  {
    if a != {} {
      var x :| x in a;
      SubsetSize(a - {x}, b - {x});
    }
  }

  function Below(n: nat): (s: set<nat>)
    ensures |s| == n && forall c: nat :: c in s <==> c < n
  {
    if n == 0 then {} else Below(n - 1) + {n - 1}
  }

  function Elements(s: seq<nat>): (e: set<nat>)
    ensures |e| <= |s| && forall c: nat :: c in e <==> c in s
  {
    if s == [] then {} else Elements(s[..|s| - 1]) + {s[|s| - 1]}
  }

  /** A sequence of n entries that names every number below n names none of them twice. */
  lemma CoverIsInjective(s: seq<nat>, a: nat, b: nat)
    requires a < b < |s| && forall c: nat :: c < |s| ==> c in s
    ensures s[a] != s[b]
  {
    if s[a] == s[b] {
      var t := s[..b] + s[b + 1..];
      forall c: nat | c < |s|
        ensures c in t
      {
        assert c in s;
        var k :| 0 <= k < |s| && s[k] == c;
        var k' := if k == b then a else k;
        assert s[k'] == t[if k' < b then k' else k' - 1];
      }
      SubsetSize(Below(|s|), Elements(t));
    }
  }
}
