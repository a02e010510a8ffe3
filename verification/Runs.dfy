/** Stretches of runs, of any step system. */
module Runs {
  /** Each action leads from one state to the next. */
  ghost predicate Path<A, S>(steps: (S, A, S) -> bool, acts: seq<A>, states: seq<S>) {
    |states| == |acts| + 1 && forall i | 0 <= i < |acts| :: steps(states[i], acts[i], states[i + 1])
  }

  /** A stretch may be followed by one that starts where it ends. */
  lemma {:induction false} PathJoin<A, S>(steps: (S, A, S) -> bool, a: seq<A>, s: seq<S>, b: seq<A>, t: seq<S>)
    requires Path(steps, a, s) && Path(steps, b, t) && s[|a|] == t[0]
    ensures Path(steps, a + b, s + t[1..]) && (s + t[1..])[|a + b|] == t[|b|] && (s + t[1..])[0] == s[0]
  {
    var q, r := a + b, s + t[1..];
    forall i | 0 <= i < |q| ensures steps(r[i], q[i], r[i + 1]) {
      if i < |a| {
        assert steps(s[i], a[i], s[i + 1]);
      } else {
        assert steps(t[i - |a|], b[i - |a|], t[i - |a| + 1]);
      }
    }
  }
}
