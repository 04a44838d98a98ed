/** Finite sequences of steps of any relation. */
module Paths {
  ghost predicate Path<S(!new)>(next: (S, S) -> bool, path: seq<S>) {
    |path| > 0 && forall i :: 0 < i < |path| ==> next(path[i - 1], path[i])
  }

  ghost predicate Reaches<S(!new)>(next: (S, S) -> bool, s: S, t: S) {
    exists path: seq<S> :: Path(next, path) && path[0] == s && path[|path| - 1] == t
  }

  lemma Start<S(!new)>(next: (S, S) -> bool, s: S)
    ensures Reaches(next, s, s)
  {
    assert Path(next, [s]);
  }

  lemma Extend<S(!new)>(next: (S, S) -> bool, s: S, t: S, u: S)
    requires Reaches(next, s, t) && next(t, u)
    ensures Reaches(next, s, u)
  {
    var path :| Path(next, path) && path[0] == s && path[|path| - 1] == t;
    assert Path(next, path + [u]);
  }

  lemma Join<S(!new)>(next: (S, S) -> bool, s: S, t: S, u: S)
    requires Reaches(next, s, t) && Reaches(next, t, u)
    ensures Reaches(next, s, u)
  {
    var p :| Path(next, p) && p[0] == s && p[|p| - 1] == t;
    var q :| Path(next, q) && q[0] == t && q[|q| - 1] == u;
    JoinedPath(next, p, q);
    assert Path(next, p + q[1..]);
  }

  lemma JoinedPath<S(!new)>(next: (S, S) -> bool, p: seq<S>, q: seq<S>)
    requires Path(next, p) && Path(next, q) && p[|p| - 1] == q[0]
    ensures var j := p + q[1..]; Path(next, j) && j[0] == p[0] && j[|j| - 1] == q[|q| - 1]
  {
    var j := p + q[1..];
    forall i | 0 < i < |j| ensures next(j[i - 1], j[i]) {
      if i >= |p| {
        assert j[i] == q[i - |p| + 1] && j[i - 1] == q[i - |p|];
        assert next(q[i - |p|], q[i - |p| + 1]);
      }
    }
  }

  /** What every step keeps is kept along a path. */
  lemma {:induction false} PathKeeps<S(!new)>(next: (S, S) -> bool, path: seq<S>, i: nat, good: S -> bool)
    requires Path(next, path) && i < |path| && good(path[0])
    requires forall s, t :: good(s) && next(s, t) ==> good(t)
    ensures good(path[i])
    decreases i
  {
    if i > 0 { PathKeeps(next, path, i - 1, good); }
  }
}
