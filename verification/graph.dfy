/** Finite directed graphs: walks, cycles, minimal elements, and counting edge occurrences. */
module Graph {
  import opened TaskTypes

  type Edges = set<(Id, Id)>

  ghost predicate IsWalk(E: Edges, w: seq<Id>) {
    forall i, j | 0 <= i && j == i + 1 && j < |w| :: (w[i], w[j]) in E
  }

  /** No closed walk of at least one edge. */
  ghost predicate Acyclic(E: Edges) {
    forall w: seq<Id> | IsWalk(E, w) && |w| >= 2 :: w[0] != w[|w| - 1]
  }

  ghost predicate Within(w: seq<Id>, S: set<Id>) {
    forall i | 0 <= i < |w| :: w[i] in S
  }

  ghost predicate HasPredIn(E: Edges, S: set<Id>, m: Id) {
    exists x :: x in S && (x, m) in E
  }

  ghost predicate IsMinimal(E: Edges, S: set<Id>, m: Id) {
    m in S && !HasPredIn(E, S, m)
  }

  ghost predicate IsMaximal(E: Edges, S: set<Id>, m: Id) {
    m in S && forall x | x in S :: (m, x) !in E
  }

  ghost predicate HasMinimal(E: Edges, S: set<Id>) {
    exists m :: IsMinimal(E, S, m)
  }

  function Reverse(E: Edges): Edges {
    set e | e in E :: (e.1, e.0)
  }

  lemma {:induction false} Pigeonhole(w: seq<Id>, S: set<Id>) returns (i: nat, j: nat)
    requires |w| > |S| && Within(w, S)
    ensures i < j < |w| && w[i] == w[j]
  {
    var k := |w| - 1;
    if x :| 0 <= x < k && w[x] == w[k] {
      return x, k;
    }
    assert w[k] in S;
    i, j := Pigeonhole(w[..k], S - {w[k]});
  }

  lemma PrependWalk(E: Edges, x: Id, v: seq<Id>)
    requires IsWalk(E, v) && (|v| > 0 ==> (x, v[0]) in E)
    ensures IsWalk(E, [x] + v)
  {
    var w := [x] + v;
    forall i, j | 0 <= i && j == i + 1 && j < |w| ensures (w[i], w[j]) in E {
      if i > 0 { assert w[i] == v[i - 1] && w[j] == v[j - 1]; }
    }
  }

  /** When every element of S has a predecessor in S there are walks of any length inside S. */
  lemma {:induction false} WalkBack(E: Edges, S: set<Id>, n: nat) returns (w: seq<Id>)
    requires S != {} && forall m | m in S :: HasPredIn(E, S, m)
    ensures |w| == n + 1 && IsWalk(E, w) && Within(w, S)
  {
    if n == 0 {
      var m :| m in S;
      w := [m];
    } else {
      var v := WalkBack(E, S, n - 1);
      assert HasPredIn(E, S, v[0]);
      var x :| x in S && (x, v[0]) in E;
      PrependWalk(E, x, v);
      w := [x] + v;
    }
  }

  /** A repeated vertex on a walk is a cycle. */
  lemma RepeatIsCycle(E: Edges, w: seq<Id>, i: nat, j: nat)
    requires IsWalk(E, w) && i < j < |w| && w[i] == w[j]
    ensures !Acyclic(E)
  {
    var c := w[i..j + 1];
    assert IsWalk(E, c) by {
      forall k, l | 0 <= k && l == k + 1 && l < |c| ensures (c[k], c[l]) in E {
        assert c[k] == w[i + k] && c[l] == w[i + l];
      }
    }
    assert |c| >= 2 && c[0] == c[|c| - 1];
  }

  lemma NoMinimalIsCycle(E: Edges, S: set<Id>)
    requires S != {} && !HasMinimal(E, S)
    ensures !Acyclic(E)
  {
    forall m | m in S ensures HasPredIn(E, S, m) {
      assert !IsMinimal(E, S, m);
    }
    var w := WalkBack(E, S, |S|);
    var i, j := Pigeonhole(w, S);
    RepeatIsCycle(E, w, i, j);
  }

  lemma CycleHasNoMinimal(E: Edges, w: seq<Id>) returns (S: set<Id>)
    requires IsWalk(E, w) && |w| >= 2 && w[0] == w[|w| - 1]
    ensures S != {} && !HasMinimal(E, S)
  {
    S := set i | 0 <= i < |w| :: w[i];
    assert w[0] in S;
    forall m | m in S ensures HasPredIn(E, S, m) {
      var i :| 0 <= i < |w| && w[i] == m;
      var k := if i == 0 then |w| - 2 else i - 1;
      assert w[k] in S && w[k + 1] == m && (w[k], w[k + 1]) in E;
    }
  }

  /** Having no cycle is the same as having a first element in every non-empty finite set. */
  lemma AcyclicIffWellFounded(E: Edges)
    ensures Acyclic(E) <==> forall S: set<Id> :: S != {} ==> HasMinimal(E, S)
  {
    forall S: set<Id> | S != {} && !HasMinimal(E, S) ensures !Acyclic(E) {
      NoMinimalIsCycle(E, S);
    }
    if w: seq<Id> :| IsWalk(E, w) && |w| >= 2 && w[0] == w[|w| - 1] {
      var S := CycleHasNoMinimal(E, w);
    }
  }

  lemma ReverseAcyclic(E: Edges)
    requires Acyclic(E)
    ensures Acyclic(Reverse(E))
  {
    forall w: seq<Id> | IsWalk(Reverse(E), w) && |w| >= 2 ensures w[0] != w[|w| - 1] {
      var r := seq(|w|, i requires 0 <= i < |w| => w[|w| - 1 - i]);
      forall i, j | 0 <= i && j == i + 1 && j < |r| ensures (r[i], r[j]) in E {
        var k := |w| - 1 - j;
        assert (w[k], w[k + 1]) in Reverse(E);
      }
      assert r[0] != r[|r| - 1];
    }
  }

  lemma MaximalElement(E: Edges, S: set<Id>) returns (m: Id)
    requires Acyclic(E) && S != {}
    ensures IsMaximal(E, S, m)
  {
    ReverseAcyclic(E);
    AcyclicIffWellFounded(Reverse(E));
    assert HasMinimal(Reverse(E), S);
    m :| IsMinimal(Reverse(E), S, m);
    forall x | (m, x) in E ensures x !in S {
      assert (x, m) in Reverse(E);
    }
  }

  // ── Reachability ────────────────────────────────────────────────────

  ghost predicate WalkFromTo(E: Edges, w: seq<Id>, a: Id, b: Id) {
    |w| >= 1 && IsWalk(E, w) && w[0] == a && w[|w| - 1] == b
  }

  ghost predicate Reaches(E: Edges, a: Id, b: Id) {
    exists w :: WalkFromTo(E, w, a, b)
  }

  lemma ReachesStep(E: Edges, a: Id, b: Id, c: Id)
    requires (a, b) in E && Reaches(E, b, c)
    ensures Reaches(E, a, c)
  {
    var w :| WalkFromTo(E, w, b, c);
    PrependWalk(E, a, w);
    assert WalkFromTo(E, [a] + w, a, c);
  }

  ghost predicate HasSuccIn(E: Edges, S: set<Id>, m: Id) {
    exists x :: x in S && (m, x) in E
  }

  /** In a finite acyclic graph with a single sink, every vertex reaches the sink. */
  lemma SinkReachable(E: Edges, V: set<Id>, sink: Id)
    requires Acyclic(E) && sink in V
    requires forall v | v in V && v != sink :: HasSuccIn(E, V, v)
    ensures forall v | v in V :: Reaches(E, v, sink)
  {
    var S := set v | v in V && !Reaches(E, v, sink);
    assert WalkFromTo(E, [sink], sink, sink);
    if S != {} {
      var m := MaximalElement(E, S);
      assert HasSuccIn(E, V, m);
      var x :| x in V && (m, x) in E;
      ReachesStep(E, m, x, sink);
      assert false;
    }
    forall v | v in V ensures Reaches(E, v, sink) {
      assert v !in S;
    }
  }

  // ── Edge occurrences in successor lists ─────────────────────────────

  /** How many times n occurs in the successor list of m. */
  function Occ(succ: map<Id, seq<Id>>, m: Id, n: Id): nat {
    multiset(Listed(succ, m))[n]
  }

  /** Edge occurrences into n from the given sources, repeats counted. */
  ghost function InCount(srcs: set<Id>, succ: map<Id, seq<Id>>, n: Id): nat {
    if srcs == {} then 0 else
      var m :| m in srcs;
      Occ(succ, m, n) + InCount(srcs - {m}, succ, n)
  }

  lemma {:induction false} InCountRemove(srcs: set<Id>, succ: map<Id, seq<Id>>, m: Id, n: Id)
    requires m in srcs
    ensures InCount(srcs, succ, n) == Occ(succ, m, n) + InCount(srcs - {m}, succ, n)
    decreases srcs
  {
    var k :| k in srcs && InCount(srcs, succ, n) == Occ(succ, k, n) + InCount(srcs - {k}, succ, n);
    if k != m {
      InCountRemove(srcs - {k}, succ, m, n);
      InCountRemove(srcs - {m}, succ, k, n);
      assert srcs - {k} - {m} == srcs - {m} - {k};
    }
  }

  /** More sources, more occurrences. */
  lemma {:induction false} InCountGrows(srcs: set<Id>, more: set<Id>, succ: map<Id, seq<Id>>, n: Id)
    requires srcs <= more
    ensures InCount(srcs, succ, n) <= InCount(more, succ, n)
    decreases srcs
  {
    if srcs != {} {
      var m :| m in srcs;
      InCountRemove(srcs, succ, m, n);
      InCountRemove(more, succ, m, n);
      InCountGrows(srcs - {m}, more - {m}, succ, n);
    }
  }

  lemma {:induction false} InCountZero(srcs: set<Id>, succ: map<Id, seq<Id>>, n: Id)
    ensures InCount(srcs, succ, n) == 0 <==> forall m | m in srcs :: n !in Listed(succ, m)
    decreases srcs
  {
    if srcs != {} {
      var m :| m in srcs;
      InCountRemove(srcs, succ, m, n);
      InCountZero(srcs - {m}, succ, n);
      assert n in Listed(succ, m) <==> Occ(succ, m, n) > 0;
    }
  }

  lemma {:induction false} InCountSame(srcs: set<Id>, succ: map<Id, seq<Id>>, succ': map<Id, seq<Id>>, n: Id)
    requires forall m | m in srcs :: Occ(succ, m, n) == Occ(succ', m, n)
    ensures InCount(srcs, succ, n) == InCount(srcs, succ', n)
    decreases srcs
  {
    if srcs != {} {
      var m :| m in srcs;
      InCountRemove(srcs, succ, m, n);
      InCountRemove(srcs, succ', m, n);
      InCountSame(srcs - {m}, succ, succ', n);
    }
  }

  /** All edge occurrences into n. */
  ghost function InDegree(succ: map<Id, seq<Id>>, n: Id): nat {
    InCount(succ.Keys, succ, n)
  }

  /** Appending x to one successor list adds one occurrence into x and none elsewhere. */
  lemma InDegreeAppend(succ: map<Id, seq<Id>>, d: Id, x: Id, n: Id)
    ensures InDegree(succ[d := Listed(succ, d) + [x]], n) == InDegree(succ, n) + (if n == x then 1 else 0)
  {
    var succ' := succ[d := Listed(succ, d) + [x]];
    var rest := succ.Keys - {d};
    assert succ'.Keys - {d} == rest;
    InCountSame(rest, succ, succ', n);
    InCountRemove(succ'.Keys, succ', d, n);
    if d in succ {
      InCountRemove(succ.Keys, succ, d, n);
    } else {
      assert rest == succ.Keys;
    }
  }

  /** The edges listed in a successor map. */
  function EdgesOf(succ: map<Id, seq<Id>>): Edges {
    set m, n | m in succ && n in succ[m] :: (m, n)
  }

  // ── Sums over a set of ids ──────────────────────────────────────────

  ghost function Total(ids: set<Id>, f: map<Id, int>): int {
    if ids == {} then 0 else
      var t :| t in ids;
      Count(f, t) + Total(ids - {t}, f)
  }

  lemma {:induction false} TotalRemove(ids: set<Id>, f: map<Id, int>, t: Id)
    requires t in ids
    ensures Total(ids, f) == Count(f, t) + Total(ids - {t}, f)
    decreases ids
  {
    var k :| k in ids && Total(ids, f) == Count(f, k) + Total(ids - {k}, f);
    if k != t {
      TotalRemove(ids - {k}, f, t);
      TotalRemove(ids - {t}, f, k);
      assert ids - {k} - {t} == ids - {t} - {k};
    }
  }

  /** Pointwise bounds add up, and so do pointwise equalities. */
  lemma {:induction false} TotalWithin(ids: set<Id>, f: map<Id, int>, g: map<Id, int>)
    requires forall t | t in ids :: Count(f, t) <= 3 + Count(g, t)
    ensures Total(ids, f) <= 3 * |ids| + Total(ids, g)
    ensures (forall t | t in ids :: Count(f, t) == 3 + Count(g, t)) ==> Total(ids, f) == 3 * |ids| + Total(ids, g)
    decreases ids
  {
    if ids != {} {
      var t :| t in ids;
      TotalRemove(ids, f, t);
      TotalRemove(ids, g, t);
      TotalWithin(ids - {t}, f, g);
    }
  }
}
