/** Node ids carry their plan's id: what can and what cannot be read back from them. */
module PlanIds {
  import opened TaskTypes
  import opened PlannerModel

  predicate IsDigit(c: char) { '0' <= c <= '9' }

  const PREFIX := "plan-"

  /** The wrapper's tracking ids: "plan-" and a decimal number. */
  predicate IsPlanId(p: Id) {
    && |p.s| > |PREFIX| && p.s[..|PREFIX|] == PREFIX
    && forall i | |PREFIX| <= i < |p.s| :: IsDigit(p.s[i])
  }

  /** The dash after a shorter plan id would have to be a digit of the longer one. */
  lemma LongerPlanIdDiffers(p: Id, q: Id, a: string, b: string)
    requires IsPlanId(p) && IsPlanId(q) && |p.s| < |q.s|
    ensures NodeId(p, a) != NodeId(q, b)
  {
    assert (p.s + "-" + a)[|p.s|] == '-';
    assert (q.s + "-" + b)[|p.s|] == q.s[|p.s|];
    assert IsDigit(q.s[|p.s|]);
  }

  /** Nodes of different plans have different ids. */
  lemma PlansDisjoint(p: Id, q: Id, a: string, b: string)
    requires IsPlanId(p) && IsPlanId(q) && p != q
    ensures NodeId(p, a) != NodeId(q, b)
  {
    if |p.s| < |q.s| {
      LongerPlanIdDiffers(p, q, a, b);
    } else if |q.s| < |p.s| {
      LongerPlanIdDiffers(q, p, b, a);
    } else {
      assert (p.s + "-" + a)[..|p.s|] == p.s;
      assert (q.s + "-" + b)[..|p.s|] == q.s;
    }
  }

  // ── parentPlanID ────────────────────────────────────────────────────

  function Dashes(s: string): nat {
    if s == "" then 0 else Dashes(s[..|s| - 1]) + (if s[|s| - 1] == '-' then 1 else 0)
  }

  /** Position of the last dash, -1 if there is none. */
  function LastDash(s: string): (r: int)
    ensures -1 <= r < |s|
    ensures r >= 0 ==> s[r] == '-'
    ensures forall i | r < i < |s| :: s[i] != '-'
  {
    if s == "" then -1
    else if s[|s| - 1] == '-' then |s| - 1
    else LastDash(s[..|s| - 1])
  }

  function ParentPlanId(id: Id): Id {
    if Dashes(id.s) >= 2 then
      var last := LastDash(id.s);
      if last >= 0 then Id(id.s[..last]) else id
    else id
  }

  lemma {:induction false} DashesConcat(a: string, b: string)
    ensures Dashes(a + b) == Dashes(a) + Dashes(b)
  {
    if b == "" {
      assert a + b == a;
    } else {
      DashesConcat(a, b[..|b| - 1]);
      assert (a + b)[..|a + b| - 1] == a + b[..|b| - 1];
    }
  }

  lemma {:induction false} NoDashes(s: string)
    ensures Dashes(s) == 0 <==> '-' !in s
  {
    if s != "" {
      NoDashes(s[..|s| - 1]);
      assert s == s[..|s| - 1] + [s[|s| - 1]];
    }
  }

  lemma NodeDashes(p: Id, name: string)
    ensures Dashes(NodeId(p, name).s) == Dashes(p.s) + 1 + Dashes(name)
  {
    DashesConcat(p.s + "-", name);
    DashesConcat(p.s, "-");
    assert Dashes("-") == 1;
  }

  lemma NodeLastDash(p: Id, name: string)
    ensures '-' !in name ==> LastDash(NodeId(p, name).s) == |p.s|
    ensures '-' in name ==> LastDash(NodeId(p, name).s) > |p.s|
    ensures NodeId(p, name).s[..|p.s|] == p.s
  {
    var s := NodeId(p, name).s;
    assert s[|p.s|] == '-';
    forall i | |p.s| < i < |s| ensures s[i] == name[i - |p.s| - 1] { }
    if i :| 0 <= i < |name| && name[i] == '-' { assert s[|p.s| + 1 + i] == '-'; }
  }

  /** The parent of a node id is its plan exactly when the plan id has a dash and the node's own name has none. */
  lemma ParentRoundTrip(p: Id, name: string)
    ensures ParentPlanId(NodeId(p, name)) == p <==> '-' in p.s && '-' !in name
  {
    NodeDashes(p, name);
    NodeLastDash(p, name);
    NoDashes(p.s);
    NoDashes(name);
    if '-' in name { assert |ParentPlanId(NodeId(p, name)).s| > |p.s|; }
  }

  /** For the wrapper's plan ids the reduce node finds its plan. */
  lemma ReduceFindsPlan(p: Id)
    requires IsPlanId(p)
    ensures ParentPlanId(ReduceId(p)) == p
  {
    assert p.s[4] == PREFIX[4];
    ParentRoundTrip(p, "reduce");
  }
}
