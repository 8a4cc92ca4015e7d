/** A peer's capabilities and how they score against a task. */
module Capability {
  import opened TaskTypes

  const GIB := 1024 * 1024 * 1024

  datatype CV = CV(task: Id, peer: string, freeBytes: int, freeVRAM: seq<int>, models: seq<string>, tools: seq<string>,
                   labels: seq<string>)

  function Sum(s: seq<int>): int {
    if s == [] then 0 else Sum(s[..|s| - 1]) + s[|s| - 1]
  }

  /** The total of two lists of GPUs is the sum of their totals, and one GPU counts as what it has. */
  lemma {:induction false} SumSplits(a: seq<int>, b: seq<int>)
    ensures Sum(a + b) == Sum(a) + Sum(b) && forall n :: Sum([n]) == n
    decreases |b|
  {
    if b == [] {
      assert a + b == a;
    } else {
      assert (a + b)[..|a + b| - 1] == a + b[..|b| - 1];
      SumSplits(a, b[..|b| - 1]);
    }
    assert forall n {:trigger Sum([n])} :: [n][..0] == [];
  }

  /** Integer division that drops the fraction: the quotient lies between zero and the exact one, less than one from it. */
  function Truncated(a: int, b: int): (q: int)
    requires b > 0
    ensures a >= 0 ==> q * b <= a < q * b + b
    ensures a <= 0 ==> q * b - b < a <= q * b
  {
    if a >= 0 then a / b else -(-a / b)
  }

  /** What the peer lacks for the task; an empty list of tools or labels, and an empty list of models, says nothing. */
  predicate Lacks(cv: CV, spec: TaskSpec) {
    || (spec.minVRAM > 0 && Sum(cv.freeVRAM) < spec.minVRAM)
    || (spec.model != "" && cv.models != [] && spec.model !in cv.models)
    || (cv.tools != [] && exists t | t in spec.tools :: t !in cv.tools)
    || (cv.labels != [] && spec.labels != [] && forall l | l in spec.labels :: l !in cv.labels)
  }

  function Score(cv: CV, spec: TaskSpec): int {
    if Lacks(cv, spec) then -1 else Truncated(cv.freeBytes, GIB) - spec.priority
  }

  method Contains(list: seq<string>, item: string) returns (found: bool)
    ensures found == (item in list)
  {
    for i := 0 to |list|
      invariant item !in list[..i]
    {
      if list[i] == item { return true; }
    }
    return false;
  }

  method AnyOverlap(have: seq<string>, need: seq<string>) returns (found: bool)
    ensures found <==> exists n | n in need :: n in have
  {
    for i := 0 to |need|
      invariant forall n | n in need[..i] :: n !in have
    {
      var has := Contains(have, need[i]);
      if has { return true; }
    }
    assert need[..|need|] == need;
    return false;
  }

  method TotalFree(free: seq<int>) returns (total: int)
    ensures total == Sum(free)
  {
    total := 0;
    for i := 0 to |free|
      invariant total == Sum(free[..i])
    {
      assert free[..i + 1][..i] == free[..i];
      total := total + free[i];
    }
    assert free[..|free|] == free;
  }

  method HasTools(cv: CV, spec: TaskSpec) returns (all: bool)
    ensures all <==> forall t | t in spec.tools :: t in cv.tools
  {
    for i := 0 to |spec.tools|
      invariant forall t | t in spec.tools[..i] :: t in cv.tools
    {
      var has := Contains(cv.tools, spec.tools[i]);
      if !has { return false; }
    }
    assert spec.tools[..|spec.tools|] == spec.tools;
    return true;
  }

  method Match(cv: CV, spec: TaskSpec) returns (score: int)
    ensures score == Score(cv, spec)
    ensures spec.minVRAM > 0 && Sum(cv.freeVRAM) < spec.minVRAM ==> score == -1
    ensures spec.model != "" && cv.models != [] && spec.model !in cv.models ==> score == -1
    ensures cv.tools != [] && (exists t | t in spec.tools :: t !in cv.tools) ==> score == -1
    ensures cv.labels != [] && spec.labels != [] && (forall l | l in spec.labels :: l !in cv.labels) ==> score == -1
    ensures
      && (spec.minVRAM > 0 ==> Sum(cv.freeVRAM) >= spec.minVRAM)
      && (spec.model == "" || cv.models == [] || spec.model in cv.models)
      && (cv.tools == [] || forall t | t in spec.tools :: t in cv.tools)
      && (cv.labels == [] || spec.labels == [] || exists l | l in spec.labels :: l in cv.labels)
      ==> score == Truncated(cv.freeBytes, 1024 * 1024 * 1024) - spec.priority
  {
    if spec.minVRAM > 0 {
      var free := TotalFree(cv.freeVRAM);
      if free < spec.minVRAM { return -1; }
    }
    if spec.model != "" && |cv.models| > 0 {
      var offered := Contains(cv.models, spec.model);
      if !offered { return -1; }
    }
    if |cv.tools| > 0 {
      var equipped := HasTools(cv, spec);
      if !equipped { return -1; }
    }
    if |cv.labels| > 0 && |spec.labels| > 0 {
      var shared := AnyOverlap(cv.labels, spec.labels);
      if !shared { return -1; }
    }
    return Truncated(cv.freeBytes, GIB) - spec.priority;
  }
}
