/** Finding the first complete JSON object in a model's answer. */
module ExtractJson {
  import opened TaskTypes

  /** Open braces minus closed braces; braces inside JSON strings are counted like any other. */
  function Depth(s: string): int {
    if s == "" then 0 else
      Depth(s[..|s| - 1]) + (if s[|s| - 1] == '{' then 1 else if s[|s| - 1] == '}' then -1 else 0)
  }

  lemma {:induction false} DepthCounts(s: string)
    ensures Depth(s) + multiset(s)['}'] == multiset(s)['{']
  {
    if s != "" {
      var n := |s| - 1;
      DepthCounts(s[..n]);
      assert s == s[..n] + [s[n]];
    }
  }

  /** A brace-balanced object: it starts with a brace, and its depth is positive until its end, where it is zero. */
  ghost predicate Balanced(s: string) {
    && |s| > 0 && s[0] == '{' && Depth(s) == 0
    && forall k | 0 < k < |s| :: Depth(s[..k]) > 0
  }

  /** s begins with pre, then obj, and pre holds no opening brace. */
  predicate FoundAt(s: string, pre: string, obj: string) {
    pre + obj <= s && '{' !in pre
  }

  ghost predicate HasObject(s: string) {
    exists pre, obj :: FoundAt(s, pre, obj) && Balanced(obj)
  }

  /** The first opening brace. */
  method IndexBrace(s: string) returns (start: int)
    ensures -1 <= start < |s|
    ensures start >= 0 ==> s[start] == '{' && '{' !in s[..start]
    ensures start < 0 ==> '{' !in s
  {
    start := 0;
    while start < |s|
      invariant 0 <= start <= |s| && '{' !in s[..start]
    {
      if s[start] == '{' { return; }
      start := start + 1;
    }
    assert s == s[..start];
    start := -1;
  }

  /** The scan returns the balanced object at the first brace, or the whole answer when there is none. */
  method Extract(raw: string) returns (r: string)
    ensures r == Extracted(raw)
  {
    var start := IndexBrace(raw);
    if start < 0 {
      NoBraceNoObject(raw);
      return raw;
    }
    var depth := 0;
    for i := start to |raw|
      invariant depth == Depth(raw[start..i])
      invariant forall k | start < k <= i :: Depth(raw[start..k]) > 0
    {
      assert raw[start..i + 1] == raw[start..i] + [raw[i]];
      assert raw[start..i + 1][..|raw[start..i + 1]| - 1] == raw[start..i];
      if raw[i] == '{' {
        depth := depth + 1;
      } else if raw[i] == '}' {
        depth := depth - 1;
        if depth == 0 {
          r := raw[start..i + 1];
          FirstClose(raw, start, i + 1);
          ExtractedIs(raw, raw[..start], r);
          return;
        }
      }
      assert i == start ==> depth == 1;
    }
    NeverClosed(raw, start);
    return raw;
  }

  lemma NoBraceNoObject(s: string)
    requires '{' !in s
    ensures !HasObject(s)
  {
    forall pre, obj | FoundAt(s, pre, obj) ensures !Balanced(obj) {
      assert |obj| > 0 ==> s[|pre|] == obj[0];
    }
  }

  lemma FirstClose(s: string, start: int, end: int)
    requires 0 <= start < end <= |s| && s[start] == '{' && '{' !in s[..start]
    requires Depth(s[start..end]) == 0 && forall k | start < k < end :: Depth(s[start..k]) > 0
    ensures FoundAt(s, s[..start], s[start..end]) && Balanced(s[start..end])
  {
    var obj := s[start..end];
    assert s[..start] + obj == s[..end];
    forall k | 0 < k < |obj| ensures Depth(obj[..k]) > 0 { assert obj[..k] == s[start..start + k]; }
  }

  lemma BraceNotBefore(s: string, i: int, start: int)
    requires 0 <= i < |s| && s[i] == '{' && 0 <= start <= |s| && '{' !in s[..start]
    ensures start <= i
  {
    assert forall k | 0 <= k < start :: s[..start][k] == s[k];
  }

  /** The object of an answer starts at its first opening brace. */
  lemma ObjectStart(s: string, start: int, pre: string, obj: string)
    requires 0 <= start < |s| && s[start] == '{' && '{' !in s[..start]
    requires FoundAt(s, pre, obj) && |obj| > 0 && obj[0] == '{'
    ensures pre == s[..start] && obj == s[start..start + |obj|]
  {
    assert s[|pre|] == obj[0] && s[..|pre|] == pre;
    BraceNotBefore(s, |pre|, start);
    BraceNotBefore(s, start, |pre|);
    assert obj == (pre + obj)[|pre|..];
    assert (pre + obj) == s[..|pre| + |obj|];
  }

  lemma NeverClosed(s: string, start: int)
    requires 0 <= start < |s| && s[start] == '{' && '{' !in s[..start]
    requires forall k | start < k <= |s| :: Depth(s[start..k]) > 0
    ensures !HasObject(s)
  {
    forall pre, obj | FoundAt(s, pre, obj) ensures !Balanced(obj) {
      if |obj| > 0 && obj[0] == '{' {
        ObjectStart(s, start, pre, obj);
        assert Depth(s[start..start + |obj|]) > 0;
      }
    }
  }

  /** An answer holds at most one such object: where it starts and where it ends are both forced. */
  lemma ObjectUnique(s: string, pre: string, obj: string, pre': string, obj': string)
    requires FoundAt(s, pre, obj) && Balanced(obj) && FoundAt(s, pre', obj') && Balanced(obj')
    ensures pre == pre' && obj == obj'
  {
    var start := |pre|;
    assert s[start] == obj[0] && s[..start] == pre;
    ObjectStart(s, start, pre, obj);
    ObjectStart(s, start, pre', obj');
    assert obj[..|obj|] == obj && obj'[..|obj'|] == obj';
    var k := if |obj| < |obj'| then |obj| else |obj'|;
    assert obj[..k] == obj'[..k];
  }

  /** What the scan is for: the balanced object at the first brace if there is one, else the whole answer. */
  ghost function Extracted(raw: string): string {
    if HasObject(raw) then
      var pre, obj :| FoundAt(raw, pre, obj) && Balanced(obj);
      obj
    else raw
  }

  lemma ExtractedIs(s: string, pre: string, obj: string)
    requires FoundAt(s, pre, obj) && Balanced(obj)
    ensures Extracted(s) == obj
  {
    var pre', obj' :| FoundAt(s, pre', obj') && Balanced(obj') && Extracted(s) == obj';
    ObjectUnique(s, pre, obj, pre', obj');
  }

  /** Any answer that wraps a balanced object in brace-free text before it and anything after it yields that object. */
  lemma ExtractsObject(pre: string, obj: string, post: string)
    requires '{' !in pre && Balanced(obj)
    ensures Extracted(pre + obj + post) == obj
  {
    var s := pre + obj + post;
    assert pre + obj <= s;
    ExtractedIs(s, pre, obj);
  }

  lemma ExtractIdempotent(raw: string)
    ensures Extracted(Extracted(raw)) == Extracted(raw)
  {
    if HasObject(raw) {
      var obj := Extracted(raw);
      assert "" + obj + "" == obj;
      ExtractsObject("", obj, "");
    }
  }
}
