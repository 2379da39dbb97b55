/**
 * A JavaScript `Set<string>` as the scripts use it: a sequence without
 * duplicates that remembers insertion order (`Array.from(set)` and
 * `set.forEach` visit elements in that order).
 */
module InsertionSet {

  /** No element occurs twice. */
  predicate Distinct(s: seq<string>) {
    forall i, j :: 0 <= i < j < |s| ==> s[i] != s[j]
  }

  /** `r` is `s` with some elements left out and the rest kept in order. */
  predicate IsSubsequence(r: seq<string>, s: seq<string>)
    decreases |s|
  {
    if r == [] then true
    else if s == [] then false
    else if r[|r| - 1] == s[|s| - 1] then IsSubsequence(r[..|r| - 1], s[..|s| - 1])
    else IsSubsequence(r, s[..|s| - 1])
  }

  lemma {:induction false} SubsequenceDropLast(r: seq<string>, s: seq<string>)
    requires r != [] && IsSubsequence(r, s)
    ensures IsSubsequence(r[..|r| - 1], s)
    decreases |s|, 0
  {
    var r', s' := r[..|r| - 1], s[..|s| - 1];
    if r[|r| - 1] == s[|s| - 1] {
      SubsequenceExtend(r', s', s[|s| - 1]);
      assert s' + [s[|s| - 1]] == s;
    } else {
      SubsequenceDropLast(r, s');
      SubsequenceExtend(r', s', s[|s| - 1]);
      assert s' + [s[|s| - 1]] == s;
    }
  }

  /** Appending to the longer sequence keeps a subsequence a subsequence. */
  lemma {:induction false} SubsequenceExtend(r: seq<string>, s: seq<string>, x: string)
    requires IsSubsequence(r, s)
    ensures IsSubsequence(r, s + [x])
    decreases |s|, 1
  {
    var t := s + [x];
    assert t[..|t| - 1] == s;
    if r != [] && r[|r| - 1] == x {
      SubsequenceDropLast(r, s);
    }
  }

  /** A step that appends `x` to `s` either appends `x` to `r` or leaves it. */
  lemma SubsequenceStep(r: seq<string>, r': seq<string>, s: seq<string>, x: string)
    requires IsSubsequence(r, s)
    requires r' == r || r' == r + [x]
    ensures IsSubsequence(r', s + [x])
  {
    if r' == r {
      SubsequenceExtend(r, s, x);
    } else {
      assert (r + [x])[..|r|] == r;
      assert (s + [x])[..|s|] == s;
    }
  }

  /** `set.add(x)`: appends `x` unless it is already present. */
  function Add(s: seq<string>, x: string): (r: seq<string>)
    ensures forall y :: y in r <==> y in s || y == x
    ensures |s| <= |r| <= |s| + 1 && r[..|s|] == s
    ensures Distinct(s) ==> Distinct(r)
  {
    if x in s then s else s + [x]
  }

  /** `xs.forEach(x => set.add(x))` */
  function AddAll(s: seq<string>, xs: seq<string>): (r: seq<string>)
    ensures forall y :: y in r <==> y in s || y in xs
    ensures |s| <= |r| && r[..|s|] == s
    ensures Distinct(s) ==> Distinct(r)
    decreases |xs|
  {
    if xs == [] then s else Add(AddAll(s, xs[..|xs| - 1]), xs[|xs| - 1])
  }

  lemma AddAllOne(s: seq<string>, x: string)
    ensures AddAll(s, [x]) == Add(s, x)
  {
    assert [x][..0] == [];
  }

  /** Adding two batches one after the other is adding their concatenation. */
  lemma {:induction false} AddAllConcat(s: seq<string>, xs: seq<string>, ys: seq<string>)
    ensures AddAll(AddAll(s, xs), ys) == AddAll(s, xs + ys)
    decreases |ys|
  {
    if ys == [] {
      assert xs + ys == xs;
    } else {
      var ys' := ys[..|ys| - 1];
      AddAllConcat(s, xs, ys');
      assert (xs + ys)[..|xs + ys| - 1] == xs + ys';
    }
  }

  /** Adding elements that are all present already changes nothing. */
  lemma {:induction false} AddAllPresent(s: seq<string>, xs: seq<string>)
    requires forall x :: x in xs ==> x in s
    ensures AddAll(s, xs) == s
    decreases |xs|
  {
    if xs != [] {
      AddAllPresent(s, xs[..|xs| - 1]);
    }
  }
}
