/** Counting over tables, as sums over rows of truth values. */
module Counting {
  function Count(flags: seq<bool>): (n: nat)
    ensures n <= |flags|
  {
    if flags == [] then 0
    else Count(flags[..|flags| - 1]) + (if flags[|flags| - 1] then 1 else 0)
  }

  lemma CountAppend(flags: seq<bool>, b: bool)
    ensures Count(flags + [b]) == Count(flags) + (if b then 1 else 0)
  {
    assert (flags + [b])[..|flags|] == flags;
  }

  lemma {:induction false} CountNone(flags: seq<bool>)
    requires forall i :: 0 <= i < |flags| ==> !flags[i]
    ensures Count(flags) == 0
  {
    if flags != [] {
      CountNone(flags[..|flags| - 1]);
    }
  }

  /** Two disjoint conditions count separately. */
  lemma {:induction false} CountSplit(whole: seq<bool>, a: seq<bool>, b: seq<bool>)
    requires |whole| == |a| == |b|
    requires forall i :: 0 <= i < |whole| ==> whole[i] == (a[i] || b[i]) && !(a[i] && b[i])
    ensures Count(whole) == Count(a) + Count(b)
  {
    if whole != [] {
      CountSplit(whole[..|whole| - 1], a[..|a| - 1], b[..|b| - 1]);
    }
  }

  /** A pointwise weaker condition counts no more, and as much only if it is the same. */
  lemma {:induction false} CountWeaker(less: seq<bool>, more: seq<bool>)
    requires |less| == |more|
    requires forall i :: 0 <= i < |less| ==> less[i] ==> more[i]
    ensures Count(less) <= Count(more)
    ensures Count(less) == Count(more) <==> less == more
  {
    if less != [] {
      var n := |less| - 1;
      CountWeaker(less[..n], more[..n]);
      if less[..n] == more[..n] && less[n] == more[n] {
        assert less == less[..n] + [less[n]];
        assert more == more[..n] + [more[n]];
      }
    }
  }

  /** Counting is the size of the set of positions that hold. */
  lemma {:induction false} CountIsSize(flags: seq<bool>, s: set<int>)
    requires s == set i | 0 <= i < |flags| && flags[i]
    ensures Count(flags) == |s|
  {
    if flags == [] {
      assert s == {};
    } else {
      var n := |flags| - 1;
      var rest := set i | 0 <= i < n && flags[..n][i];
      CountIsSize(flags[..n], rest);
      assert s == rest + if flags[n] then {n} else {};
    }
  }
}
