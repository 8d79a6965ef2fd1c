/** Picking the member assigned longest ago, or holding the fewest tickets, as scheduling
    disciplines on their own. */
module Rota {
  import opened Types

  predicate IsMin(key: map<AgentId, int>, a: AgentId) {
    a in key && forall b | b in key :: key[a] <= key[b]
  }

  function Occurrences(picks: seq<AgentId>, a: AgentId): nat {
    if picks == [] then 0
    else Occurrences(picks[..|picks| - 1], a) + if picks[|picks| - 1] == a then 1 else 0
  }

  // ---------- Longest ago first ----------

  /** Each pick is a member assigned longest ago, and is stamped later than all before. */
  predicate RotaRun(last: map<AgentId, int>, picks: seq<AgentId>, times: seq<int>)
    requires |picks| == |times|
    decreases |picks|
  {
    picks == [] ||
    (&& IsMin(last, picks[0])
     && (forall a | a in last :: last[a] < times[0])
     && RotaRun(last[picks[0] := times[0]], picks[1..], times[1..]))
  }

  lemma RotaCons(last: map<AgentId, int>, p: AgentId, t: int, picks: seq<AgentId>, times: seq<int>)
    requires |picks| == |times| && IsMin(last, p) && (forall a | a in last :: last[a] < t)
    requires RotaRun(last[p := t], picks, times)
    ensures RotaRun(last, [p] + picks, [t] + times)
  {
    assert ([p] + picks)[1..] == picks && ([t] + times)[1..] == times;
  }

  function LastAfter(last: map<AgentId, int>, picks: seq<AgentId>, times: seq<int>): map<AgentId, int>
    requires |picks| == |times|
    decreases |picks|
  {
    if picks == [] then last else LastAfter(last[picks[0] := times[0]], picks[1..], times[1..])
  }

  lemma {:induction false} RotaState(last: map<AgentId, int>, picks: seq<AgentId>, times: seq<int>, j: nat)
    requires |picks| == |times| && j < |picks| && RotaRun(last, picks, times)
    ensures var after := LastAfter(last, picks[..j], times[..j]);
      && after.Keys == last.Keys && IsMin(after, picks[j])
      && (forall a | a in last :: last[a] <= after[a])
      && (forall a | a in last && a !in picks[..j] :: after[a] == last[a])
    ensures RotaRun(LastAfter(last, picks[..j], times[..j]), picks[j..], times[j..])
    decreases j
  {
    if j == 0 {
      assert picks[0..] == picks && times[0..] == times;
    } else {
      RotaState(last[picks[0] := times[0]], picks[1..], times[1..], j - 1);
      assert picks[..j][1..] == picks[1..][..j - 1] && times[..j][1..] == times[1..][..j - 1];
      assert picks[1..][j - 1..] == picks[j..] && times[1..][j - 1..] == times[j..];
      assert picks[..j][0] == picks[0];
    }
  }

  function Served(picks: seq<AgentId>): set<AgentId> { set a | a in picks }

  lemma {:induction false} FewServed(picks: seq<AgentId>)
    ensures |Served(picks)| <= |picks|
  {
    if picks != [] {
      var n := |picks| - 1;
      FewServed(picks[..n]);
      assert Served(picks) == Served(picks[..n]) + {picks[n]};
    }
  }

  /** Fewer picks than members leave a member out. */
  lemma SomeoneUnpicked(members: set<AgentId>, picks: seq<AgentId>) returns (m: AgentId)
    requires |picks| < |members|
    ensures m in members && m !in picks
  {
    FewServed(picks);
    if members <= Served(picks) {
      SubsetSize(members, Served(picks));
      assert false;
    }
    m :| m in members && m !in Served(picks);
  }

  /** A member is not picked again before every other member has been. */
  lemma NotTooSoon(last: map<AgentId, int>, picks: seq<AgentId>, times: seq<int>, j: nat)
    requires |picks| == |times| && RotaRun(last, picks, times) && 0 < j < |last| && j < |picks|
    ensures picks[j] != picks[0]
  {
    var first := last[picks[0] := times[0]];
    assert |last.Keys| == |last|;
    var m := SomeoneUnpicked(last.Keys, picks[..j]);
    assert picks[..j] == [picks[0]] + picks[1..][..j - 1];
    RotaState(first, picks[1..], times[1..], j - 1);
    var after := LastAfter(first, picks[1..][..j - 1], times[1..][..j - 1]);
    assert m != picks[0] && m !in picks[1..][..j - 1];
    assert after[m] == last[m] < times[0] <= after[picks[0]];
    assert picks[1..][j - 1] == picks[j];
  }

  lemma SubsetSize(a: set<AgentId>, b: set<AgentId>)
    requires a <= b
    ensures |a| <= |b|
  {
    var rest := b - a;
    assert b == a + rest;
  }

  /** Any |last| consecutive picks are distinct. */
  lemma WindowDistinct(last: map<AgentId, int>, picks: seq<AgentId>, times: seq<int>, i: nat, j: nat)
    requires |picks| == |times| && RotaRun(last, picks, times) && i < j < |picks| && j < i + |last|
    ensures picks[i] != picks[j]
  {
    RotaState(last, picks, times, i);
    var after := LastAfter(last, picks[..i], times[..i]);
    assert |after| == |after.Keys| == |last.Keys| == |last|;
    NotTooSoon(after, picks[i..], times[i..], j - i);
  }

  lemma {:induction false} PicksAreMembers(last: map<AgentId, int>, picks: seq<AgentId>, times: seq<int>)
    requires |picks| == |times| && RotaRun(last, picks, times)
    ensures forall k :: 0 <= k < |picks| ==> picks[k] in last
    decreases |picks|
  {
    if picks != [] {
      PicksAreMembers(last[picks[0] := times[0]], picks[1..], times[1..]);
      assert forall k :: 1 <= k < |picks| ==> picks[k] == picks[1..][k - 1];
    }
  }

  lemma {:induction false} DistinctOccurrences(picks: seq<AgentId>, a: AgentId)
    requires forall i, j :: 0 <= i < j < |picks| ==> picks[i] != picks[j]
    ensures Occurrences(picks, a) == if a in picks then 1 else 0
    ensures |Served(picks)| == |picks|
  {
    if picks != [] {
      var n := |picks| - 1;
      var rest, last := picks[..n], picks[n];
      assert picks == rest + [last];
      assert last !in rest;
      DistinctOccurrences(rest, a);
      assert Served(picks) == Served(rest) + {last};
    }
  }

  lemma {:induction false} OccurrencesAppend(p: seq<AgentId>, q: seq<AgentId>, a: AgentId)
    ensures Occurrences(p + q, a) == Occurrences(p, a) + Occurrences(q, a)
  {
    if q == [] {
      assert p + q == p;
    } else {
      var n := |q| - 1;
      OccurrencesAppend(p, q[..n], a);
      assert (p + q)[..|p| + n] == p + q[..n];
    }
  }

  /** Any |last| consecutive picks contain every member exactly once. */
  lemma FullWindow(last: map<AgentId, int>, picks: seq<AgentId>, times: seq<int>, i: nat, a: AgentId)
    requires |picks| == |times| && RotaRun(last, picks, times) && i + |last| <= |picks| && a in last
    ensures Occurrences(picks[i..i + |last|], a) == 1
  {
    WindowIsDistinct(last, picks, times, i);
    WindowIsMembers(last, picks, times, i);
    DistinctCover(picks[i..i + |last|], last.Keys, a);
  }

  lemma WindowIsDistinct(last: map<AgentId, int>, picks: seq<AgentId>, times: seq<int>, i: nat)
    requires |picks| == |times| && RotaRun(last, picks, times) && i + |last| <= |picks|
    ensures var window := picks[i..i + |last|]; forall j, k :: 0 <= j < k < |window| ==> window[j] != window[k]
  {
    var window := picks[i..i + |last|];
    forall j, k | 0 <= j < k < |window|
      ensures window[j] != window[k]
    {
      WindowDistinct(last, picks, times, i + j, i + k);
    }
  }

  lemma WindowIsMembers(last: map<AgentId, int>, picks: seq<AgentId>, times: seq<int>, i: nat)
    requires |picks| == |times| && RotaRun(last, picks, times) && i + |last| <= |picks|
    ensures var window := picks[i..i + |last|];
      |window| == |last.Keys| && forall k :: 0 <= k < |window| ==> window[k] in last.Keys
  {
    PicksAreMembers(last, picks, times);
    assert |last.Keys| == |last|;
  }

  /** As many distinct picks as there are members leave no member out. */
  lemma DistinctCover(window: seq<AgentId>, members: set<AgentId>, a: AgentId)
    requires forall j, k :: 0 <= j < k < |window| ==> window[j] != window[k]
    requires (forall k :: 0 <= k < |window| ==> window[k] in members) && |window| == |members| && a in members
    ensures Occurrences(window, a) == 1
  {
    DistinctOccurrences(window, a);
    assert Served(window) <= members;
    FullSubset(Served(window), members);
    assert a in Served(window);
  }

  lemma FewPicks(last: map<AgentId, int>, picks: seq<AgentId>, times: seq<int>, k: nat, a: AgentId)
    requires |picks| == |times| && RotaRun(last, picks, times) && k <= |picks| && k < |last|
    ensures Occurrences(picks[..k], a) <= if k == 0 then 0 else 1
  {
    forall i, j | 0 <= i < j < k
      ensures picks[..k][i] != picks[..k][j]
    {
      WindowDistinct(last, picks, times, i, j);
    }
    DistinctOccurrences(picks[..k], a);
  }

  /** `x` is `k` divided by `n`, rounded down or up. */
  predicate Share(x: int, k: nat, n: nat)
    requires n > 0
  {
    k / n <= x <= (k + n - 1) / n
  }

  lemma ShareShift(x: int, k: nat, n: nat)
    requires 0 < n <= k && Share(x, k - n, n)
    ensures Share(x + 1, k, n)
  {
    QuotientShift(k, n);
    QuotientShift(k + n - 1, n);
  }

  /** After k picks every one of the n members has received k/n of them, rounded down or up. */
  lemma {:induction false} RotaIsFair(last: map<AgentId, int>, picks: seq<AgentId>, times: seq<int>, k: nat, a: AgentId)
    requires |picks| == |times| && RotaRun(last, picks, times) && k <= |picks| && a in last
    ensures |last| > 0 && Share(Occurrences(picks[..k], a), k, |last|)
    decreases k
  {
    var n := |last|;
    assert n > 0 by { assert a in last.Keys; }
    if k < n {
      FewPicks(last, picks, times, k, a);
      SmallQuotient(k, n);
    } else {
      RotaIsFair(last, picks, times, k - n, a);
      FullWindow(last, picks, times, k - n, a);
      assert picks[..k] == picks[..k - n] + picks[k - n..k];
      OccurrencesAppend(picks[..k - n], picks[k - n..k], a);
      ShareShift(Occurrences(picks[..k - n], a), k, n);
    }
  }

  lemma SmallQuotient(k: nat, n: nat)
    requires k < n
    ensures k / n == 0 && (k + n - 1) / n == if k == 0 then 0 else 1
  {
    QuotientUnique(k, n, 0, k);
    if k == 0 {
      QuotientUnique(n - 1, n, 0, n - 1);
    } else {
      QuotientUnique(k + n - 1, n, 1, k - 1);
    }
  }

  lemma QuotientShift(x: nat, n: nat)
    requires 0 < n <= x
    ensures x / n == (x - n) / n + 1
  {
    var q, r := (x - n) / n, (x - n) % n;
    assert x - n == q * n + r;
    Distribute(q, n);
    QuotientUnique(x, n, q + 1, r);
  }

  lemma Distribute(q: int, n: int)
    ensures (q + 1) * n == q * n + n
  {
  }

  lemma AtLeastOne(k: int, n: int)
    requires 1 <= k && 0 <= n
    ensures n <= k * n
  {
  }

  lemma QuotientUnique(x: int, n: int, q: int, r: int)
    requires x == q * n + r && 0 <= r < n
    ensures x / n == q
  {
    var q', r' := x / n, x % n;
    assert x == q' * n + r';
    assert (q - q') * n == q * n - q' * n;
    assert (q' - q) * n == q' * n - q * n;
    if q' < q {
      AtLeastOne(q - q', n);
    } else if q < q' {
      AtLeastOne(q' - q, n);
    }
  }

  lemma FullSubset(a: set<AgentId>, b: set<AgentId>)
    requires a <= b && |a| == |b|
    ensures a == b
  {
    assert b == a + (b - a);
    assert |b| == |a| + |b - a|;
  }

  // ---------- Fewest tickets first ----------

  /** Each pick is a member with the fewest tickets, and gains one. */
  predicate LoadRun(load: map<AgentId, int>, picks: seq<AgentId>)
    decreases |picks|
  {
    picks == [] || (IsMin(load, picks[0]) && LoadRun(load[picks[0] := load[picks[0]] + 1], picks[1..]))
  }

  function LoadAfter(load: map<AgentId, int>, picks: seq<AgentId>): map<AgentId, int>
    requires LoadRun(load, picks)
    decreases |picks|
  {
    if picks == [] then load else LoadAfter(load[picks[0] := load[picks[0]] + 1], picks[1..])
  }

  lemma LoadCons(load: map<AgentId, int>, p: AgentId, picks: seq<AgentId>)
    requires IsMin(load, p) && LoadRun(load[p := load[p] + 1], picks)
    ensures LoadRun(load, [p] + picks) && LoadAfter(load, [p] + picks) == LoadAfter(load[p := load[p] + 1], picks)
  {
    assert ([p] + picks)[1..] == picks;
  }

  /** No load exceeds another by more than `gap`. */
  predicate Spread(load: map<AgentId, int>, gap: int) {
    forall a, b | a in load && b in load :: load[a] - load[b] <= gap
  }

  /** The spread of loads never grows beyond what it was, or one. */
  lemma {:induction false} SpreadStays(load: map<AgentId, int>, picks: seq<AgentId>, gap: int)
    requires LoadRun(load, picks) && Spread(load, gap) && 1 <= gap
    ensures Spread(LoadAfter(load, picks), gap) && LoadAfter(load, picks).Keys == load.Keys
    decreases |picks|
  {
    if picks != [] {
      SpreadStays(load[picks[0] := load[picks[0]] + 1], picks[1..], gap);
    }
  }

  /** How far the members, listed once each, are below a level. */
  function Deficit(members: seq<AgentId>, load: map<AgentId, int>, level: int): int
    requires forall i :: 0 <= i < |members| ==> members[i] in load
  {
    if members == [] then 0
    else
      var n := |members| - 1;
      Deficit(members[..n], load, level) + (level - load[members[n]])
  }

  lemma {:induction false} DeficitShrinks(members: seq<AgentId>, load: map<AgentId, int>, level: int, a: AgentId)
    requires forall i :: 0 <= i < |members| ==> members[i] in load
    requires forall i, j :: 0 <= i < j < |members| ==> members[i] != members[j]
    requires a in load
    ensures Deficit(members, load[a := load[a] + 1], level) ==
      Deficit(members, load, level) - if a in members then 1 else 0
  {
    if members != [] {
      var n := |members| - 1;
      DeficitShrinks(members[..n], load, level, a);
      assert a in members <==> a in members[..n] || a == members[n];
      assert forall k :: 0 <= k < n ==> members[..n][k] == members[k];
    }
  }

  lemma {:induction false} DeficitSign(members: seq<AgentId>, load: map<AgentId, int>, level: int)
    requires forall i :: 0 <= i < |members| ==> members[i] in load && load[members[i]] <= level
    ensures 0 <= Deficit(members, load, level)
    ensures Deficit(members, load, level) == 0 ==> forall i :: 0 <= i < |members| ==> load[members[i]] == level
  {
    if members != [] {
      DeficitSign(members[..|members| - 1], load, level);
      assert forall k :: 0 <= k < |members| - 1 ==> members[..|members| - 1][k] == members[k];
    }
  }

  predicate ListsLoads(members: seq<AgentId>, load: map<AgentId, int>) {
    && (forall i :: 0 <= i < |members| ==> members[i] in load)
    && (forall i, j :: 0 <= i < j < |members| ==> members[i] != members[j])
    && (forall a | a in load :: a in members)
  }

  /** Once as many picks have been made as the members were below the highest load in all, no two
      loads differ by more than one. */
  lemma {:induction false} LoadsEvenOut(load: map<AgentId, int>, picks: seq<AgentId>, members: seq<AgentId>, level: int)
    requires LoadRun(load, picks) && ListsLoads(members, load)
    requires forall a | a in load :: load[a] <= level
    requires Deficit(members, load, level) <= |picks|
    ensures Spread(LoadAfter(load, picks), 1)
    decreases |picks|
  {
    if Spread(load, 1) {
      SpreadStays(load, picks, 1);
    } else {
      DeficitSign(members, load, level);
      var a, b :| a in load && b in load && load[a] - load[b] > 1;
      if picks != [] {
        var p := picks[0];
        assert load[p] <= load[b];
        DeficitShrinks(members, load, level, p);
        LoadsEvenOut(load[p := load[p] + 1], picks[1..], members, level);
      }
    }
  }
}
