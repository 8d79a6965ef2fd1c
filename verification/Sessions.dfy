/** The reference for thread grouping: split each sender's messages in a chat wherever the gap
    reaches the idle window. */
module Sessions {
  import opened Types

  datatype Visit = Visit(chatTg: int, fromTg: int, time: int) {
    predicate SameSender(v: Visit) { chatTg == v.chatTg && fromTg == v.fromTg }
  }

  /** The sender's previous message in the same chat. */
  function Previous(visits: seq<Visit>, v: Visit): (r: Option<nat>)
    ensures r.Some? ==> r.value < |visits| && visits[r.value].SameSender(v)
    ensures r.Some? ==> forall k :: r.value < k < |visits| ==> !visits[k].SameSender(v)
    ensures r.None? ==> forall k :: 0 <= k < |visits| ==> !visits[k].SameSender(v)
  {
    if visits == [] then None
    else if visits[|visits| - 1].SameSender(v) then Some(|visits| - 1)
    else Previous(visits[..|visits| - 1], v)
  }

  predicate Continues(visits: seq<Visit>, v: Visit, window: int) {
    var l := Previous(visits, v);
    l.Some? && v.time - visits[l.value].time < window
  }

  function Started(visits: seq<Visit>, window: int): nat {
    if visits == [] then 0
    else
      var rest := visits[..|visits| - 1];
      Started(rest, window) + if Continues(rest, visits[|visits| - 1], window) then 0 else 1
  }

  /** The session each message falls into, numbered in order of their beginnings. */
  function SessionOf(visits: seq<Visit>, window: int): (s: seq<nat>)
    ensures |s| == |visits|
    ensures forall k :: 0 <= k < |s| ==> s[k] < Started(visits, window)
  {
    if visits == [] then []
    else
      var rest, v := visits[..|visits| - 1], visits[|visits| - 1];
      var s := SessionOf(rest, window);
      s + [if Continues(rest, v, window) then s[Previous(rest, v).value] else Started(rest, window)]
  }

  lemma SessionAppend(visits: seq<Visit>, v: Visit, window: int)
    ensures Started(visits + [v], window) == Started(visits, window) + if Continues(visits, v, window) then 0 else 1
    ensures SessionOf(visits + [v], window) == SessionOf(visits, window) +
      [if Continues(visits, v, window) then SessionOf(visits, window)[Previous(visits, v).value]
       else Started(visits, window)]
  {
    assert (visits + [v])[..|visits|] == visits;
  }

  lemma {:induction false} SessionPrefix(visits: seq<Visit>, more: seq<Visit>, window: int)
    ensures SessionOf(visits, window) == SessionOf(visits + more, window)[..|visits|]
  {
    if more == [] {
      assert visits + more == visits;
    } else {
      var n := |more| - 1;
      SessionPrefix(visits, more[..n], window);
      assert visits + more == (visits + more[..n]) + [more[n]];
      SessionAppend(visits + more[..n], more[n], window);
    }
  }

  /** Two consecutive messages of one sender in one chat share a session exactly when the gap
      between them is below the window. */
  lemma SplitAtGaps(visits: seq<Visit>, window: int, i: nat, j: nat)
    requires i < j < |visits| && visits[i].SameSender(visits[j])
    requires forall k :: i < k < j ==> !visits[k].SameSender(visits[j])
    ensures SessionOf(visits, window)[i] == SessionOf(visits, window)[j] <==>
      visits[j].time - visits[i].time < window
  {
    var before := visits[..j];
    assert visits == (before + [visits[j]]) + visits[j + 1..];
    SessionPrefix(before + [visits[j]], visits[j + 1..], window);
    SessionPrefix(before, [visits[j]], window);
    SessionAppend(before, visits[j], window);
    assert Previous(before, visits[j]) == Some(i);
    assert SessionOf(visits, window)[i] == SessionOf(before, window)[i];
    assert SessionOf(visits, window)[j] == SessionOf(before + [visits[j]], window)[j];
  }

  /** When one sender wrote in one chat. */
  function TimesOf(visits: seq<Visit>, v: Visit): seq<int> {
    if visits == [] then []
    else
      var n := |visits| - 1;
      TimesOf(visits[..n], v) + if visits[n].SameSender(v) then [visits[n].time] else []
  }

  /** One, plus the number of gaps that reach the window. */
  function Bursts(times: seq<int>, window: int): nat {
    if times == [] then 0
    else
      var n := |times| - 1;
      if n > 0 && times[n] - times[n - 1] < window then Bursts(times[..n], window)
      else Bursts(times[..n], window) + 1
  }

  lemma {:induction false} LastTime(visits: seq<Visit>, v: Visit)
    ensures TimesOf(visits, v) == [] <==> Previous(visits, v).None?
    ensures Previous(visits, v).Some? ==>
      TimesOf(visits, v)[|TimesOf(visits, v)| - 1] == visits[Previous(visits, v).value].time
  {
    if visits != [] {
      LastTime(visits[..|visits| - 1], v);
    }
  }

  /** A message starts a session of its own sender exactly when it starts a burst. */
  lemma BurstsAppend(visits: seq<Visit>, u: Visit, v: Visit, window: int)
    ensures Bursts(TimesOf(visits + [u], v), window) == Bursts(TimesOf(visits, v), window) +
      if u.SameSender(v) && !Continues(visits, u, window) then 1 else 0
  {
    assert (visits + [u])[..|visits|] == visits;
    if u.SameSender(v) {
      LastTime(visits, v);
      SameVisitTimes(visits, u, v);
      var times := TimesOf(visits, v);
      assert (times + [u.time])[..|times|] == times;
    } else {
      assert TimesOf(visits, v) + [] == TimesOf(visits, v);
    }
  }

  lemma {:induction false} SameVisitTimes(visits: seq<Visit>, u: Visit, v: Visit)
    requires u.SameSender(v)
    ensures Previous(visits, u) == Previous(visits, v)
  {
    if visits != [] {
      SameVisitTimes(visits[..|visits| - 1], u, v);
    }
  }
}
