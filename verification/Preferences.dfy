/** What an agent is told: the row of an event, and whether it is sent on. */
module NotificationRuns {
  import opened Types
  import opened NotificationSpec

  // ---------- The row of an event ----------

  /** Row `n` tells of the event, unread; every other row is as it was. */
  predicate TellsEvent(before: seq<Note>, after: seq<Note>, key: Key, payload: string, now: int, n: nat) {
    && n < |after| && after[n] == Note(key, payload, false, now)
    && |before| <= |after| <= |before| + 1 && (n < |before| ==> |after| == |before| && before[n].key == key)
    && (forall i :: 0 <= i < |before| && i != n ==> after[i] == before[i])
  }

  /** An event of a known agent and ticket leaves one unread row that tells of it, on a row of the
      same key or a new one; a direct message goes out only with a new row. */
  lemma EventIsTold(b: Board, ta: TimedAct)
    requires ta.act.Happens? && IsRecentPick(b.notes, ta.act.key, ta.now, ta.act.pick)
    requires ta.act.key.agent < b.agents && ta.act.key.ticket < b.tickets
    ensures var e := Apply(b, ta);
      && (exists n :: TellsEvent(b.notes, e.notes, ta.act.key, ta.act.payload, ta.now, n))
      && (|e.dispatches| > |b.dispatches| <==> |e.notes| > |b.notes|)
      && b.dispatches <= e.dispatches && |e.dispatches| <= |b.dispatches| + 1
      && (|e.dispatches| > |b.dispatches| ==>
            e.dispatches[|b.dispatches|].key == ta.act.key && e.dispatches[|b.dispatches|].at == ta.now)
  {
    var n := if ta.act.pick.Some? then ta.act.pick.value else |b.notes|;
    assert TellsEvent(b.notes, Apply(b, ta).notes, ta.act.key, ta.act.payload, ta.now, n);
  }

  /** Without its agent or its ticket, a new event leaves nothing. */
  lemma UnknownIsDropped(b: Board, ta: TimedAct)
    requires ta.act.Happens? && ta.act.pick.None? && !(ta.act.key.agent < b.agents && ta.act.key.ticket < b.tickets)
    ensures Apply(b, ta) == b
  {
  }

  /** Reading turns the flag of the agent's own rows, one or all, and nothing else. */
  lemma ReadingMarks(b: Board, now: int, only: Option<nat>, agent: AgentId)
    ensures var e := Apply(b, TimedAct(now, Reads(only, agent)));
      && |e.notes| == |b.notes| && e == b.(notes := e.notes)
      && forall n :: 0 <= n < |b.notes| ==>
           && (e.notes[n].isRead <==> b.notes[n].isRead || (b.notes[n].key.agent == agent && (only.None? || only == Some(n))))
           && e.notes[n].key == b.notes[n].key && e.notes[n].payload == b.notes[n].payload
           && e.notes[n].createdAt == b.notes[n].createdAt
  {
  }

  // ---------- Whether it is sent on ----------

  predicate Chooses(act: Act, agent: AgentId, kind: string) {
    act.Prefers? && act.agent == agent && act.kind == kind
  }

  /** The agent's last word on the kind was no. */
  predicate SwitchedOff(run: seq<TimedAct>, agent: AgentId, kind: string) {
    exists k :: 0 <= k < |run| && Chooses(run[k].act, agent, kind) && !run[k].act.enabled
      && forall l :: k < l < |run| ==> !Chooses(run[l].act, agent, kind)
  }

  lemma SwitchedBy(run: seq<TimedAct>, agent: AgentId, kind: string)
    requires run != []
    ensures var n := |run| - 1;
      SwitchedOff(run, agent, kind) <==>
        if Chooses(run[n].act, agent, kind) then !run[n].act.enabled else SwitchedOff(run[..n], agent, kind)
  {
    var n := |run| - 1;
    if k :| 0 <= k < n && Chooses(run[..n][k].act, agent, kind) && !run[..n][k].act.enabled
            && forall l :: k < l < n ==> !Chooses(run[..n][l].act, agent, kind) {
      assert run[..n][k] == run[k] && forall l :: k < l < n ==> run[..n][l] == run[l];
    }
    if k :| 0 <= k < |run| && Chooses(run[k].act, agent, kind) && !run[k].act.enabled
            && forall l :: k < l < |run| ==> !Chooses(run[l].act, agent, kind) {
      if k < n {
        assert run[..n][k] == run[k] && forall l :: k < l < n ==> run[..n][l] == run[l];
      }
    }
  }

  /** A preference is what was last chosen, and yes before anything was. */
  lemma {:induction false} PreferenceIsLastWord(b: Board, run: seq<TimedAct>, agent: AgentId, kind: string)
    requires (agent, kind) !in b.prefs
    ensures Enabled(Exec(b, run).prefs, agent, kind) <==> !SwitchedOff(run, agent, kind)
  {
    if run != [] {
      PreferenceIsLastWord(b, run[..|run| - 1], agent, kind);
      SwitchedBy(run, agent, kind);
    }
  }

  /** The message was sent on for the i-th act, an event of its key at its time, exactly if the agent
      had not switched the kind off by then. */
  predicate SentFor(run: seq<TimedAct>, i: nat, m: Dispatch) {
    && i < |run| && run[i].act.Happens? && run[i].act.key == m.key && run[i].now == m.at
    && m.sent == !SwitchedOff(run[..i], m.key.agent, m.key.kind)
  }

  lemma SentForLonger(run: seq<TimedAct>, i: nat, m: Dispatch)
    requires run != [] && SentFor(run[..|run| - 1], i, m)
    ensures SentFor(run, i, m)
  {
    assert run[..|run| - 1][..i] == run[..i];
  }

  lemma LastDispatch(b: Board, run: seq<TimedAct>, j: nat)
    requires b.prefs == map[] && run != []
    requires |Exec(b, run[..|run| - 1]).dispatches| <= j < |Exec(b, run).dispatches|
    ensures SentFor(run, |run| - 1, Exec(b, run).dispatches[j])
  {
    var n := |run| - 1;
    if run[n].act.Happens? {
      PreferenceIsLastWord(b, run[..n], run[n].act.key.agent, run[n].act.key.kind);
    }
  }

  lemma DispatchesStay(b: Board, run: seq<TimedAct>)
    requires run != []
    ensures Exec(b, run[..|run| - 1]).dispatches <= Exec(b, run).dispatches
  {
  }

  /** Over every run, from a board on which nobody has chosen anything: each direct message is of an
      event, and is sent unless the agent's last word on its kind, before the event, was no. */
  lemma {:induction false} SentUnlessSwitchedOff(b: Board, run: seq<TimedAct>, j: nat)
    requires b.prefs == map[] && b.dispatches == [] && j < |Exec(b, run).dispatches|
    ensures exists i: nat :: SentFor(run, i, Exec(b, run).dispatches[j])
  {
    if run != [] {
      var before := run[..|run| - 1];
      if j < |Exec(b, before).dispatches| {
        DispatchesStay(b, run);
        SentUnlessSwitchedOff(b, before, j);
        var i: nat :| SentFor(before, i, Exec(b, before).dispatches[j]);
        SentForLonger(run, i, Exec(b, before).dispatches[j]);
      } else {
        LastDispatch(b, run, j);
      }
    }
  }
}
