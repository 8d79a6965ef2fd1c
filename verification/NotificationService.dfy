/** The notification service over its tables. */
module NotificationServices {
  import opened Types
  import opened NotificationSpec
  import opened Storage

  class NotificationsService {
    var agents: nat
    var tickets: nat
    var notes: seq<Note>
    var prefs: map<(AgentId, string), bool>
    var dispatches: seq<Dispatch>

    constructor (agents: nat, tickets: nat)
      ensures BoardNow() == Board(agents, tickets, [], map[], [])
    {
      this.agents, this.tickets, notes, prefs, dispatches := agents, tickets, [], map[], [];
    }

    function BoardNow(): Board
      reads this
    {
      Board(agents, tickets, notes, prefs, dispatches)
    }

    /** Refreshes the key's row of the last five minutes, or creates one and sends a direct
        message. Fails when the agent or the ticket does not exist. */
    method NotifyAgent(key: Key, payload: string, now: int) returns (r: Result<nat>, ghost pick: Option<nat>)
      modifies `notes, `dispatches
      ensures IsRecentPick(old(notes), key, now, pick)
      ensures BoardNow() == Notify(old(BoardNow()), key, payload, pick, now)
      ensures r.Ok? <==> pick.Some? || References(old(BoardNow()), key)
      ensures r.Ok? ==> r.value < |notes| && notes[r.value] == Note(key, payload, false, now)
    {
      var rows := notes;
      var flags := seq(|rows|, n requires 0 <= n < |rows| => Recent(rows, key, now, n));
      var existing := LatestWhere(flags, seq(|rows|, n requires 0 <= n < |rows| => rows[n].createdAt));
      assert forall n :: 0 <= n < |notes| ==> flags[n] == Recent(notes, key, now, n);
      pick := existing;
      if existing.Some? {
        notes := notes[existing.value := notes[existing.value].(payload := payload, isRead := false, createdAt := now)];
        return Ok(existing.value), pick;
      }
      if agents <= key.agent || tickets <= key.ticket {
        return Err(Rejected), pick;
      }
      notes := notes + [Note(key, payload, false, now)];
      DispatchExternalChannels(key, now);
      return Ok(|notes| - 1), pick;
    }

    method DispatchExternalChannels(key: Key, now: int)
      modifies `dispatches
      ensures dispatches == old(dispatches) + [Dispatch(key, now, Enabled(prefs, key.agent, key.kind))]
    {
      var telegramEnabled := true;
      if (key.agent, key.kind) in prefs {
        telegramEnabled := prefs[(key.agent, key.kind)];
      }
      dispatches := dispatches + [Dispatch(key, now, telegramEnabled)];
    }

    method MarkRead(n: nat, agent: AgentId)
      modifies `notes
      ensures notes == MarkedRead(old(notes), Some(n), agent)
    {
      if n < |notes| && notes[n].key.agent == agent {
        notes := notes[n := notes[n].(isRead := true)];
      }
    }

    method MarkAllRead(agent: AgentId)
      modifies `notes
      ensures notes == MarkedRead(old(notes), None, agent)
    {
      for n := 0 to |notes|
        invariant |notes| == |old(notes)|
        invariant forall k :: 0 <= k < n ==>
          notes[k] == (if old(notes)[k].key.agent == agent then old(notes)[k].(isRead := true) else old(notes)[k])
        invariant forall k :: n <= k < |notes| ==> notes[k] == old(notes)[k]
      {
        if notes[n].key.agent == agent && !notes[n].isRead {
          notes := notes[n := notes[n].(isRead := true)];
        }
      }
    }

    method UpdatePref(agent: AgentId, kind: string, enabled: bool)
      modifies `prefs
      ensures BoardNow() == Apply(old(BoardNow()), TimedAct(0, Prefers(agent, kind, enabled)))
      ensures forall a: nat, k: string ::
        Enabled(prefs, a, k) == if a == agent && k == kind then enabled else Enabled(old(prefs), a, k)
    {
      prefs := prefs[(agent, kind) := enabled];
    }
  }
}
