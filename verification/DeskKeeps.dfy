/** Every write of the desk keeps the desk's invariants. */
module DeskKeeps {
  import opened Types
  import opened DeskSpec
  import opened DeskInvariants

  ghost predicate DeskInv(d: Desk, clock: int) {
    Shape(d) && Lifecycle(d, clock) && Pointer(d) && OneBot(d) && Arrivals(d) && AuditTrail(d)
  }

  lemma Later(d: Desk, clock: int, later: int)
    requires DeskInv(d, clock) && clock <= later
    ensures DeskInv(d, later)
  {
  }

  // ---------- Changing one ticket row ----------

  /** A ticket row was replaced; rows of conversation and provenance stayed. */
  ghost predicate Restamped(d: Desk, e: Desk, t: TicketId) {
    && t < |d.tickets| && |e.tickets| == |d.tickets| && e.tickets == d.tickets[t := e.tickets[t]]
    && e.messages == d.messages && e.outbox == d.outbox
    && e.past.born == d.past.born && e.past.arrivals == d.past.arrivals && e.past.autoQuoted == d.past.autoQuoted
    && SameIdentity(d.tickets[t], e.tickets[t]) && e.tickets[t].lastClient == d.tickets[t].lastClient
    && e.tickets[t].firstResponseAt == d.tickets[t].firstResponseAt
  }

  lemma RestampKeeps(d: Desk, e: Desk, t: TicketId, now: int)
    requires Shape(d) && Lifecycle(d, now) && Pointer(d) && OneBot(d) && Arrivals(d)
    requires Restamped(d, e, t) && TicketTimes(e.tickets[t], now) && Stamped(e.tickets[t])
    requires forall k :: 0 <= k < |e.events| ==> e.events[k].ticket < |e.tickets|
    requires e.past.unlogged <= d.past.unlogged + {t}
    ensures Shape(e) && Lifecycle(e, now) && Pointer(e) && OneBot(e) && Arrivals(e)
  {
  }

  lemma ReplayStep(t0: Ticket, t: TicketId, events: seq<Event>, e: Event)
    ensures Replay(t0, t, events + [e]) ==
            if e.ticket == t then Replayed(Replay(t0, t, events), e.change) else Replay(t0, t, events)
  {
    assert (events + [e])[..|events|] == events;
  }

  /** Writes that touch neither the log nor an audited field. */
  lemma AuditFrame(d: Desk, e: Desk)
    requires AuditTrail(d)
    requires e.events == d.events && e.past.born == d.past.born && e.past.unlogged == d.past.unlogged
    requires |e.tickets| == |d.tickets|
    requires forall i :: 0 <= i < |d.tickets| ==> SameAudited(d.tickets[i], e.tickets[i])
    ensures AuditTrail(e)
  {
    forall i | 0 <= i < |e.tickets|
      ensures Agrees(Replay(e.past.born[i], i, e.events), e.tickets[i], i in e.past.unlogged)
    {
      assert SameAudited(d.tickets[i], e.tickets[i]);
    }
    forall k | 0 <= k < |e.events|
      ensures PreviousFits(e, k)
    {
      assert PreviousFits(d, k);
    }
  }

  ghost predicate SameAudited(a: Ticket, b: Ticket) {
    && a.status == b.status && a.priority == b.priority && a.assignee == b.assignee && a.team == b.team
    && a.labels == b.labels && a.snoozeUntil == b.snoozeUntil && a.jira == b.jira
  }

  lemma PatchReplays(t: Ticket, dto: PatchDto, author: Option<AgentId>, now: int, unlogged: bool, r: Ticket)
    requires Agrees(r, t, unlogged)
    ensures Agrees(Replayed(r, Updated(dto)), PatchedTicket(t, dto, author, now), unlogged && dto.status.None?)
  {
  }

  lemma PatchKeeps(d: Desk, dir: Directory, t: TicketId, dto: PatchDto, author: Option<AgentId>, now: int)
    requires DeskInv(d, now) && 0 < now
    requires author.None? ==> dto.status != Some(Closed)
    ensures DeskInv(Patch(d, dir, t, dto, author, now), now)
  {
    if PatchOk(d, dir, t, dto, author) {
      var e := Patch(d, dir, t, dto, author, now);
      RestampKeeps(d, e, t, now);
      forall r: Ticket | Agrees(r, d.tickets[t], t in d.past.unlogged)
        ensures Agrees(Replayed(r, Updated(dto)), e.tickets[t], t in e.past.unlogged)
      {
        PatchReplays(d.tickets[t], dto, author, now, t in d.past.unlogged, r);
      }
      LogKeeps(d, e, Event(t, author, Updated(dto), now));
    }
  }

  lemma AssignKeeps(d: Desk, dir: Directory, t: TicketId, agent: AgentId, author: AgentId, reason: Option<string>, now: int)
    requires DeskInv(d, now) && 0 < now
    ensures DeskInv(Assign(d, dir, t, agent, author, reason, now), now)
  {
    if AssignOk(d, dir, t, agent, author) {
      var e := Assign(d, dir, t, agent, author, reason, now);
      RestampKeeps(d, e, t, now);
      LogKeeps(d, e, Event(t, Some(author), Assigned(agent, d.tickets[t].assignee, reason), now));
    }
  }

  lemma MarkClosedKeeps(d: Desk, dir: Directory, t: TicketId, author: AgentId, now: int)
    requires DeskInv(d, now) && 0 < now
    ensures DeskInv(MarkClosed(d, dir, t, author, now), now)
  {
    if t < |d.tickets| && author < |dir.agents| {
      var e := MarkClosed(d, dir, t, author, now);
      RestampKeeps(d, e, t, now);
      forall k | 0 <= k < |e.events|
        ensures PreviousFits(e, k)
      {
        assert PreviousFits(d, k);
      }
    }
  }

  /** Writing a log entry together with its effect keeps the log true. */
  lemma LogKeeps(d: Desk, e: Desk, entry: Event)
    requires Shape(d) && AuditTrail(d)
    requires entry.ticket < |d.tickets| && e.events == d.events + [entry] && e.past.born == d.past.born
    requires |e.tickets| == |d.tickets|
    requires forall i :: 0 <= i < |d.tickets| && i != entry.ticket ==>
      e.tickets[i] == d.tickets[i] && (i in e.past.unlogged <==> i in d.past.unlogged)
    requires forall r: Ticket :: Agrees(r, d.tickets[entry.ticket], entry.ticket in d.past.unlogged) ==>
      Agrees(Replayed(r, entry.change), e.tickets[entry.ticket], entry.ticket in e.past.unlogged)
    requires entry.change.Assigned? ==> entry.change.previous == d.tickets[entry.ticket].assignee
    ensures AuditTrail(e)
  {
    forall i | 0 <= i < |d.tickets|
      ensures Agrees(Replay(e.past.born[i], i, e.events), e.tickets[i], i in e.past.unlogged)
    {
      ReplayStep(d.past.born[i], i, d.events, entry);
    }
    forall k | 0 <= k < |e.events|
      ensures PreviousFits(e, k)
    {
      assert e.events[..k] == d.events[..k];
      assert k < |d.events| ==> PreviousFits(d, k);
      assert d.events[..|d.events|] == d.events;
    }
  }

  // ---------- New threads ----------

  lemma {:induction false} ReplayOfOthers(t0: Ticket, t: TicketId, events: seq<Event>)
    requires forall k :: 0 <= k < |events| ==> events[k].ticket != t
    ensures Replay(t0, t, events) == t0
  {
    if events != [] {
      ReplayOfOthers(t0, t, events[..|events| - 1]);
    }
  }

  predicate Fresh(t: Ticket, now: int) {
    && t.status.Open? && t.createdAt == t.updatedAt == now && t.lastClient == Some(t.anchor)
    && t.firstResponseAt.None? && t.resolvedAt.None? && t.closedAt.None?
  }

  lemma CreateKeeps(d: Desk, t: Ticket, now: int)
    requires DeskInv(d, now) && 0 < now && Fresh(t, now)
    ensures DeskInv(Create(d, t), now)
  {
    var e := Create(d, t);
    CreateKeepsShape(d, t);
    CreateKeepsRows(d, t, now);
    CreateKeepsAudit(d, t);
  }

  lemma CreateKeepsShape(d: Desk, t: Ticket)
    requires Shape(d)
    ensures Shape(Create(d, t))
  {
    var e := Create(d, t);
    assert forall j :: 0 <= j < |d.outbox| ==> JobFits(d, d.outbox[j]) ==> JobFits(e, e.outbox[j]);
  }

  lemma CreateKeepsRows(d: Desk, t: Ticket, now: int)
    requires Shape(d) && Lifecycle(d, now) && Pointer(d) && OneBot(d) && Arrivals(d) && 0 < now && Fresh(t, now)
    ensures Lifecycle(Create(d, t), now) && Pointer(Create(d, t)) && OneBot(Create(d, t)) && Arrivals(Create(d, t))
  {
    var e := Create(d, t);
    assert !HasAgentRow(d.messages, |d.tickets|);
    assert forall m :: !LatestInbound(d.messages, |d.tickets|, m);
    forall m | 0 <= m < |e.messages| && e.messages[m].direction.In?
      ensures ArrivalFits(e, m)
    {
      assert ArrivalFits(d, m);
    }
  }

  lemma CreateKeepsAudit(d: Desk, t: Ticket)
    requires Shape(d) && AuditTrail(d)
    requires |d.tickets| !in d.past.unlogged
    ensures AuditTrail(Create(d, t))
  {
    var e := Create(d, t);
    ReplayOfOthers(t, |d.tickets|, d.events);
    forall k | 0 <= k < |e.events|
      ensures PreviousFits(e, k)
    {
      assert PreviousFits(d, k);
    }
  }

  // ---------- New rows ----------

  lemma RecordKeeps(d: Desk, t: TicketId, msg: Incoming, replied: Option<MessageId>, now: int)
    requires DeskInv(d, now) && 0 < now && t < |d.tickets|
    requires replied.Some? ==> replied.value < |d.messages| && d.messages[replied.value].ticket == t
    ensures DeskInv(Record(d, t, msg, replied, now), now)
  {
    if !HasRow(d.messages, t, msg.tgId) {
      var e := Record(d, t, msg, replied, now);
      RowKeepsShape(d, e, InboundRow(t, msg, now));
      RecordKeepsLifecycle(d, t, msg, replied, now);
      InboundAppend(d.messages, InboundRow(t, msg, now), t);
      assert Pointer(e);
      RecordKeepsArrivals(d, t, msg, replied, now);
      AuditFrame(d, e);
    }
  }

  lemma RecordKeepsLifecycle(d: Desk, t: TicketId, msg: Incoming, replied: Option<MessageId>, now: int)
    requires Lifecycle(d, now) && 0 < now && t < |d.tickets| && !HasRow(d.messages, t, msg.tgId)
    ensures Lifecycle(Record(d, t, msg, replied, now), now)
  {
    AgentRowsAppend(d.messages, InboundRow(t, msg, now));
  }

  lemma RecordKeepsArrivals(d: Desk, t: TicketId, msg: Incoming, replied: Option<MessageId>, now: int)
    requires Arrivals(d) && t < |d.tickets| && !HasRow(d.messages, t, msg.tgId)
    requires replied.Some? ==> replied.value < |d.messages| && d.messages[replied.value].ticket == t
    ensures Arrivals(Record(d, t, msg, replied, now))
  {
    var e := Record(d, t, msg, replied, now);
    forall m | 0 <= m < |e.messages| && e.messages[m].direction.In?
      ensures ArrivalFits(e, m)
    {
      assert m < |d.messages| ==> ArrivalFits(d, m);
    }
  }

  /** A new last row, on an existing ticket whose ids it does not repeat. */
  lemma RowKeepsShape(d: Desk, e: Desk, row: Message)
    requires Shape(d) && row.ticket < |d.tickets|
    requires e.messages == d.messages + [row] && e.events == d.events
    requires e.past.born == d.past.born && e.past.unlogged == d.past.unlogged
    requires |e.tickets| == |d.tickets|
    requires forall i :: 0 <= i < |d.tickets| ==> SameIdentity(d.tickets[i], e.tickets[i])
    requires row.direction.In? <==> row.sender.FromCustomer?
    requires row.direction.In? ==> row.tgId.Some?
    requires row.tgId.Some? ==> !HasRow(d.messages, row.ticket, row.tgId.value)
    requires forall j :: 0 <= j < |e.outbox| ==> e.outbox[j] in d.outbox || JobFits(e, e.outbox[j])
    ensures Shape(e)
  {
    assert forall m :: 0 <= m < |d.messages| ==> e.messages[m] == d.messages[m];
  }

  lemma OutgoingKeepsArrivals(d: Desk, e: Desk, row: Message)
    requires Arrivals(d) && row.direction.Out?
    requires e.messages == d.messages + [row] && e.past.arrivals == d.past.arrivals
    ensures Arrivals(e)
  {
    forall m | 0 <= m < |e.messages| && e.messages[m].direction.In?
      ensures ArrivalFits(e, m)
    {
      assert ArrivalFits(d, m);
    }
  }

  lemma AgentRowsAppend(messages: seq<Message>, row: Message)
    ensures forall i: TicketId :: HasAgentRow(messages + [row], i) <==>
      HasAgentRow(messages, i) || (row.ticket == i && row.sender.FromAgent?)
  {
    forall i: TicketId
      ensures HasAgentRow(messages + [row], i) <==>
        HasAgentRow(messages, i) || (row.ticket == i && row.sender.FromAgent?)
    {
      if HasAgentRow(messages, i) {
        var m :| 0 <= m < |messages| && messages[m].ticket == i && messages[m].sender.FromAgent?;
        assert (messages + [row])[m] == messages[m];
      }
      if row.ticket == i && row.sender.FromAgent? {
        assert (messages + [row])[|messages|] == row;
      }
    }
  }

  /** How the latest inbound row of each ticket moves when a row is added. */
  lemma InboundAppend(messages: seq<Message>, row: Message, t: TicketId)
    requires row.ticket == t
    ensures row.direction.In? ==> forall m :: LatestInbound(messages + [row], t, m) ==> m == |messages|
    ensures row.direction.In? ==> !NoInbound(messages + [row], t)
    ensures row.direction.Out? ==> forall m :: LatestInbound(messages + [row], t, m) ==> LatestInbound(messages, t, m)
    ensures row.direction.Out? ==> NoInbound(messages + [row], t) ==> NoInbound(messages, t)
    ensures forall i: TicketId, m :: i != t && LatestInbound(messages + [row], i, m) ==> LatestInbound(messages, i, m)
    ensures forall i: TicketId :: i != t && NoInbound(messages + [row], i) ==> NoInbound(messages, i)
  {
    var all := messages + [row];
    assert forall m :: 0 <= m < |messages| ==> all[m] == messages[m];
    assert all[|messages|] == row;
  }

  /** An outgoing row that does not disturb the client pointer. */
  lemma OutgoingKeepsPointer(d: Desk, e: Desk, row: Message)
    requires Pointer(d) && row.direction.Out? && e.messages == d.messages + [row] && |e.tickets| == |d.tickets|
    requires forall i :: 0 <= i < |d.tickets| ==>
      e.tickets[i].lastClient == d.tickets[i].lastClient && e.tickets[i].anchor == d.tickets[i].anchor
    requires Shape(d)
    ensures Pointer(e)
  {
    InboundAppend(d.messages, row, row.ticket);
    assert forall m :: 0 <= m < |d.messages| ==> e.messages[m] == d.messages[m];
  }

  lemma AckRowKeeps(d: Desk, t: TicketId, at: int)
    requires DeskInv(d, at) && 0 < at && t < |d.tickets| && !HasBotRow(d.messages, t)
    ensures DeskInv(AckRow(d, t, at), at)
  {
    var e := AckRow(d, t, at);
    var row := e.messages[|d.messages|];
    RowKeepsShape(d, e, row);
    AgentRowsAppend(d.messages, row);
    assert Lifecycle(e, at);
    OutgoingKeepsPointer(d, e, row);
    OutgoingKeepsArrivals(d, e, row);
    AuditFrame(d, e);
  }

  lemma AckJobKeeps(d: Desk, t: TicketId, row: MessageId, chatTg: int, replyTo: int, clock: int)
    requires DeskInv(d, clock)
    requires row < |d.messages| && d.messages[row].ticket == t && d.messages[row].direction.Out?
    ensures DeskInv(AckJob(d, t, row, chatTg, replyTo), clock)
  {
    var e := AckJob(d, t, row, chatTg, replyTo);
    assert Shape(e) && Lifecycle(e, clock) && Pointer(e);
    forall m | 0 <= m < |e.messages| && e.messages[m].direction.In?
      ensures ArrivalFits(e, m)
    {
      assert ArrivalFits(d, m);
    }
    AuditFrame(d, e);
  }

  lemma ReplyKeeps(d: Desk, dir: Directory, t: TicketId, agent: AgentId, text: string, mode: QuoteMode,
                   latest: Option<MessageId>, now: int)
    requires DeskInv(d, now) && 0 < now
    ensures DeskInv(Reply(d, dir, t, agent, text, mode, latest, now), now)
  {
    if ReplyOk(d, dir, t, agent) {
      var e := Reply(d, dir, t, agent, text, mode, latest, now);
      var row := Message(t, Out, FromAgent, Some(agent), None, Some(text), now);
      RowKeepsShape(d, e, row);
      ReplyKeepsLifecycle(d, dir, t, agent, text, mode, latest, now);
      OutgoingKeepsPointer(d, e, row);
      assert OneBot(e);
      OutgoingKeepsArrivals(d, e, row);
      AuditFrame(d, e);
    }
  }

  lemma ReplyKeepsLifecycle(d: Desk, dir: Directory, t: TicketId, agent: AgentId, text: string, mode: QuoteMode,
                            latest: Option<MessageId>, now: int)
    requires Lifecycle(d, now) && 0 < now && ReplyOk(d, dir, t, agent)
    ensures Lifecycle(Reply(d, dir, t, agent, text, mode, latest, now), now)
  {
    AgentRowsAppend(d.messages, Message(t, Out, FromAgent, Some(agent), None, Some(text), now));
  }

  // ---------- Confirmed sends ----------

  lemma ConfirmKeeps(d: Desk, m: MessageId, tg: int, clock: int)
    requires DeskInv(d, clock)
    requires m < |d.messages| ==> d.messages[m].direction.Out?
    ensures DeskInv(Confirm(d, m, tg), clock)
  {
    if ConfirmOk(d, m, tg) {
      var e := Confirm(d, m, tg);
      assert Shape(e);
      ConfirmKeepsLifecycle(d, m, tg, clock);
      ConfirmKeepsPointer(d, m, tg);
      assert OneBot(e);
      ConfirmKeepsArrivals(d, m, tg);
      AuditFrame(d, e);
    }
  }

  lemma ConfirmKeepsLifecycle(d: Desk, m: MessageId, tg: int, clock: int)
    requires Lifecycle(d, clock) && ConfirmOk(d, m, tg)
    ensures Lifecycle(Confirm(d, m, tg), clock)
  {
    var e := Confirm(d, m, tg);
    forall i | 0 <= i < |d.tickets|
      ensures HasAgentRow(e.messages, i) <==> HasAgentRow(d.messages, i)
    {
      if HasAgentRow(d.messages, i) {
        var n :| 0 <= n < |d.messages| && d.messages[n].ticket == i && d.messages[n].sender.FromAgent?;
        assert e.messages[n].sender.FromAgent?;
      }
    }
  }

  lemma ConfirmKeepsPointer(d: Desk, m: MessageId, tg: int)
    requires Pointer(d) && ConfirmOk(d, m, tg) && d.messages[m].direction.Out?
    ensures Pointer(Confirm(d, m, tg))
  {
    var e := Confirm(d, m, tg);
    assert forall n :: 0 <= n < |d.messages| && d.messages[n].direction.In? ==> e.messages[n] == d.messages[n];
    forall i | 0 <= i < |d.tickets|
      ensures forall n :: LatestInbound(e.messages, i, n) ==> LatestInbound(d.messages, i, n)
      ensures NoInbound(e.messages, i) ==> NoInbound(d.messages, i)
    {
      if NoInbound(e.messages, i) {
        forall n | 0 <= n < |d.messages| && d.messages[n].ticket == i
          ensures !d.messages[n].direction.In?
        {
          assert !e.messages[n].direction.In?;
        }
      }
      forall n | LatestInbound(e.messages, i, n)
        ensures LatestInbound(d.messages, i, n)
      {
        forall k | n < k < |d.messages| && d.messages[k].ticket == i
          ensures !d.messages[k].direction.In?
        {
          assert !e.messages[k].direction.In?;
        }
      }
    }
  }

  lemma ConfirmKeepsArrivals(d: Desk, m: MessageId, tg: int)
    requires Arrivals(d) && ConfirmOk(d, m, tg) && d.messages[m].direction.Out?
    ensures Arrivals(Confirm(d, m, tg))
  {
    var e := Confirm(d, m, tg);
    forall n | 0 <= n < |e.messages| && e.messages[n].direction.In?
      ensures ArrivalFits(e, n)
    {
      assert ArrivalFits(d, n);
    }
  }
}
