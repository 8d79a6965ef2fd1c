/** What every single write of the desk keeps. */
module DeskInvariants {
  import opened Types

  // ---------- Shape ----------

  ghost predicate SameIdentity(a: Ticket, b: Ticket) {
    a.chat == b.chat && a.customer == b.customer && a.anchor == b.anchor && a.createdAt == b.createdAt
  }

  /** References stay inside the tables, unique columns stay unique, and who a ticket belongs to
      never changes. */
  ghost predicate Shape(d: Desk) {
    && |d.past.born| == |d.tickets|
    && (forall i :: 0 <= i < |d.tickets| ==> SameIdentity(d.past.born[i], d.tickets[i]))
    && (forall m :: 0 <= m < |d.messages| ==> d.messages[m].ticket < |d.tickets|)
    && (forall m :: 0 <= m < |d.messages| ==> (d.messages[m].direction.In? <==> d.messages[m].sender.FromCustomer?))
    && (forall m :: 0 <= m < |d.messages| ==> d.messages[m].direction.In? ==> d.messages[m].tgId.Some?)
    && (forall m, n :: 0 <= m < n < |d.messages| ==> d.messages[m].ticket == d.messages[n].ticket ==>
          d.messages[m].tgId.None? || d.messages[m].tgId != d.messages[n].tgId)
    && (forall k :: 0 <= k < |d.events| ==> d.events[k].ticket < |d.tickets|)
    && (forall j :: 0 <= j < |d.outbox| ==> JobFits(d, d.outbox[j]))
    && (forall t :: t in d.past.unlogged ==> t < |d.tickets|)
  }

  ghost predicate JobFits(d: Desk, j: Job) {
    && j.message < |d.messages|
    && d.messages[j.message].direction.Out?
    && d.messages[j.message].ticket == j.ticket
  }

  // ---------- Times and lifecycle ----------

  predicate After(t: Option<int>, lo: int, hi: int) { t.Some? ==> lo <= t.value <= hi }

  ghost predicate TicketTimes(t: Ticket, clock: int) {
    && 0 < t.createdAt <= t.updatedAt <= clock
    && After(t.firstResponseAt, t.createdAt, clock)
    && After(t.resolvedAt, t.createdAt, clock)
    && After(t.closedAt, t.createdAt, clock)
  }

  ghost predicate Stamped(t: Ticket) {
    && (t.status.Closed? ==> t.closedAt.Some? && t.closedBy.Some?)
    && (t.status.Solved? ==> t.resolvedAt.Some?)
  }

  predicate HasAgentRow(messages: seq<Message>, t: TicketId) {
    exists m :: 0 <= m < |messages| && messages[m].ticket == t && messages[m].sender.FromAgent?
  }

  ghost predicate Lifecycle(d: Desk, clock: int) {
    && (forall i :: 0 <= i < |d.tickets| ==> TicketTimes(d.tickets[i], clock))
    && (forall i :: 0 <= i < |d.tickets| ==> Stamped(d.tickets[i]))
    && (forall i :: 0 <= i < |d.tickets| ==> (d.tickets[i].firstResponseAt.Some? <==> HasAgentRow(d.messages, i)))
    && (forall m :: 0 <= m < |d.messages| ==> 0 < d.messages[m].createdAt <= clock)
    && (forall m, n :: 0 <= m < n < |d.messages| ==> d.messages[m].createdAt <= d.messages[n].createdAt)
  }

  // ---------- The client pointer, the acknowledgement ----------

  predicate LatestInbound(messages: seq<Message>, t: TicketId, m: int) {
    && 0 <= m < |messages| && messages[m].ticket == t && messages[m].direction.In?
    && forall n :: m < n < |messages| && messages[n].ticket == t ==> !messages[n].direction.In?
  }

  predicate NoInbound(messages: seq<Message>, t: TicketId) {
    forall n :: 0 <= n < |messages| && messages[n].ticket == t ==> !messages[n].direction.In?
  }

  ghost predicate Pointer(d: Desk) {
    forall i :: 0 <= i < |d.tickets| ==>
      && d.tickets[i].lastClient.Some?
      && (forall m :: LatestInbound(d.messages, i, m) ==> d.tickets[i].lastClient == d.messages[m].tgId)
      && (NoInbound(d.messages, i) ==> d.tickets[i].lastClient == Some(d.tickets[i].anchor))
  }

  predicate HasBotRow(messages: seq<Message>, t: TicketId) {
    exists m :: 0 <= m < |messages| && messages[m].ticket == t && messages[m].sender.FromBot?
  }

  ghost predicate OneBot(d: Desk) {
    forall m, n :: 0 <= m < n < |d.messages| && d.messages[m].sender.FromBot? && d.messages[n].sender.FromBot? ==>
      d.messages[m].ticket != d.messages[n].ticket
  }

  // ---------- Where inbound rows came from ----------

  predicate ArrivalFits(d: Desk, m: MessageId)
    requires m < |d.messages|
  {
    && m in d.past.arrivals
    && d.messages[m].tgId == Some(d.past.arrivals[m].incoming.tgId)
    && var replied := d.past.arrivals[m].repliedRow;
       replied.Some? ==> replied.value < m && d.messages[replied.value].ticket == d.messages[m].ticket
  }

  ghost predicate Arrivals(d: Desk) {
    && (forall m :: 0 <= m < |d.messages| && d.messages[m].direction.In? ==> ArrivalFits(d, m))
    && (forall m :: m in d.past.arrivals ==> m < |d.messages|)
  }

  /** From the ticket's own chat, and by its customer unless it answered a row of that ticket. */
  ghost predicate Belongs(dir: Directory, d: Desk, m: MessageId)
    requires m < |d.messages| && m in d.past.arrivals && d.messages[m].ticket < |d.tickets|
  {
    var t, a := d.tickets[d.messages[m].ticket], d.past.arrivals[m];
    && t.chat < |dir.chats| && dir.chats[t.chat].telegramId == a.incoming.chatTg
    && t.customer < |dir.customers|
    && (dir.customers[t.customer].telegramId == a.incoming.fromTg || a.repliedRow.Some?)
  }

  ghost predicate Membership(dir: Directory, d: Desk) {
    && (forall i :: 0 <= i < |d.tickets| ==> d.tickets[i].chat < |dir.chats| && d.tickets[i].customer < |dir.customers|)
    && (forall m: MessageId :: m < |d.messages| && m in d.past.arrivals && d.messages[m].ticket < |d.tickets| ==>
          Belongs(dir, d, m))
  }

  // ---------- The audit log ----------

  /** What one log entry did to the ticket. */
  function Replayed(t: Ticket, change: Change): Ticket {
    match change
    case Assigned(agent, _, _) => t.(assignee := Some(agent))
    case Updated(dto) =>
      t.(status := if dto.status.Some? then dto.status.value else t.status,
         priority := if dto.priority.Some? then dto.priority.value else t.priority,
         assignee := dto.assignee.Over(t.assignee),
         team := dto.team.Over(t.team),
         snoozeUntil := dto.snooze.Over(t.snoozeUntil),
         jira := dto.jira.Over(t.jira),
         labels := if dto.labels.Some? then (set l | l in dto.labels.value) else t.labels)
  }

  function Replay(t0: Ticket, t: TicketId, events: seq<Event>): Ticket {
    if events == [] then t0
    else
      var before := Replay(t0, t, events[..|events| - 1]);
      var e := events[|events| - 1];
      if e.ticket == t then Replayed(before, e.change) else before
  }

  ghost predicate Agrees(replay: Ticket, t: Ticket, unlogged: bool) {
    && replay.priority == t.priority && replay.assignee == t.assignee && replay.team == t.team
    && replay.labels == t.labels && replay.snoozeUntil == t.snoozeUntil && replay.jira == t.jira
    && t.status == (if unlogged then Closed else replay.status)
  }

  ghost predicate AuditTrail(d: Desk) {
    && |d.past.born| == |d.tickets|
    && (forall i :: 0 <= i < |d.tickets| ==>
          Agrees(Replay(d.past.born[i], i, d.events), d.tickets[i], i in d.past.unlogged))
    && (forall k :: 0 <= k < |d.events| ==> PreviousFits(d, k))
  }

  ghost predicate PreviousFits(d: Desk, k: int)
    requires 0 <= k < |d.events|
  {
    var e := d.events[k];
    e.change.Assigned? ==>
      && e.ticket < |d.past.born|
      && e.change.previous == Replay(d.past.born[e.ticket], e.ticket, d.events[..k]).assignee
  }
}
