/** The writes of the ticket desk, one function per database transaction. */
module DeskSpec {
  import opened Types

  const AUTO_ACK_TEXT := "Дякую за ваше повідомлення,\nМи взяли в роботу — скоро до вас повернемось."

  // ---------- Patch and assign ----------

  predicate LabelsOk(dir: Directory, labels: seq<LabelId>) {
    && (forall i :: 0 <= i < |labels| ==> labels[i] < dir.labelCount)
    && (forall i, j :: 0 <= i < j < |labels| ==> labels[i] != labels[j])
  }

  /** Foreign keys and the unique label pair: when one fails the transaction rolls back. */
  predicate PatchOk(d: Desk, dir: Directory, t: TicketId, dto: PatchDto, author: Option<AgentId>) {
    && t < |d.tickets|
    && (dto.assignee.Set? ==> dto.assignee.value < |dir.agents|)
    && (dto.team.Set? ==> dto.team.value < dir.teamCount)
    && (dto.labels.Some? ==> LabelsOk(dir, dto.labels.value))
    && (author.Some? ==> author.value < |dir.agents|)
  }

  function PatchedTicket(t: Ticket, dto: PatchDto, author: Option<AgentId>, now: int): Ticket {
    t.(
      status := if dto.status.Some? then dto.status.value else t.status,
      priority := if dto.priority.Some? then dto.priority.value else t.priority,
      assignee := dto.assignee.Over(t.assignee),
      team := dto.team.Over(t.team),
      labels := if dto.labels.Some? then (set l | l in dto.labels.value) else t.labels,
      snoozeUntil := dto.snooze.Over(t.snoozeUntil),
      jira := dto.jira.Over(t.jira),
      closedAt := if dto.status == Some(Closed) then Some(now) else t.closedAt,
      closedBy := if dto.status == Some(Closed) && author.Some? then author else t.closedBy,
      resolvedAt := if dto.status == Some(Solved) then Some(now) else t.resolvedAt,
      updatedAt := now)
  }

  function Patch(d: Desk, dir: Directory, t: TicketId, dto: PatchDto, author: Option<AgentId>, now: int): Desk {
    if !PatchOk(d, dir, t, dto, author) then d
    else
      d.(tickets := d.tickets[t := PatchedTicket(d.tickets[t], dto, author, now)],
         events := d.events + [Event(t, author, Updated(dto), now)],
         past := d.past.(
           unlogged := if dto.status.Some? then d.past.unlogged - {t} else d.past.unlogged,
           given := if dto.assignee.Set? then d.past.given[dto.assignee.value := now] else d.past.given))
  }

  predicate AssignOk(d: Desk, dir: Directory, t: TicketId, agent: AgentId, author: AgentId) {
    t < |d.tickets| && agent < |dir.agents| && author < |dir.agents|
  }

  function Assign(d: Desk, dir: Directory, t: TicketId, agent: AgentId, author: AgentId, reason: Option<string>,
                  now: int): Desk
  {
    if !AssignOk(d, dir, t, agent, author) then d
    else
      d.(tickets := d.tickets[t := d.tickets[t].(assignee := Some(agent), updatedAt := now)],
         events := d.events + [Event(t, Some(author), Assigned(agent, d.tickets[t].assignee, reason), now)],
         past := d.past.(given := d.past.given[agent := now]))
  }

  /** The second write of mark-not-customer; it leaves no trace in the event log. */
  function MarkClosed(d: Desk, dir: Directory, t: TicketId, author: AgentId, now: int): Desk {
    if !(t < |d.tickets| && author < |dir.agents|) then d
    else
      d.(tickets := d.tickets[t := d.tickets[t].(
           status := Closed, closedAt := Some(now), closedBy := Some(author), updatedAt := now)],
         past := d.past.(unlogged := d.past.unlogged + {t}))
  }

  // ---------- New threads and incoming messages ----------

  function NewTicket(chat: ChatId, customer: CustomerId, anchor: int, priority: Priority,
                     team: Option<TeamId>, assignee: Option<AgentId>, now: int): Ticket
  {
    Ticket(chat, customer, Open, priority, assignee, team, anchor, Some(anchor), None, {}, now, now,
           None, None, None, None, None)
  }

  function Create(d: Desk, t: Ticket): Desk {
    d.(tickets := d.tickets + [t],
       past := d.past.(
         born := d.past.born + [t],
         given := if t.assignee.Some? then d.past.given[t.assignee.value := t.createdAt] else d.past.given))
  }

  predicate HasRow(messages: seq<Message>, t: TicketId, tg: int) {
    exists m :: 0 <= m < |messages| && messages[m].ticket == t && messages[m].tgId == Some(tg)
  }

  function InboundRow(t: TicketId, msg: Incoming, now: int): Message {
    Message(t, In, FromCustomer, None, Some(msg.tgId), msg.text, now)
  }

  /** A row that already carries the id on this ticket makes the whole transaction a no-op. */
  function Record(d: Desk, t: TicketId, msg: Incoming, repliedRow: Option<MessageId>, now: int): Desk
    requires t < |d.tickets|
  {
    if HasRow(d.messages, t, msg.tgId) then d
    else
      d.(messages := d.messages + [InboundRow(t, msg, now)],
         tickets := d.tickets[t := d.tickets[t].(lastClient := Some(msg.tgId), updatedAt := now)],
         past := d.past.(arrivals := d.past.arrivals[|d.messages| := Arrival(msg, repliedRow)]))
  }

  /** The automatic acknowledgement is two writes: its row, then its outbound job. */
  function AckRow(d: Desk, t: TicketId, at: int): Desk {
    d.(messages := d.messages + [Message(t, Out, FromBot, None, None, Some(AUTO_ACK_TEXT), at)])
  }

  function AckJob(d: Desk, t: TicketId, row: MessageId, chatTg: int, replyTo: int): Desk {
    d.(outbox := d.outbox + [Job(t, row, chatTg, Some(AUTO_ACK_TEXT), Some(replyTo))])
  }

  // ---------- Agent replies ----------

  /** The latest row of the ticket by creation time; ties are the database's to break. */
  predicate IsLatestPick(d: Desk, t: TicketId, pick: Option<MessageId>) {
    if pick.Some? then
      && pick.value < |d.messages| && d.messages[pick.value].ticket == t
      && forall n :: 0 <= n < |d.messages| && d.messages[n].ticket == t ==>
           d.messages[n].createdAt <= d.messages[pick.value].createdAt
    else forall n :: 0 <= n < |d.messages| ==> d.messages[n].ticket != t
  }

  /** A zero id is dropped when the job is built. */
  function NonZero(tg: Option<int>): Option<int> {
    if tg == Some(0) then None else tg
  }

  function PointerOrAnchor(t: Ticket): int {
    if t.lastClient.Some? then t.lastClient.value else t.anchor
  }

  function QuoteOf(d: Desk, t: TicketId, mode: QuoteMode, latest: Option<MessageId>): Option<int>
    requires t < |d.tickets|
  {
    var pointer := NonZero(Some(PointerOrAnchor(d.tickets[t])));
    match mode
    case Never => None
    case Force => pointer
    case Auto =>
      if latest.Some? && latest.value < |d.messages| then
        if d.messages[latest.value].direction.In? then NonZero(d.messages[latest.value].tgId) else None
      else pointer
  }

  predicate ReplyOk(d: Desk, dir: Directory, t: TicketId, agent: AgentId) {
    t < |d.tickets| && d.tickets[t].chat < |dir.chats| && agent < |dir.agents|
  }

  function Reply(d: Desk, dir: Directory, t: TicketId, agent: AgentId, text: string, mode: QuoteMode,
                 latest: Option<MessageId>, now: int): Desk
  {
    if !ReplyOk(d, dir, t, agent) then d
    else
      var ticket := d.tickets[t];
      var row := |d.messages|;
      var quote := QuoteOf(d, t, mode, latest);
      d.(messages := d.messages + [Message(t, Out, FromAgent, Some(agent), None, Some(text), now)],
         tickets := if ticket.firstResponseAt.Some? then d.tickets
                    else d.tickets[t := ticket.(firstResponseAt := Some(now), updatedAt := now)],
         outbox := d.outbox + [Job(t, row, dir.chats[ticket.chat].telegramId, Some(text), quote)],
         past := d.past.(autoQuoted :=
           if mode.Auto? && quote.Some? then d.past.autoQuoted + {row} else d.past.autoQuoted))
  }

  /** Telegram's id for a sent row; the unique pair (id, ticket) may refuse it. */
  predicate ConfirmOk(d: Desk, m: MessageId, tg: int) {
    && m < |d.messages|
    && forall n :: 0 <= n < |d.messages| && n != m && d.messages[n].ticket == d.messages[m].ticket ==>
         d.messages[n].tgId != Some(tg)
  }

  function Confirm(d: Desk, m: MessageId, tg: int): Desk {
    if !ConfirmOk(d, m, tg) then d
    else d.(messages := d.messages[m := d.messages[m].(tgId := Some(tg))])
  }
}
