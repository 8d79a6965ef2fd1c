/** Which ticket an incoming customer message belongs to: a reply to a known message, else the
    customer's most recently updated live thread, else a new thread. */
module ThreadGrouping {
  import opened Types

  // ---------- The two lookups ----------

  /** Row `m` belongs to a ticket of the chat and has the given Telegram id. */
  predicate Carries(d: Desk, chat: ChatId, tg: int, m: MessageId) {
    && m < |d.messages|
    && d.messages[m].tgId == Some(tg)
    && d.messages[m].ticket < |d.tickets|
    && d.tickets[d.messages[m].ticket].chat == chat
  }

  /** Any latest carrier may be returned when several share a creation time. */
  predicate IsAnchorPick(d: Desk, chat: ChatId, reply: Option<int>, pick: Option<MessageId>) {
    if reply.None? then pick.None?
    else if pick.Some? then
      && Carries(d, chat, reply.value, pick.value)
      && forall n: MessageId | n < |d.messages| ::
           Carries(d, chat, reply.value, n) ==> d.messages[n].createdAt <= d.messages[pick.value].createdAt
    else forall n: MessageId | n < |d.messages| :: !Carries(d, chat, reply.value, n)
  }

  /** A ticket of this customer in this chat that is neither closed nor archived. */
  predicate Candidate(d: Desk, chat: ChatId, customer: CustomerId, t: TicketId) {
    && t < |d.tickets|
    && d.tickets[t].chat == chat
    && d.tickets[t].customer == customer
    && !d.tickets[t].status.Terminal()
  }

  predicate IsActivePick(d: Desk, chat: ChatId, customer: CustomerId, pick: Option<TicketId>) {
    if pick.Some? then
      && Candidate(d, chat, customer, pick.value)
      && forall u: TicketId | u < |d.tickets| ::
           Candidate(d, chat, customer, u) ==> d.tickets[u].updatedAt <= d.tickets[pick.value].updatedAt
    else forall u: TicketId | u < |d.tickets| :: !Candidate(d, chat, customer, u)
  }

  // ---------- The decision ----------

  datatype Decision =
    | Attach(ticket: TicketId, revive: bool, rule: nat)
    | CreateNew

  predicate WithinWindow(idleMinutes: int, now: int, lastActivity: int) {
    now - lastActivity < idleMinutes * MINUTE
  }

  predicate Anchored(d: Desk, anchor: Option<MessageId>)
  {
    && anchor.Some? && anchor.value < |d.messages|
    && d.messages[anchor.value].ticket < |d.tickets|
    && !d.tickets[d.messages[anchor.value].ticket].status.Terminal()
  }

  function Decide(d: Desk, idleMinutes: int, now: int, anchor: Option<MessageId>, active: Option<TicketId>): Decision
  {
    if Anchored(d, anchor) then
      var t := d.messages[anchor.value].ticket;
      Attach(t, !d.tickets[t].status.Open?, 1)
    else if active.Some? && active.value < |d.tickets| && !d.tickets[active.value].status.Terminal()
            && WithinWindow(idleMinutes, now, d.tickets[active.value].updatedAt) then
      Attach(active.value, !d.tickets[active.value].status.Open?, 2)
    else CreateNew
  }

  // ---------- What the decision means ----------

  /** A new thread starts exactly when the message replies to nothing live and every earlier ticket
      of the same chat and customer is closed, archived, or idle for the whole window: looking at
      the most recently updated candidate alone is enough. */
  lemma CreatesIff(d: Desk, chat: ChatId, customer: CustomerId, reply: Option<int>, idleMinutes: int, now: int,
                   anchor: Option<MessageId>, active: Option<TicketId>)
    requires IsAnchorPick(d, chat, reply, anchor) && IsActivePick(d, chat, customer, active)
    ensures Decide(d, idleMinutes, now, anchor, active).CreateNew? <==>
      && !Anchored(d, anchor)
      && forall u: TicketId | u < |d.tickets| && d.tickets[u].chat == chat && d.tickets[u].customer == customer ::
           d.tickets[u].status.Terminal() || now - d.tickets[u].updatedAt >= idleMinutes * MINUTE
  {
    if active.Some? {
      assert Candidate(d, chat, customer, active.value);
    }
    forall u: TicketId | u < |d.tickets| && d.tickets[u].chat == chat && d.tickets[u].customer == customer
      && !d.tickets[u].status.Terminal()
      ensures active.Some? && d.tickets[u].updatedAt <= d.tickets[active.value].updatedAt
    {
      assert Candidate(d, chat, customer, u);
    }
  }

  /** The chosen ticket lives in the message's chat, is not terminal, and either belongs to the
      sender or holds the message replied to; it is revived exactly when it is not open. */
  lemma AttachMeaning(d: Desk, chat: ChatId, customer: CustomerId, reply: Option<int>, idleMinutes: int, now: int,
                      anchor: Option<MessageId>, active: Option<TicketId>)
    requires IsAnchorPick(d, chat, reply, anchor) && IsActivePick(d, chat, customer, active)
    requires Decide(d, idleMinutes, now, anchor, active).Attach?
    ensures var a := Decide(d, idleMinutes, now, anchor, active);
      && a.ticket < |d.tickets| && d.tickets[a.ticket].chat == chat && !d.tickets[a.ticket].status.Terminal()
      && a.revive == !d.tickets[a.ticket].status.Open?
      && (a.rule == 1 ==> (
            && anchor.Some? && reply.Some? && anchor.value < |d.messages|
            && d.messages[anchor.value].ticket == a.ticket && d.messages[anchor.value].tgId == reply))
      && (a.rule != 1 ==> (
            && d.tickets[a.ticket].customer == customer
            && WithinWindow(idleMinutes, now, d.tickets[a.ticket].updatedAt)
            && forall u: TicketId | u < |d.tickets| ::
                 Candidate(d, chat, customer, u) ==> d.tickets[u].updatedAt <= d.tickets[a.ticket].updatedAt))
  {
  }

  /** Some answer of each lookup always exists. */
  lemma ActivePickExists(d: Desk, chat: ChatId, customer: CustomerId, n: nat) returns (pick: Option<TicketId>)
    requires n <= |d.tickets|
    ensures IsActivePick(d.(tickets := d.tickets[..n]), chat, customer, pick)
  {
    if n == 0 {
      return None;
    }
    pick := ActivePickExists(d, chat, customer, n - 1);
    var prefix, whole := d.(tickets := d.tickets[..n - 1]), d.(tickets := d.tickets[..n]);
    forall t: TicketId | t < n - 1
      ensures Candidate(prefix, chat, customer, t) == Candidate(whole, chat, customer, t)
    {
    }
    if Candidate(whole, chat, customer, n - 1)
       && (pick.None? || whole.tickets[pick.value].updatedAt <= whole.tickets[n - 1].updatedAt) {
      pick := Some(n - 1);
    }
  }
}
