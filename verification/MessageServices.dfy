/** Messages: recording what customers send, acknowledging new threads, and agent replies. */
module MessageServices {
  import opened Types
  import opened DeskSpec
  import opened Storage

  class MessagesService {
    const db: Database

    constructor (db: Database)
      ensures this.db == db
    {
      this.db := db;
    }

    /** Row and pointer commit together; a row that already carries the id on the ticket makes the
        call a no-op. A recorded message that opened its ticket is acknowledged. */
    method RecordIncoming(t: TicketId, msg: Incoming, isNewTicket: bool, now: int, later: int,
                          ghost repliedRow: Option<MessageId>)
      returns (row: MessageId)
      requires t < |db.tickets| && db.tickets[t].chat < |db.chats|
      modifies db`messages, db`tickets, db`outbox, db`past
      ensures var d, recorded := old(db.DeskNow()), Record(old(db.DeskNow()), t, msg, repliedRow, now);
        db.DeskNow() ==
          if isNewTicket && !HasRow(d.messages, t, msg.tgId)
          then AckJob(AckRow(recorded, t, later), t, |recorded.messages|, db.chats[d.tickets[t].chat].telegramId, msg.tgId)
          else recorded
      ensures row < |db.messages| && db.messages[row].ticket == t && db.messages[row].tgId == Some(msg.tgId)
    {
      var n := 0;
      while n < |db.messages|
        invariant n <= |db.messages|
        invariant forall m :: 0 <= m < n ==> !(db.messages[m].ticket == t && db.messages[m].tgId == Some(msg.tgId))
      {
        if db.messages[n].ticket == t && db.messages[n].tgId == Some(msg.tgId) {
          return n;
        }
        n := n + 1;
      }
      row := |db.messages|;
      db.messages := db.messages + [InboundRow(t, msg, now)];
      db.tickets := db.tickets[t := db.tickets[t].(lastClient := Some(msg.tgId), updatedAt := now)];
      db.past := db.past.(arrivals := db.past.arrivals[row := Arrival(msg, repliedRow)]);
      if isNewTicket {
        SendAutoAcknowledgement(t, msg.tgId, later);
      }
    }

    method SendAutoAcknowledgement(t: TicketId, replyTo: int, now: int)
      requires t < |db.tickets| ==> db.tickets[t].chat < |db.chats|
      modifies db`messages, db`outbox
      ensures var d := old(db.DeskNow());
        db.DeskNow() ==
          if t < |d.tickets|
          then AckJob(AckRow(d, t, now), t, |d.messages|, db.chats[d.tickets[t].chat].telegramId, replyTo)
          else d
    {
      if |db.tickets| <= t {
        return;
      }
      var created := |db.messages|;
      db.messages := db.messages + [Message(t, Out, FromBot, None, None, Some(AUTO_ACK_TEXT), now)];
      var chat := db.chats[db.tickets[t].chat];
      db.outbox := db.outbox + [Job(t, created, chat.telegramId, Some(AUTO_ACK_TEXT), Some(replyTo))];
    }

    /** The quoted message is fixed first; row and first-response stamp commit together; then the
        job is queued. */
    method RecordOutgoingReply(t: TicketId, agent: AgentId, text: string, mode: QuoteMode, now: int)
      returns (r: Result<MessageId>, ghost latest: Option<MessageId>)
      requires t < |db.tickets| ==> db.tickets[t].chat < |db.chats|
      modifies db`messages, db`tickets, db`outbox, db`past
      ensures IsLatestPick(old(db.DeskNow()), t, latest)
      ensures db.DeskNow() == Reply(old(db.DeskNow()), db.DirNow(), t, agent, text, mode, latest, now)
      ensures r.Ok? <==> ReplyOk(old(db.DeskNow()), db.DirNow(), t, agent)
      ensures r == Err(NotFound) <==> |old(db.tickets)| <= t
      ensures r.Ok? ==> r.value == |old(db.messages)|
    {
      latest := AnyLatestPick(db.DeskNow(), t, |db.messages|);
      if |db.tickets| <= t {
        return Err(NotFound), latest;
      }
      var ticket := db.tickets[t];
      var anchor := if ticket.lastClient.Some? then ticket.lastClient.value else ticket.anchor;
      var replyTo: Option<int> := None;
      if mode == Force {
        replyTo := Some(anchor);
      } else if mode == Auto {
        var lastMessage := db.FindLatestMessage(t);
        latest := lastMessage;
        if lastMessage.None? {
          replyTo := Some(anchor);
        } else if db.messages[lastMessage.value].direction == In {
          replyTo := db.messages[lastMessage.value].tgId;
        }
      }
      if |db.agents| <= agent {
        return Err(Rejected), latest;
      }
      var row := |db.messages|;
      db.messages := db.messages + [Message(t, Out, FromAgent, Some(agent), None, Some(text), now)];
      if ticket.firstResponseAt.None? {
        db.tickets := db.tickets[t := ticket.(firstResponseAt := Some(now), updatedAt := now)];
      }
      db.outbox := db.outbox + [Job(t, row, db.chats[ticket.chat].telegramId, Some(text), NonZero(replyTo))];
      if mode == Auto && NonZero(replyTo).Some? {
        db.past := db.past.(autoQuoted := db.past.autoQuoted + {row});
      }
      return Ok(row), latest;
    }

    /** Fails when another row of the ticket already carries the id. */
    method ConfirmOutgoingSent(m: MessageId, tg: int) returns (ok: bool)
      modifies db`messages
      ensures db.DeskNow() == Confirm(old(db.DeskNow()), m, tg)
      ensures ok <==> ConfirmOk(old(db.DeskNow()), m, tg)
    {
      if |db.messages| <= m {
        return false;
      }
      for n := 0 to |db.messages|
        invariant db.DeskNow() == old(db.DeskNow())
        invariant forall k :: 0 <= k < n && k != m && db.messages[k].ticket == db.messages[m].ticket ==>
          db.messages[k].tgId != Some(tg)
      {
        if n != m && db.messages[n].ticket == db.messages[m].ticket && db.messages[n].tgId == Some(tg) {
          return false;
        }
      }
      db.messages := db.messages[m := db.messages[m].(tgId := Some(tg))];
      return true;
    }
  }

  lemma AnyLatestPick(d: Desk, t: TicketId, n: nat) returns (pick: Option<MessageId>)
    requires n <= |d.messages|
    ensures IsLatestPick(d.(messages := d.messages[..n]), t, pick)
    ensures n == |d.messages| ==> IsLatestPick(d, t, pick)
  {
    assert d.messages[..|d.messages|] == d.messages;
    if n == 0 {
      return None;
    }
    pick := AnyLatestPick(d, t, n - 1);
    if d.messages[n - 1].ticket == t && (pick.None? || d.messages[pick.value].createdAt <= d.messages[n - 1].createdAt) {
      pick := Some(n - 1);
    }
  }
}
