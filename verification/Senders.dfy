/** What becomes of a message, by who sent it: told on the tables, without the service's verdict. */
module SenderRuns {
  import opened Types
  import opened DirectorySpec
  import opened ThreadGrouping
  import opened RoutingSpec
  import opened Counting
  import opened DeskSpec
  import opened DeskInvariants
  import opened Engine
  import opened Reachable

  // ---------- Who is turned away ----------

  predicate IsAgent(dir: Directory, tg: int) {
    exists a :: 0 <= a < |dir.agents| && dir.agents[a].telegramId == tg && dir.agents[a].isActive
  }

  predicate IsBarred(dir: Directory, tg: int) {
    exists e :: e in dir.excluded && dir.excluded[e].telegramId == Some(tg) && dir.excluded[e].isActive
  }

  /** Some record holds the id, in force or not. */
  predicate IsKnown(dir: Directory, tg: int) {
    exists e :: e in dir.excluded && dir.excluded[e].telegramId == Some(tg)
  }

  /** A record in force has the name, not empty, and no id yet. */
  predicate IsNamed(dir: Directory, username: Option<string>) {
    && username.Some? && username.value != ""
    && exists e :: e in dir.excluded && dir.excluded[e].isActive && dir.excluded[e].telegramId.None?
         && dir.excluded[e].username == username
  }

  lemma Verdicts(dir: Directory, msg: Incoming, pick: Option<ExcludedId>)
    requires IsUsernamePick(dir.excluded, msg.username, pick)
    ensures Classify(dir, msg.fromTg, pick).FromClient? <==>
      !IsAgent(dir, msg.fromTg) && !IsBarred(dir, msg.fromTg) && !IsNamed(dir, msg.username)
    ensures Classify(dir, msg.fromTg, pick).FromActiveAgent? <==> IsAgent(dir, msg.fromTg)
    ensures Classify(dir, msg.fromTg, pick).FromExcluded? <==>
      && !IsAgent(dir, msg.fromTg)
      && (IsBarred(dir, msg.fromTg) || (IsNamed(dir, msg.username) && !IsKnown(dir, msg.fromTg)))
    ensures IsAgent(dir, msg.fromTg) || IsBarred(dir, msg.fromTg) ==> ClassifyWrites(dir, msg.fromTg, pick) == dir
    ensures !IsAgent(dir, msg.fromTg) && !IsBarred(dir, msg.fromTg) && IsNamed(dir, msg.username) ==>
      var after := ClassifyWrites(dir, msg.fromTg, pick);
      if IsKnown(dir, msg.fromTg) then after == dir else after == dir.(excluded := after.excluded) && IsBarred(after, msg.fromTg)
  {
    if IsBarred(dir, msg.fromTg) {
      var e :| e in dir.excluded && dir.excluded[e].telegramId == Some(msg.fromTg) && dir.excluded[e].isActive;
      assert Barred(dir.excluded, msg.fromTg);
    }
    if IsKnown(dir, msg.fromTg) {
      var e :| e in dir.excluded && dir.excluded[e].telegramId == Some(msg.fromTg);
      assert HoldsId(dir.excluded, msg.fromTg);
    }
    if IsNamed(dir, msg.username) {
      var e :| e in dir.excluded && dir.excluded[e].isActive && dir.excluded[e].telegramId.None?
        && dir.excluded[e].username == msg.username;
      assert NamesOnly(dir.excluded, msg.username.value, e);
    }
    if pick.Some? {
      assert NamesOnly(dir.excluded, msg.username.value, pick.value);
      assert IsNamed(dir, msg.username);
      assert pick.value in ClassifyWrites(dir, msg.fromTg, pick).excluded;
    }
  }

  // ---------- What an accepted message leaves ----------

  /** The customer's row and the chat's are there, new rows last; old chats are as they were, and so
      are other customers. */
  ghost predicate PartiesKnown(dir: Directory, e: Directory, msg: Incoming, c: ChatId, u: CustomerId) {
    && c < |e.chats| && e.chats[c].telegramId == msg.chatTg && dir.chats <= e.chats
    && (c < |dir.chats| ==> e.chats == dir.chats)
    && (c >= |dir.chats| ==> e.chats == dir.chats + [Chat(msg.chatTg, msg.chatTitle, None, None, Manual, Normal, None, [])])
    && u < |e.customers| && |dir.customers| <= |e.customers| <= |dir.customers| + 1
    && e.customers[u].telegramId == msg.fromTg && e.customers[u].name == msg.name
    && (msg.username.Some? ==> e.customers[u].username == msg.username)
    && (msg.username.None? ==> e.customers[u].username == if u < |dir.customers| then dir.customers[u].username else None)
    && (forall i :: 0 <= i < |dir.customers| && i != u ==> e.customers[i] == dir.customers[i])
    && (|dir.customers| < |e.customers| ==> u == |dir.customers|)
    && e == dir.(chats := e.chats, customers := e.customers)
  }

  lemma PartiesOf(dir: Directory, msg: Incoming)
    requires DirInv(dir)
    ensures PartiesKnown(dir, Resolved(dir, msg), msg, ChatOf(dir, msg.chatTg), CustomerOf(dir, msg.fromTg))
  {
    ResolvedKeeps(dir, msg);
  }

  /** The message has a row on the ticket; if the row is new, it is what the customer sent, just now. */
  ghost predicate Arrived(d: Desk, e: Desk, msg: Incoming, t: TicketId, m: MessageId, now: int) {
    && m < |e.messages| && e.messages[m].ticket == t && e.messages[m].tgId == Some(msg.tgId)
    && (m >= |d.messages| ==> e.messages[m] == Message(t, In, FromCustomer, None, Some(msg.tgId), msg.text, now))
  }

  /** The message went to a ticket of before: of its chat, open now, and changed in nothing else but
      the pointer and the time. */
  ghost predicate WentOn(d: Desk, e: Desk, msg: Incoming, c: ChatId, t: TicketId, now: int) {
    && t < |d.tickets| == |e.tickets| && d.tickets[t].chat == c
    && e.tickets[t].status.Open? && !d.tickets[t].status.Terminal()
    && (forall i :: 0 <= i < |d.tickets| && i != t ==> e.tickets[i] == d.tickets[i])
    && e.tickets[t] == d.tickets[t].(status := Open, lastClient := e.tickets[t].lastClient, updatedAt := e.tickets[t].updatedAt)
    && d.messages <= e.messages && |e.messages| <= |d.messages| + 1 && e.outbox == d.outbox
    && (|e.messages| > |d.messages| ==> e.tickets[t].lastClient == Some(msg.tgId) && e.tickets[t].updatedAt == now)
  }

  /** The message began a ticket, and was acknowledged. */
  ghost predicate Began(d: Desk, e: Desk, dir: Directory, msg: Incoming, c: ChatId, u: CustomerId, now: int, doneAt: int)
    requires c < |dir.chats|
  {
    var t, row := |d.tickets|, |d.messages|;
    && |e.tickets| == t + 1
    && e.tickets == d.tickets + [Ticket(c, u, Open, dir.chats[c].priority, e.tickets[t].assignee, dir.chats[c].team,
                                        msg.tgId, Some(msg.tgId), None, {}, now, now, None, None, None, None, None)]
    && e.messages == d.messages + [Message(t, In, FromCustomer, None, Some(msg.tgId), msg.text, now),
                                   Message(t, Out, FromBot, None, None, Some(AUTO_ACK_TEXT), doneAt)]
    && e.outbox == d.outbox + [Job(t, row + 1, msg.chatTg, Some(AUTO_ACK_TEXT), Some(msg.tgId))]
    && e.events == d.events
    && GivenTo(d.tickets, dir, dir.chats[c], e.tickets[t].assignee)
  }

  /** Tickets an agent holds and has not resolved. */
  function HeldBy(tickets: seq<Ticket>, a: AgentId): set<int> {
    set i | 0 <= i < |tickets| && tickets[i].assignee == Some(a) && tickets[i].status in {Open, Pending, OnHold}
  }

  /** The agent holds no ticket created later than all the other holds. */
  ghost predicate ServedNoLater(tickets: seq<Ticket>, a: AgentId, b: AgentId) {
    forall i :: 0 <= i < |tickets| && tickets[i].assignee == Some(a) ==>
      exists j :: 0 <= j < |tickets| && tickets[j].assignee == Some(b) && tickets[i].createdAt <= tickets[j].createdAt
  }

  predicate OnDuty(dir: Directory, team: TeamId, a: AgentId) {
    (team, a) in dir.members && a < |dir.agents| && dir.agents[a].isActive
  }

  /** The chat's own assignee, or by its strategy an active member of its team: one with the fewest
      unresolved tickets, or one whose newest ticket is the oldest. */
  ghost predicate GivenTo(tickets: seq<Ticket>, dir: Directory, chat: Chat, assignee: Option<AgentId>) {
    if chat.strategy.Manual? || chat.team.None? || forall a: AgentId :: !OnDuty(dir, chat.team.value, a) then
      assignee == chat.assignee
    else
      && assignee.Some? && OnDuty(dir, chat.team.value, assignee.value)
      && forall b: AgentId :: OnDuty(dir, chat.team.value, b) ==>
           if chat.strategy.LeastBusy? then |HeldBy(tickets, assignee.value)| <= |HeldBy(tickets, b)|
           else ServedNoLater(tickets, assignee.value, b)
  }

  lemma {:induction false} LoadIsSize(tickets: seq<Ticket>, a: AgentId)
    ensures Load(tickets, a) == |HeldBy(tickets, a)|
  {
    var flags := LoadFlags(tickets, a);
    assert HeldBy(tickets, a) == set i | 0 <= i < |flags| && flags[i];
    CountIsSize(flags, HeldBy(tickets, a));
  }

  lemma EarlierIsServed(tickets: seq<Ticket>, a: AgentId, b: AgentId)
    requires LastAssigned(tickets, a) <= LastAssigned(tickets, b)
    requires forall i :: 0 <= i < |tickets| ==> 0 < tickets[i].createdAt
    ensures ServedNoLater(tickets, a, b)
  {
    forall i | 0 <= i < |tickets| && tickets[i].assignee == Some(a)
      ensures exists j :: 0 <= j < |tickets| && tickets[j].assignee == Some(b) && tickets[i].createdAt <= tickets[j].createdAt
    {
      assert tickets[i].createdAt <= LastAssigned(tickets, a);
      assert LastCreated(tickets, b).Some?;
    }
  }

  lemma AssignedByStrategy(tickets: seq<Ticket>, dir: Directory, chat: Chat, order: seq<AgentId>)
    requires IsRoutingOrder(dir, chat, order) && forall i :: 0 <= i < |tickets| ==> 0 < tickets[i].createdAt
    ensures GivenTo(tickets, dir, chat, AssigneeFor(tickets, chat, order))
  {
    if chat.team.Some? {
      forall a: AgentId
        ensures OnDuty(dir, chat.team.value, a) <==> a in order
      {
        assert OnDuty(dir, chat.team.value, a) ==> (chat.team.value, a) in dir.members;
      }
      if order != [] && !chat.strategy.Manual? {
        assert OnDuty(dir, chat.team.value, order[0]);
        ChosenBy(tickets, dir, chat, order);
      }
    }
  }

  lemma ChosenBy(tickets: seq<Ticket>, dir: Directory, chat: Chat, order: seq<AgentId>)
    requires chat.team.Some? && !chat.strategy.Manual? && order != []
    requires forall a: AgentId :: OnDuty(dir, chat.team.value, a) <==> a in order
    requires forall i :: 0 <= i < |tickets| ==> 0 < tickets[i].createdAt
    ensures var a := AssigneeFor(tickets, chat, order);
      && a.Some? && a.value in order
      && forall b: AgentId :: b in order ==>
           if chat.strategy.LeastBusy? then |HeldBy(tickets, a.value)| <= |HeldBy(tickets, b)|
           else ServedNoLater(tickets, a.value, b)
  {
    var a := AssigneeFor(tickets, chat, order).value;
    forall b: AgentId | b in order
      ensures if chat.strategy.LeastBusy? then |HeldBy(tickets, a)| <= |HeldBy(tickets, b)| else ServedNoLater(tickets, a, b)
    {
      if chat.strategy.LeastBusy? {
        LoadIsSize(tickets, a);
        LoadIsSize(tickets, b);
        assert LoadKey(tickets, order)[a] <= LoadKey(tickets, order)[b];
      } else {
        assert LastKey(tickets, order)[a] <= LastKey(tickets, order)[b];
        EarlierIsServed(tickets, a, b);
      }
    }
  }

  // ---------- The outcome of a job ----------

  ghost predicate TakenIn(db: Db, after: Db, msg: Incoming, now: int, doneAt: int) {
    exists c: ChatId, u: CustomerId, t: TicketId, m: MessageId ::
      && PartiesKnown(db.dir, after.dir, msg, c, u)
      && Arrived(db.desk, after.desk, msg, t, m, now)
      && (|| WentOn(db.desk, after.desk, msg, c, t, now)
          || (t == |db.desk.tickets| && m == |db.desk.messages| && Began(db.desk, after.desk, after.dir, msg, c, u, now, doneAt)))
  }

  /** A job run to its end, in any state that can be reached: the message of an active agent or a
      barred sender changes nothing; one of a sender listed by name alone changes no ticket, and
      bars the sender unless a record out of force has the id; any other is taken in, on a live
      ticket of its chat or on a new one. */
  lemma IngestOutcome(db: Db, ts: Timed)
    requires Inv(db) && Legal(db, ts) && ts.step.Ingest? && ts.step.cut.Complete?
    ensures var msg, e := ts.step.msg, Apply(db, ts);
      if IsAgent(db.dir, msg.fromTg) || IsBarred(db.dir, msg.fromTg) then e.desk == db.desk && e.dir == db.dir
      else if IsNamed(db.dir, msg.username) then
        e.desk == db.desk && if IsKnown(db.dir, msg.fromTg) then e.dir == db.dir else IsBarred(e.dir, msg.fromTg)
      else TakenIn(db, e, msg, ts.now, ts.step.picks.doneAt)
  {
    Verdicts(db.dir, ts.step.msg, ts.step.picks.excluded);
    if Accepts(db.dir, ts.step.msg, ts.step.picks) {
      AcceptedIsTakenIn(db, ts);
    }
  }

  /** A job that stopped before its ticket has changed no ticket: it has written nothing, or the chat,
      or the chat and the customer. */
  lemma StoppedEarly(db: Db, ts: Timed)
    requires Inv(db) && Legal(db, ts) && ts.step.Ingest? && ts.step.cut.Rank() < 3
    requires var msg := ts.step.msg;
      !IsAgent(db.dir, msg.fromTg) && !IsBarred(db.dir, msg.fromTg) && !IsNamed(db.dir, msg.username)
    ensures var msg, e := ts.step.msg, Apply(db, ts);
      && e.desk == db.desk
      && match ts.step.cut
         case AfterClassify => e.dir == db.dir
         case AfterChat => e.dir.customers == db.dir.customers && ChatKnown(db.dir, e.dir, msg)
         case _ => exists c: ChatId, u: CustomerId :: PartiesKnown(db.dir, e.dir, msg, c, u)
  {
    Verdicts(db.dir, ts.step.msg, ts.step.picks.excluded);
    PartiesOf(db.dir, ts.step.msg);
    ChatFirst(db.dir, ts.step.msg);
  }

  ghost predicate ChatKnown(dir: Directory, e: Directory, msg: Incoming) {
    && e == dir.(chats := e.chats) && dir.chats <= e.chats <= dir.chats + [NewChat(msg.chatTg, msg.chatTitle)]
    && exists c :: 0 <= c < |e.chats| && e.chats[c].telegramId == msg.chatTg
  }

  lemma ChatFirst(dir: Directory, msg: Incoming)
    ensures ChatKnown(dir, WithChat(dir, msg.chatTg, msg.chatTitle), msg)
  {
    assert WithChat(dir, msg.chatTg, msg.chatTitle).chats[ChatOf(dir, msg.chatTg)].telegramId == msg.chatTg;
  }

  lemma AcceptedIsTakenIn(db: Db, ts: Timed)
    requires Inv(db) && Legal(db, ts) && ts.step.Ingest? && ts.step.cut.Complete?
    requires Accepts(db.dir, ts.step.msg, ts.step.picks)
    ensures TakenIn(db, Apply(db, ts), ts.step.msg, ts.now, ts.step.picks.doneAt)
  {
    var dir, d, msg, p, now := db.dir, db.desk, ts.step.msg, ts.step.picks, ts.now;
    var e := Apply(db, ts).desk;
    PartiesOf(dir, msg);
    var m := RowThere(dir, d, msg, p, now);
    if DecisionFor(dir, d, p, now).Attach? {
      AttachedGoesOn(dir, d, msg, p, now);
    } else {
      NewThreadBegins(dir, d, db.clock, msg, p, now);
    }
    Witness(db, Apply(db, ts), msg, now, p.doneAt, ChatOf(dir, msg.chatTg), CustomerOf(dir, msg.fromTg), Target(dir, d, p, now), m);
  }

  lemma Witness(db: Db, after: Db, msg: Incoming, now: int, doneAt: int, c: ChatId, u: CustomerId, t: TicketId, m: MessageId)
    requires PartiesKnown(db.dir, after.dir, msg, c, u) && Arrived(db.desk, after.desk, msg, t, m, now)
    requires || WentOn(db.desk, after.desk, msg, c, t, now)
             || (t == |db.desk.tickets| && m == |db.desk.messages| && Began(db.desk, after.desk, after.dir, msg, c, u, now, doneAt))
    ensures TakenIn(db, after, msg, now, doneAt)
  {
  }

  lemma RowThere(dir: Directory, d: Desk, msg: Incoming, p: Picks, now: int) returns (m: MessageId)
    requires Accepts(dir, msg, p) && Shape(d)
    ensures Arrived(d, IngestDesk(dir, d, msg, p, now, Complete), msg, Target(dir, d, p, now), m, now)
    ensures DecisionFor(dir, d, p, now).CreateNew? ==> m == |d.messages|
  {
    var placed, t, e := Place(dir, d, msg, p, now), Target(dir, d, p, now), IngestDesk(dir, d, msg, p, now, Complete);
    assert placed.messages == d.messages;
    if HasRow(placed.messages, t, msg.tgId) {
      m :| 0 <= m < |d.messages| && d.messages[m].ticket == t && d.messages[m].tgId == Some(msg.tgId);
    } else {
      m := |d.messages|;
    }
  }

  lemma AttachedGoesOn(dir: Directory, d: Desk, msg: Incoming, p: Picks, now: int)
    requires Accepts(dir, msg, p) && LegalPicks(dir, d, msg, p, now) && DecisionFor(dir, d, p, now).Attach?
    ensures WentOn(d, IngestDesk(dir, d, msg, p, now, Complete), msg, ChatOf(dir, msg.chatTg), Target(dir, d, p, now), now)
  {
    AttachMeaning(d, ChatOf(dir, msg.chatTg), CustomerOf(dir, msg.fromTg), msg.replyTo, dir.idleMinutes, now, p.anchor, p.active);
    var placed, t := Place(dir, d, msg, p, now), Target(dir, d, p, now);
    assert placed.messages == d.messages && placed.outbox == d.outbox;
    assert IngestDesk(dir, d, msg, p, now, Complete) == Record(placed, t, msg, RepliedRow(dir, d, p, now), now);
  }

  lemma NewThreadBegins(dir: Directory, d: Desk, clock: int, msg: Incoming, p: Picks, now: int)
    requires DirInv(dir) && Shape(d) && Lifecycle(d, clock)
    requires Accepts(dir, msg, p) && LegalPicks(dir, d, msg, p, now) && DecisionFor(dir, d, p, now).CreateNew?
    ensures Began(d, IngestDesk(dir, d, msg, p, now, Complete), Resolved(dir, msg), msg,
                  ChatOf(dir, msg.chatTg), CustomerOf(dir, msg.fromTg), now, p.doneAt)
  {
    var r, c := Resolved(dir, msg), ChatOf(dir, msg.chatTg);
    NewThreadHasNoBot(dir, d, msg, p, now);
    AssignedByStrategy(d.tickets, r, r.chats[c], p.members);
    NewRows(dir, d, msg, p, now);
  }

  lemma NewRows(dir: Directory, d: Desk, msg: Incoming, p: Picks, now: int)
    requires Accepts(dir, msg, p) && DecisionFor(dir, d, p, now).CreateNew?
    requires Recorded(dir, d, msg, p, now).messages == d.messages + [InboundRow(|d.tickets|, msg, now)]
    ensures var e, recorded := IngestDesk(dir, d, msg, p, now, Complete), Recorded(dir, d, msg, p, now);
      && e.tickets == d.tickets + [Newborn(dir, d, msg, p, now)]
      && e.messages == recorded.messages + [Message(|d.tickets|, Out, FromBot, None, None, Some(AUTO_ACK_TEXT), p.doneAt)]
      && e.outbox == d.outbox + [Job(|d.tickets|, |d.messages| + 1, msg.chatTg, Some(AUTO_ACK_TEXT), Some(msg.tgId))]
      && e.events == d.events
  {
    NewTicketRow(dir, d, msg, p, now);
    Acknowledged(dir, d, msg, p, now);
  }

  lemma NewTicketRow(dir: Directory, d: Desk, msg: Incoming, p: Picks, now: int)
    requires DecisionFor(dir, d, p, now).CreateNew?
    ensures var r := Recorded(dir, d, msg, p, now);
      r.tickets == d.tickets + [Newborn(dir, d, msg, p, now)] && r.outbox == d.outbox && r.events == d.events
  {
    RecordOnBorn(Create(d, Newborn(dir, d, msg, p, now)), |d.tickets|, msg, RepliedRow(dir, d, p, now), now);
  }

  /** Recording the message a ticket was just created for writes what is there already. */
  lemma RecordOnBorn(d: Desk, t: TicketId, msg: Incoming, replied: Option<MessageId>, now: int)
    requires t < |d.tickets| && d.tickets[t].lastClient == Some(msg.tgId) && d.tickets[t].updatedAt == now
    ensures var e := Record(d, t, msg, replied, now);
      e.tickets == d.tickets && e.outbox == d.outbox && e.events == d.events
  {
    assert d.tickets[t].(lastClient := Some(msg.tgId), updatedAt := now) == d.tickets[t];
  }

  lemma Acknowledged(dir: Directory, d: Desk, msg: Incoming, p: Picks, now: int)
    requires Accepts(dir, msg, p) && DecisionFor(dir, d, p, now).CreateNew?
    ensures var r := Recorded(dir, d, msg, p, now);
      IngestDesk(dir, d, msg, p, now, Complete) ==
      AckJob(AckRow(r, |d.tickets|, p.doneAt), |d.tickets|, |r.messages|, msg.chatTg, msg.tgId)
  {
  }
}
