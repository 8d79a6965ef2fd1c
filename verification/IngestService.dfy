/** The ingest job, end to end: classify the sender, resolve chat and customer, decide the thread,
    revive or create it, record the message. */
module IngestServices {
  import opened Types
  import opened DirectorySpec
  import opened ThreadGrouping
  import opened DeskSpec
  import opened RoutingSpec
  import opened Engine
  import opened SenderRuns
  import opened Storage
  import opened SenderServices
  import opened RoutingServices
  import opened TicketServices
  import opened MessageServices

  class ThreadGroupingService {
    const db: Database

    constructor (db: Database)
      ensures this.db == db
    {
      this.db := db;
    }

    /** Rule 1, a reply to a known message of a live thread; rule 2, the customer's most recent live
        thread inside the idle window; rule 3, a new thread. A new thread starts only when every
        thread of the customer in the chat is terminal or idle. */
    method DecideThread(chat: ChatId, customer: CustomerId, replyTo: Option<int>, now: int)
      returns (decision: Decision, ghost anchor: Option<MessageId>, ghost active: Option<TicketId>)
      requires forall m :: 0 <= m < |db.messages| ==> db.messages[m].ticket < |db.tickets|
      ensures IsAnchorPick(db.DeskNow(), chat, replyTo, anchor)
      ensures IsActivePick(db.DeskNow(), chat, customer, active)
      ensures decision == Decide(db.DeskNow(), db.idleMinutes, now, anchor, active)
      ensures decision.CreateNew? ==>
        forall t: TicketId | t < |db.tickets| && db.tickets[t].chat == chat && db.tickets[t].customer == customer ::
          db.tickets[t].status.Terminal() || now - db.tickets[t].updatedAt >= db.idleMinutes * MINUTE
      ensures decision.Attach? ==>
        && decision.ticket < |db.tickets| && db.tickets[decision.ticket].chat == chat
        && !db.tickets[decision.ticket].status.Terminal()
        && decision.revive == !db.tickets[decision.ticket].status.Open?
        && (if decision.rule == 1
            then replyTo.Some? && HasRow(db.messages, decision.ticket, replyTo.value)
            else db.tickets[decision.ticket].customer == customer
                 && now - db.tickets[decision.ticket].updatedAt < db.idleMinutes * MINUTE)
    {
      decision, anchor, active := DecideByRules(chat, customer, replyTo, now);
      CreatesIff(db.DeskNow(), chat, customer, replyTo, db.idleMinutes, now, anchor, active);
      if decision.Attach? {
        AttachMeaning(db.DeskNow(), chat, customer, replyTo, db.idleMinutes, now, anchor, active);
      }
    }

    /** The three rules in order, on whatever the lookups return. */
    method DecideByRules(chat: ChatId, customer: CustomerId, replyTo: Option<int>, now: int)
      returns (decision: Decision, ghost anchor: Option<MessageId>, ghost active: Option<TicketId>)
      requires forall m :: 0 <= m < |db.messages| ==> db.messages[m].ticket < |db.tickets|
      ensures IsAnchorPick(db.DeskNow(), chat, replyTo, anchor)
      ensures IsActivePick(db.DeskNow(), chat, customer, active)
      ensures decision == Decide(db.DeskNow(), db.idleMinutes, now, anchor, active)
    {
      anchor := None;
      active := AnyActivePick(db.DeskNow(), chat, customer);
      if replyTo.Some? {
        var replied := db.FindTicketByAnchorMessage(chat, replyTo.value);
        anchor := replied;
        if replied.Some? {
          var t := db.messages[replied.value].ticket;
          if !db.tickets[t].status.Terminal() {
            return Attach(t, db.tickets[t].status != Open, 1), anchor, active;
          }
        }
      }
      var recent := db.FindMostRecentActiveTicket(chat, customer);
      active := recent;
      if recent.Some? {
        var t := db.tickets[recent.value];
        if now - t.updatedAt < db.idleMinutes * MINUTE {
          return Attach(recent.value, t.status != Open, 2), anchor, active;
        }
      }
      return CreateNew, anchor, active;
    }
  }

  lemma AnyActivePick(d: Desk, chat: ChatId, customer: CustomerId) returns (active: Option<TicketId>)
    ensures IsActivePick(d, chat, customer, active)
  {
    active := ActivePickExists(d, chat, customer, |d.tickets|);
    assert d.tickets[..|d.tickets|] == d.tickets;
  }

  datatype Outcome = IgnoredAgent | IgnoredExcluded | ClassifyFailed | TicketMessage(ticket: TicketId, isNew: bool)

  class IngestOrchestratorService {
    const db: Database
    const clientDetection: ClientDetectionService
    const chats: ChatsService
    const customers: CustomersService
    const threadGrouping: ThreadGroupingService
    const tickets: TicketsService
    const messages: MessagesService
    const routing: RoutingService

    constructor (db: Database)
      ensures Wired() && this.db == db
    {
      this.db := db;
      clientDetection := new ClientDetectionService(db);
      chats := new ChatsService(db);
      customers := new CustomersService(db);
      threadGrouping := new ThreadGroupingService(db);
      tickets := new TicketsService(db);
      messages := new MessagesService(db);
      routing := new RoutingService(db);
    }

    predicate Wired() {
      && clientDetection.db == db && chats.db == db && customers.db == db && threadGrouping.db == db
      && tickets.db == db && messages.db == db && routing.db == db
    }

    /** What the tables must satisfy for rows to be found behind references. */
    ghost predicate Sound()
      reads db
    {
      && (forall m :: 0 <= m < |db.messages| ==> db.messages[m].ticket < |db.tickets|)
      && (forall t :: 0 <= t < |db.tickets| ==> db.tickets[t].chat < |db.chats|)
    }

    /** One job run to its end is the ingest step of the state machine. */
    method Process(msg: Incoming, now: int, later: int) returns (outcome: Outcome, ghost picks: Picks)
      requires Wired() && Sound() && now <= later
      modifies db`excluded, db`chats, db`customers, db`tickets, db`messages, db`events, db`outbox, db`past
      ensures LegalPicks(old(db.DirNow()), old(db.DeskNow()), msg, picks, now) && picks.doneAt == later
      ensures db.DirNow() == IngestDir(old(db.DirNow()), msg, picks, Complete)
      ensures db.DeskNow() == IngestDesk(old(db.DirNow()), old(db.DeskNow()), msg, picks, now, Complete)
      ensures outcome.TicketMessage? <==> Accepts(old(db.DirNow()), msg, picks)
      ensures outcome == IgnoredAgent <==> IsAgent(old(db.DirNow()), msg.fromTg)
      ensures outcome == IgnoredExcluded <==>
        && !IsAgent(old(db.DirNow()), msg.fromTg)
        && (IsBarred(old(db.DirNow()), msg.fromTg)
            || (IsNamed(old(db.DirNow()), msg.username) && !IsKnown(old(db.DirNow()), msg.fromTg)))
      ensures outcome.TicketMessage? ==>
        && outcome.ticket == Target(old(db.DirNow()), old(db.DeskNow()), picks, now)
        && outcome.isNew == DecisionFor(old(db.DirNow()), old(db.DeskNow()), picks, now).CreateNew?
    {
      ghost var dir, d := db.DirNow(), db.DeskNow();
      var classification, named := clientDetection.Classify(msg.fromTg, msg.username);
      Verdicts(dir, msg, named);
      picks := Picks(named, None, None, [], later);
      if classification == FromActiveAgent {
        return IgnoredAgent, picks;
      }
      if classification == FromExcluded {
        return IgnoredExcluded, picks;
      }
      if classification == Failed {
        return ClassifyFailed, picks;
      }
      var t, isNew;
      t, isNew, picks := ProcessAccepted(msg, named, now, later);
      outcome := TicketMessage(t, isNew);
    }

    /** The job of a message whose sender is a customer. */
    method ProcessAccepted(msg: Incoming, ghost named: Option<ExcludedId>, now: int, later: int)
      returns (t: TicketId, isNew: bool, ghost picks: Picks)
      requires Wired() && Sound() && now <= later
      requires IsUsernamePick(db.excluded, msg.username, named)
      requires DirectorySpec.Classify(db.DirNow(), msg.fromTg, named).FromClient?
      modifies db`chats, db`customers, db`tickets, db`messages, db`events, db`outbox, db`past
      ensures picks.doneAt == later && picks.excluded == named
      ensures LegalPicks(old(db.DirNow()), old(db.DeskNow()), msg, picks, now)
      ensures db.DirNow() == Resolved(old(db.DirNow()), msg)
      ensures db.DeskNow() == IngestDesk(old(db.DirNow()), old(db.DeskNow()), msg, picks, now, Complete)
      ensures t == Target(old(db.DirNow()), old(db.DeskNow()), picks, now)
      ensures isNew == DecisionFor(old(db.DirNow()), old(db.DeskNow()), picks, now).CreateNew?
    {
      ghost var dir, d := db.DirNow(), db.DeskNow();
      var chat := chats.FindOrCreateByTelegramId(msg.chatTg, msg.chatTitle);
      var customer := customers.FindOrCreateByTelegramId(msg.fromTg, msg.username, msg.name);
      assert db.DirNow() == Resolved(dir, msg) && db.DeskNow() == d;
      t, isNew, picks := PlaceAndRecord(msg, chat, customer, now, later, dir, Picks(named, None, None, [], later));
    }

    method PlaceAndRecord(msg: Incoming, chat: ChatId, customer: CustomerId, now: int, later: int,
                          ghost dir: Directory, ghost p: Picks)
      returns (t: TicketId, isNew: bool, ghost picks: Picks)
      requires Wired() && db.DirNow() == Resolved(dir, msg) && Accepts(dir, msg, p)
      requires now <= later == p.doneAt && IsUsernamePick(dir.excluded, msg.username, p.excluded)
      requires forall m :: 0 <= m < |db.messages| ==> db.messages[m].ticket < |db.tickets|
      requires forall t :: 0 <= t < |db.tickets| ==> db.tickets[t].chat < |dir.chats|
      requires chat == ChatOf(dir, msg.chatTg) && customer == CustomerOf(dir, msg.fromTg)
      modifies db`tickets, db`messages, db`events, db`outbox, db`past
      ensures picks == p.(anchor := picks.anchor, active := picks.active, members := picks.members)
      ensures LegalPicks(dir, old(db.DeskNow()), msg, picks, now)
      ensures db.DeskNow() == IngestDesk(dir, old(db.DeskNow()), msg, picks, now, Complete)
      ensures t == Target(dir, old(db.DeskNow()), picks, now)
      ensures isNew == DecisionFor(dir, old(db.DeskNow()), picks, now).CreateNew?
    {
      ghost var d := db.DeskNow();
      t, isNew, picks := PlaceMessage(msg, chat, customer, now, dir, p);
      CompletedIngest(dir, d, msg, picks, now);
      var row := messages.RecordIncoming(t, msg, isNew, now, later, RepliedRow(dir, d, picks, now));
    }

    /** Revives the thread found, or starts a new one with the assignee the chat's strategy gives. */
    method PlaceMessage(msg: Incoming, chat: ChatId, customer: CustomerId, now: int, ghost dir: Directory, ghost p: Picks)
      returns (t: TicketId, isNew: bool, ghost picks: Picks)
      requires Wired() && db.DirNow() == Resolved(dir, msg)
      requires now <= p.doneAt && IsUsernamePick(dir.excluded, msg.username, p.excluded)
      requires forall m :: 0 <= m < |db.messages| ==> db.messages[m].ticket < |db.tickets|
      requires chat == ChatOf(dir, msg.chatTg) && customer == CustomerOf(dir, msg.fromTg)
      modifies db`tickets, db`events, db`past
      ensures picks == p.(anchor := picks.anchor, active := picks.active, members := picks.members)
      ensures LegalPicks(dir, old(db.DeskNow()), msg, picks, now)
      ensures db.DeskNow() == Place(dir, old(db.DeskNow()), msg, picks, now)
      ensures t == Target(dir, old(db.DeskNow()), picks, now)
      ensures isNew == DecisionFor(dir, old(db.DeskNow()), picks, now).CreateNew?
    {
      ghost var d := db.DeskNow();
      var decision, anchor, active := threadGrouping.DecideThread(chat, customer, msg.replyTo, now);
      ghost var order := AnyRoutingOrder(db.DirNow(), db.chats[chat]);
      if decision.Attach? {
        t, isNew := decision.ticket, false;
        if decision.revive {
          var patched := tickets.Patch(t, StatusOnly(Open), None, now);
        }
      } else {
        var settings := db.chats[chat];
        var assignee;
        assignee, order := routing.DecideAssignment(settings);
        t := tickets.CreateForNewThread(chat, customer, msg.tgId, settings.priority, settings.team, assignee, now);
        isNew := true;
      }
      picks := p.(anchor := anchor, active := active, members := order);
      assert decision == DecisionFor(dir, d, picks, now);
    }
  }

  lemma AnyRoutingOrder(dir: Directory, chat: Chat) returns (order: seq<AgentId>)
    ensures IsRoutingOrder(dir, chat, order)
  {
    order := [];
    if chat.team.Some? {
      order := AnyMemberOrder(dir, chat.team.value);
    }
  }

  /** What is left of a job once its message has been placed. */
  lemma CompletedIngest(dir: Directory, d: Desk, msg: Incoming, p: Picks, now: int)
    requires Accepts(dir, msg, p)
    requires forall m :: 0 <= m < |d.messages| ==> d.messages[m].ticket < |d.tickets|
    requires forall t :: 0 <= t < |d.tickets| ==> d.tickets[t].chat < |dir.chats|
    ensures var placed, t, r := Place(dir, d, msg, p, now), Target(dir, d, p, now), Resolved(dir, msg);
      var recorded := Record(placed, t, msg, RepliedRow(dir, d, p, now), now);
      && t < |placed.tickets| && placed.tickets[t].chat < |r.chats|
      && IngestDesk(dir, d, msg, p, now, Complete) ==
         if DecisionFor(dir, d, p, now).CreateNew? && !HasRow(placed.messages, t, msg.tgId)
         then AckJob(AckRow(recorded, t, p.doneAt), t, |recorded.messages|, r.chats[placed.tickets[t].chat].telegramId, msg.tgId)
         else recorded
  {
    if DecisionFor(dir, d, p, now).CreateNew? {
      assert Place(dir, d, msg, p, now).messages == d.messages;
      assert !HasRow(d.messages, |d.tickets|, msg.tgId);
    }
  }
}
