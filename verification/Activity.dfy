/** When a ticket counts as touched, which its idle window and its place in the list hang on. */
module Activity {
  import opened Types
  import opened DirectorySpec
  import opened ThreadGrouping
  import opened DeskSpec
  import opened Engine
  import opened Reachable
  import opened Redelivery

  // ---------- The law of the column ----------

  /** A request the desk carries out names this ticket. */
  predicate RequestTouches(db: Db, s: Step, i: TicketId) {
    match s
    case PatchTicket(t, dto, author) => t == i && PatchOk(db.desk, db.dir, t, dto, Some(author))
    case AssignTicket(t, agent, author, _) => t == i < |db.desk.tickets| && agent < |db.dir.agents| && author < |db.dir.agents|
    case MarkNotCustomer(t, author) => t == i < |db.desk.tickets| && author < |db.dir.agents|
    case ReplyTo(t, agent, _, _, _) =>
      t == i && ReplyOk(db.desk, db.dir, t, agent) && db.desk.tickets[t].firstResponseAt.None?
    case _ => false
  }

  /** A message comes to this ticket: it is revived, or gets a row it did not have. */
  predicate MessageTouches(db: Db, ts: Timed, i: TicketId) {
    && ts.step.Ingest? && Accepts(db.dir, ts.step.msg, ts.step.picks) && ts.step.cut.Rank() >= 3
    && var r := DecisionFor(db.dir, db.desk, ts.step.picks, ts.now);
       r.Attach? && r.ticket == i && (r.revive || (ts.step.cut.Rank() >= 4 && !HasRow(db.desk.messages, i, ts.step.msg.tgId)))
  }

  /** A row that was touched has the time of the step, even if nothing else in it changed; every
      other row is exactly as it was. Patches, assignments and mark-not-customer touch; an
      acknowledgement, a later reply of an agent or the confirmation of a send do not. */
  lemma UpdateTimes(db: Db, ts: Timed, i: TicketId)
    requires i < |db.desk.tickets|
    ensures i < |Apply(db, ts).desk.tickets|
    ensures var t, u := db.desk.tickets[i], Apply(db, ts).desk.tickets[i];
      if RequestTouches(db, ts.step, i) || MessageTouches(db, ts, i) then u.updatedAt == ts.now else u == t
  {
    if ts.step.Ingest? {
      IngestTimes(db.dir, db.desk, ts.step.msg, ts.step.picks, ts.now, ts.step.cut, i);
    } else {
      RequestTimes(db, ts, i);
    }
  }

  lemma RequestTimes(db: Db, ts: Timed, i: TicketId)
    requires i < |db.desk.tickets| && !ts.step.Ingest?
    ensures var e := StepDesk(db.dir, db.desk, ts.now, ts.step);
      && |e.tickets| == |db.desk.tickets|
      && if RequestTouches(db, ts.step, i) then e.tickets[i].updatedAt == ts.now else e.tickets[i] == db.desk.tickets[i]
  {
  }

  lemma IngestTimes(dir: Directory, d: Desk, msg: Incoming, p: Picks, now: int, cut: Cut, i: TicketId)
    requires i < |d.tickets|
    ensures var e, r := IngestDesk(dir, d, msg, p, now, cut), DecisionFor(dir, d, p, now);
      && |d.tickets| <= |e.tickets|
      && if Accepts(dir, msg, p) && cut.Rank() >= 3 && r.Attach? && r.ticket == i
            && (r.revive || (cut.Rank() >= 4 && !HasRow(d.messages, i, msg.tgId)))
         then e.tickets[i].updatedAt == now else e.tickets[i] == d.tickets[i]
  {
    assert Place(dir, d, msg, p, now).messages == d.messages;
    IngestCases(dir, d, msg, p, now, cut);
  }

  // ---------- A request keeps the thread ----------

  /** An agent's patch or assignment of a ticket was carried out and left the ticket live. */
  predicate Keeps(db: Db, ts: Timed, t: TicketId) {
    && (ts.step.PatchTicket? || ts.step.AssignTicket?) && RequestTouches(db, ts.step, t)
    && t < |Apply(db, ts).desk.tickets| && !Apply(db, ts).desk.tickets[t].status.Terminal()
  }

  /** The message is by the ticket's customer, in its chat, and replies to nothing. */
  predicate PlainFrom(dir: Directory, t: Ticket, msg: Incoming) {
    && msg.replyTo.None?
    && t.chat < |dir.chats| && dir.chats[t.chat].telegramId == msg.chatTg
    && t.customer < |dir.customers| && dir.customers[t.customer].telegramId == msg.fromTg
  }

  /** The same sender and chat mean the same rows in every later directory. */
  lemma SameParties(dir: Directory, dir': Directory, t: Ticket, msg: Incoming)
    requires DirInv(dir') && Grows(dir, dir') && PlainFrom(dir, t, msg)
    ensures ChatOf(dir', msg.chatTg) == t.chat && CustomerOf(dir', msg.fromTg) == t.customer
    ensures dir'.idleMinutes == dir.idleMinutes
  {
    assert dir'.chats[t.chat].telegramId == msg.chatTg && dir'.customers[t.customer].telegramId == msg.fromTg;
  }

  /** A live ticket of the sender inside the window: the message starts no ticket, and goes to that
      one if every other live ticket of the sender in the chat was touched before it. */
  lemma GoesOn(dir: Directory, d: Desk, msg: Incoming, p: Picks, now: int, t: TicketId)
    requires LegalPicks(dir, d, msg, p, now) && Accepts(dir, msg, p) && msg.replyTo.None?
    requires Candidate(d, ChatOf(dir, msg.chatTg), CustomerOf(dir, msg.fromTg), t)
    requires now - d.tickets[t].updatedAt < dir.idleMinutes * MINUTE
    ensures DecisionFor(dir, d, p, now).Attach?
    ensures AloneLatest(d, ChatOf(dir, msg.chatTg), CustomerOf(dir, msg.fromTg), t, d.tickets[t].updatedAt) ==>
      DecisionFor(dir, d, p, now).ticket == t
  {
    assert p.anchor.None? && p.active.Some?;
  }

  /** An accepted assignment, or patch, of a live ticket keeps its thread going: whatever then
      happens on other chats, a plain message of its customer inside the window from the request
      starts no ticket but is recorded on an old one; on this very one, if every other live ticket
      of the sender in the chat was touched before. */
  lemma RequestKeepsThread(db: Db, request: Timed, t: TicketId, run: seq<Timed>, s: Db, late: Timed)
    requires Inv(db) && Legal(db, request) && Keeps(db, request, t)
    requires LegalRun(Apply(db, request), run) && RunElsewhere(Apply(db, request), run, db.desk.tickets[t].chat)
    requires s == Exec(Apply(db, request), run)
    requires late.step.Ingest? && late.step.cut.Complete? && Legal(s, late) && Accepts(s.dir, late.step.msg, late.step.picks)
    requires PlainFrom(db.dir, db.desk.tickets[t], late.step.msg)
    requires late.now - request.now < db.dir.idleMinutes * MINUTE
    ensures var d, e := s.desk, Apply(s, late).desk;
      && |e.tickets| == |d.tickets| && t < |d.tickets|
      && (exists i: TicketId :: i < |d.tickets| && HasRow(e.messages, i, late.step.msg.tgId))
      && (AloneLatest(d, d.tickets[t].chat, d.tickets[t].customer, t, request.now) ==> HasRow(e.messages, t, late.step.msg.tgId))
  {
    var c, after, msg, p := db.desk.tickets[t].chat, Apply(db, request), late.step.msg, late.step.picks;
    RequestLeaves(db, request, t);
    AfterFirst(db, request, run, c);
    GrowsOn(db.dir, after.dir, s.dir);
    SameParties(db.dir, s.dir, db.desk.tickets[t], msg);
    GoesOn(s.dir, s.desk, msg, p, late.now, t);
    Attaches(s.dir, s.desk, msg, p, late.now);
  }

  lemma RequestLeaves(db: Db, request: Timed, t: TicketId)
    requires Inv(db) && Keeps(db, request, t)
    ensures var e := Apply(db, request);
      && t < |e.desk.tickets| && e.desk.tickets[t].updatedAt == request.now && !e.desk.tickets[t].status.Terminal()
      && e.desk.tickets[t].chat == db.desk.tickets[t].chat && e.desk.tickets[t].customer == db.desk.tickets[t].customer
      && e.dir == db.dir && db.desk.tickets[t].chat < |db.dir.chats|
  {
    UpdateTimes(db, request, t);
  }

  lemma GrowsOn(a: Directory, b: Directory, c: Directory)
    requires a == b && Grows(b, c)
    ensures Grows(a, c)
  {
  }

  lemma Attaches(dir: Directory, d: Desk, msg: Incoming, p: Picks, now: int)
    requires Accepts(dir, msg, p) && DecisionFor(dir, d, p, now).Attach?
    ensures var e := IngestDesk(dir, d, msg, p, now, Complete);
      |e.tickets| == |d.tickets| && HasRow(e.messages, DecisionFor(dir, d, p, now).ticket, msg.tgId)
  {
    var placed, t := Place(dir, d, msg, p, now), DecisionFor(dir, d, p, now).ticket;
    var e := IngestDesk(dir, d, msg, p, now, Complete);
    assert e == Record(placed, t, msg, RepliedRow(dir, d, p, now), now);
    if !HasRow(placed.messages, t, msg.tgId) {
      assert e.messages[|placed.messages|] == InboundRow(t, msg, now);
    }
  }
}
