/** What holds in every reachable state of the desk, for every run of service calls, crashed
    ingest jobs included. */
module RunProperties {
  import opened Types
  import opened DirectorySpec
  import opened ThreadGrouping
  import opened DeskSpec
  import opened DeskInvariants
  import opened DeskKeeps
  import opened Engine
  import opened Reachable

  // ---------- Conversation ----------

  /** The client pointer is the latest inbound message, or the anchor before any was recorded. */
  lemma ClientPointer(db: Db, run: seq<Timed>)
    requires Initial(db) && LegalRun(db, run)
    ensures var d := Exec(db, run).desk;
      forall i :: 0 <= i < |d.tickets| ==>
        && (forall m :: LatestInbound(d.messages, i, m) ==> d.tickets[i].lastClient == d.messages[m].tgId)
        && (NoInbound(d.messages, i) ==> d.tickets[i].lastClient == Some(d.tickets[i].anchor))
  {
    InitialInv(db);
    RunKeepsInv(db, run);
  }

  /** No ticket is ever acknowledged twice. */
  lemma AcknowledgedOnce(db: Db, run: seq<Timed>)
    requires Initial(db) && LegalRun(db, run)
    ensures var d := Exec(db, run).desk;
      forall m, n :: 0 <= m < n < |d.messages| && d.messages[m].ticket == d.messages[n].ticket ==>
        !(d.messages[m].sender.FromBot? && d.messages[n].sender.FromBot?)
  {
    InitialInv(db);
    RunKeepsInv(db, run);
  }

  /** Every inbound row came from its ticket's own chat, and was sent by the ticket's customer or
      replied to an earlier row of that same ticket. */
  lemma InboundBelongs(db: Db, run: seq<Timed>)
    requires Initial(db) && LegalRun(db, run)
    ensures var s := Exec(db, run);
      forall m: MessageId | m < |s.desk.messages| && s.desk.messages[m].direction.In? ::
        && m in s.desk.past.arrivals && s.desk.messages[m].ticket < |s.desk.tickets|
        && var t, a := s.desk.tickets[s.desk.messages[m].ticket], s.desk.past.arrivals[m];
           && t.chat < |s.dir.chats| && s.dir.chats[t.chat].telegramId == a.incoming.chatTg
           && t.customer < |s.dir.customers|
           && s.desk.messages[m].tgId == Some(a.incoming.tgId)
           && (s.dir.customers[t.customer].telegramId != a.incoming.fromTg ==> (
                && a.repliedRow.Some? && a.repliedRow.value < m
                && s.desk.messages[a.repliedRow.value].ticket == s.desk.messages[m].ticket))
  {
    InitialInv(db);
    RunKeepsInv(db, run);
    var s := Exec(db, run);
    forall m: MessageId | m < |s.desk.messages| && s.desk.messages[m].direction.In?
      ensures ArrivalFits(s.desk, m) && Belongs(s.dir, s.desk, m)
    {
    }
  }

  // ---------- Threads ----------

  /** Whenever a ticket is created, every earlier ticket of the same chat and customer is at that
      moment closed, archived, or idle for at least the window. */
  lemma ThreadsAreSeparate(db: Db, ts: Timed, i: TicketId, j: TicketId)
    requires Legal(db, ts)
    requires var d := Apply(db, ts).desk;
      |db.desk.tickets| <= i < |d.tickets| && j < i
      && d.tickets[j].chat == d.tickets[i].chat && d.tickets[j].customer == d.tickets[i].customer
    ensures j < |db.desk.tickets|
    ensures var t := db.desk.tickets[j];
      t.status.Terminal() || ts.now - t.updatedAt >= db.dir.idleMinutes * MINUTE
  {
    GrowthIsCreation(db, ts);
    var msg, p := ts.step.msg, ts.step.picks;
    CreatesIff(db.desk, ChatOf(db.dir, msg.chatTg), CustomerOf(db.dir, msg.fromTg), msg.replyTo,
               db.dir.idleMinutes, ts.now, p.anchor, p.active);
  }

  /** Only an ingest that found no thread adds a ticket, just one, of the message's chat and sender. */
  lemma GrowthIsCreation(db: Db, ts: Timed)
    ensures var d, e := db.desk, Apply(db, ts).desk;
      |e.tickets| > |d.tickets| ==>
        && ts.step.Ingest? && Accepts(db.dir, ts.step.msg, ts.step.picks)
        && DecisionFor(db.dir, d, ts.step.picks, ts.now).CreateNew?
        && |e.tickets| == |d.tickets| + 1
        && e.tickets[|d.tickets|].chat == ChatOf(db.dir, ts.step.msg.chatTg)
        && e.tickets[|d.tickets|].customer == CustomerOf(db.dir, ts.step.msg.fromTg)
    ensures forall i :: 0 <= i < |db.desk.tickets| ==>
      i < |Apply(db, ts).desk.tickets| && SameIdentity(db.desk.tickets[i], Apply(db, ts).desk.tickets[i])
  {
    if ts.step.Ingest? {
      IngestCases(db.dir, db.desk, ts.step.msg, ts.step.picks, ts.now, ts.step.cut);
      PlaceFrame(db.dir, db.desk, ts.step.msg, ts.step.picks, ts.now);
    } else {
      OtherStepFrame(db.dir, db.desk, ts.now, ts.step);
    }
  }

  /** Terminal tickets, their rows and their log are as before; what is new belongs to others. */
  ghost predicate Respects(d: Desk, e: Desk) {
    && |d.tickets| <= |e.tickets| && d.messages <= e.messages && d.events <= e.events
    && (forall i :: 0 <= i < |d.tickets| && d.tickets[i].status.Terminal() ==> e.tickets[i] == d.tickets[i])
    && (forall m :: |d.messages| <= m < |e.messages| ==> NotTerminal(d, e.messages[m].ticket))
    && (forall k :: |d.events| <= k < |e.events| ==> NotTerminal(d, e.events[k].ticket))
  }

  ghost predicate NotTerminal(d: Desk, t: TicketId) {
    t < |d.tickets| ==> !d.tickets[t].status.Terminal()
  }

  lemma PlaceRespects(dir: Directory, d: Desk, msg: Incoming, p: Picks, now: int)
    ensures var e, t := Place(dir, d, msg, p, now), Target(dir, d, p, now);
      && Respects(d, e) && e.messages == d.messages
      && t < |e.tickets| && e.tickets[t].status.Open? && NotTerminal(d, t)
  {
  }

  lemma RecordedRespects(dir: Directory, d: Desk, msg: Incoming, p: Picks, now: int)
    ensures var e, t := Recorded(dir, d, msg, p, now), Target(dir, d, p, now);
      && Respects(d, e) && t < |e.tickets| && e.tickets[t].status.Open? && NotTerminal(d, t)
      && (forall m :: |d.messages| <= m < |e.messages| ==> e.messages[m].ticket == t)
  {
    PlaceRespects(dir, d, msg, p, now);
  }

  /** Ingest leaves terminal tickets, their rows and their log alone, and a ticket that gains a
      row is open afterwards. */
  lemma IngestRespectsTerminal(db: Db, ts: Timed)
    requires ts.step.Ingest?
    ensures var d, e := db.desk, Apply(db, ts).desk;
      && Respects(d, e)
      && forall m :: |d.messages| <= m < |e.messages| ==>
           e.messages[m].ticket < |e.tickets| && e.tickets[e.messages[m].ticket].status.Open?
  {
    var dir, d, msg, p, now := db.dir, db.desk, ts.step.msg, ts.step.picks, ts.now;
    PlaceRespects(dir, d, msg, p, now);
    RecordedRespects(dir, d, msg, p, now);
    IngestCases(dir, d, msg, p, now, ts.step.cut);
  }

  // ---------- Lifecycle ----------

  /** Terminal and resolution stamps are present, the first response is stamped exactly when an
      agent has answered, and no stamp precedes the ticket's creation. */
  lemma LifecycleStamps(db: Db, run: seq<Timed>)
    requires Initial(db) && LegalRun(db, run)
    ensures var d := Exec(db, run).desk;
      forall i :: 0 <= i < |d.tickets| ==>
        var t := d.tickets[i];
        && (t.status.Closed? ==> t.closedAt.Some? && t.closedBy.Some?)
        && (t.status.Solved? ==> t.resolvedAt.Some?)
        && (t.firstResponseAt.Some? <==> HasAgentRow(d.messages, i))
        && (t.firstResponseAt.Some? ==> t.createdAt <= t.firstResponseAt.value)
        && (t.resolvedAt.Some? ==> t.createdAt <= t.resolvedAt.value)
        && (t.closedAt.Some? ==> t.createdAt <= t.closedAt.value)
  {
    InitialInv(db);
    RunKeepsInv(db, run);
  }

  ghost predicate KeepsResponse(d: Desk, e: Desk, i: TicketId) {
    && i < |d.tickets| && i < |e.tickets|
    && (d.tickets[i].firstResponseAt.Some? ==> e.tickets[i].firstResponseAt == d.tickets[i].firstResponseAt)
  }

  lemma StepKeepsFirstResponse(db: Db, ts: Timed, i: TicketId)
    requires i < |db.desk.tickets|
    ensures KeepsResponse(db.desk, Apply(db, ts).desk, i)
  {
    if ts.step.Ingest? {
      var placed := Place(db.dir, db.desk, ts.step.msg, ts.step.picks, ts.now);
      assert KeepsResponse(db.desk, placed, i);
      assert KeepsResponse(db.desk, Recorded(db.dir, db.desk, ts.step.msg, ts.step.picks, ts.now), i);
    }
  }

  /** The first response, once stamped, never changes. */
  lemma {:induction false} FirstResponseSticks(db: Db, run: seq<Timed>, i: TicketId)
    requires i < |db.desk.tickets| && db.desk.tickets[i].firstResponseAt.Some?
    ensures var d := Exec(db, run).desk;
      i < |d.tickets| && d.tickets[i].firstResponseAt == db.desk.tickets[i].firstResponseAt
    decreases |run|
  {
    if run != [] {
      StepKeepsFirstResponse(db, run[0], i);
      FirstResponseSticks(Apply(db, run[0]), run[1..], i);
    }
  }

  // ---------- The audit log ----------

  /** Folding the log over the creation state gives the present priority, assignee, team, labels,
      snooze and Jira key; and the status too, exactly when mark-not-customer has not closed the
      ticket since its last logged status, or that status was closed anyway. */
  ghost predicate LogTellsTicket(d: Desk, i: TicketId)
    requires i < |d.tickets| && i < |d.past.born|
  {
    var t, r := d.tickets[i], Replay(d.past.born[i], i, d.events);
    && r.priority == t.priority && r.assignee == t.assignee && r.team == t.team
    && r.labels == t.labels && r.snoozeUntil == t.snoozeUntil && r.jira == t.jira
    && (r.status == t.status <==> i !in d.past.unlogged || r.status.Closed?)
  }

  /** An assignment entry names the assignee that the log had reached when it was written. */
  ghost predicate LogTellsPrevious(d: Desk, k: nat)
    requires k < |d.events|
  {
    d.events[k].change.Assigned? ==>
      var t := d.events[k].ticket;
      t < |d.past.born| && d.events[k].change.previous == Replay(d.past.born[t], t, d.events[..k]).assignee
  }

  lemma AuditMeaning(d: Desk)
    requires AuditTrail(d)
    ensures forall i: TicketId :: i < |d.tickets| ==> LogTellsTicket(d, i)
    ensures forall k: nat :: k < |d.events| ==> LogTellsPrevious(d, k)
  {
    forall k: nat | k < |d.events|
      ensures LogTellsPrevious(d, k)
    {
      assert PreviousFits(d, k);
    }
  }

  /** In every reachable state the event log is a faithful record of every ticket. */
  lemma AuditReplay(db: Db, run: seq<Timed>)
    requires Initial(db) && LegalRun(db, run)
    ensures var d := Exec(db, run).desk;
      && |d.past.born| == |d.tickets|
      && (forall i: TicketId :: i < |d.tickets| ==> LogTellsTicket(d, i))
      && (forall k: nat :: k < |d.events| ==> LogTellsPrevious(d, k))
  {
    InitialInv(db);
    RunKeepsInv(db, run);
    AuditMeaning(Exec(db, run).desk);
  }

  /** Mark-not-customer on a ticket whose log is true leaves it true exactly when the ticket was
      already closed. */
  lemma MarkBreaksStatus(d: Desk, dir: Directory, t: TicketId, author: AgentId, now: int)
    requires DeskInv(d, now) && 0 < now && t < |d.tickets| && author < |dir.agents|
    requires Replay(d.past.born[t], t, d.events).status == d.tickets[t].status
    ensures var e := MarkClosed(d, dir, t, author, now);
      Replay(e.past.born[t], t, e.events).status == e.tickets[t].status <==> d.tickets[t].status.Closed?
  {
  }

  /** One open ticket, marked: closed in its row, open in its log. */
  lemma MarkLosesStatus(dir: Directory)
    requires |dir.agents| == 1
    ensures var d := Create(EMPTY_DESK, NewTicket(0, 0, 7, Normal, None, None, 1));
      var e := MarkClosed(d, dir, 0, 0, 2);
      e.tickets[0].status.Closed? && Replay(e.past.born[0], 0, e.events).status.Open?
  {
  }

  // ---------- Exclusion ----------

  /** The step neither deactivates nor removes the record that bars the sender. */
  predicate Spares(dir: Directory, s: Step, tg: int) {
    match s
    case EditExcluded(e, _, switch) =>
      switch != Some(false) || e !in dir.excluded || dir.excluded[e].telegramId != Some(tg)
    case DropExcluded(e) => e !in dir.excluded || dir.excluded[e].telegramId != Some(tg)
    case _ => true
  }

  predicate RunSpares(db: Db, run: seq<Timed>, tg: int)
    decreases |run|
  {
    run == [] || (Spares(db.dir, run[0].step, tg) && RunSpares(Apply(db, run[0]), run[1..], tg))
  }

  lemma StepKeepsBar(dir: Directory, d: Desk, s: Step, tg: int)
    requires DirInv(dir) && Barred(dir.excluded, tg) && Spares(dir, s, tg)
    requires s.Ingest? ==> IsUsernamePick(dir.excluded, s.msg.username, s.picks.excluded)
    ensures Barred(StepDir(dir, d, s).excluded, tg)
  {
    var e :| e in dir.excluded && dir.excluded[e].telegramId == Some(tg) && dir.excluded[e].isActive;
    assert e in StepDir(dir, d, s).excluded;
    assert StepDir(dir, d, s).excluded[e].telegramId == Some(tg) && StepDir(dir, d, s).excluded[e].isActive;
  }

  /** Until an administrator touches the record, every message of a barred sender, under any
      username and to any chat, changes nothing. */
  lemma {:induction false} ExclusionPersists(db: Db, run: seq<Timed>, tg: int, late: Timed)
    requires DirInv(db.dir) && Barred(db.dir.excluded, tg)
    requires LegalRun(db, run) && RunSpares(db, run, tg)
    requires late.step.Ingest? && late.step.msg.fromTg == tg
    ensures var s := Exec(db, run);
      Apply(s, late) == s.(clock := late.step.picks.doneAt)
    decreases |run|
  {
    if run == [] {
      BarredIsIgnored(db.dir, tg, late.step.picks.excluded);
    } else {
      StepKeepsBar(db.dir, db.desk, run[0].step, tg);
      StepKeepsDir(db.dir, db.desk, run[0].step);
      ExclusionPersists(Apply(db, run[0]), run[1..], tg, late);
    }
  }

  /** Mark-not-customer bars the ticket's customer, and so does a message whose sender is
      recognised by username. */
  lemma WhatBars(db: Db, t: TicketId, author: AgentId, now: int, msg: Incoming, p: Picks, cut: Cut)
    requires Inv(db) && t < |db.desk.tickets| && author < |db.dir.agents|
    requires IsUsernamePick(db.dir.excluded, msg.username, p.excluded)
    ensures Barred(Apply(db, Timed(now, MarkNotCustomer(t, author))).dir.excluded,
                   db.dir.customers[db.desk.tickets[t].customer].telegramId)
    ensures Classify(db.dir, msg.fromTg, p.excluded).FromExcluded? ==>
      Barred(Apply(db, Timed(now, Ingest(msg, p, cut))).dir.excluded, msg.fromTg)
  {
    var customer := db.dir.customers[db.desk.tickets[t].customer];
    BarKeeps(db.dir, customer, author);
    if Classify(db.dir, msg.fromTg, p.excluded).FromExcluded? {
      BackfillBars(db.dir, msg.fromTg, p.excluded, msg.username);
    }
  }
}
