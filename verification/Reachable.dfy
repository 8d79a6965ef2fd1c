/** The invariants of every reachable state, and what they mean. */
module Reachable {
  import opened Types
  import opened DirectorySpec
  import opened ThreadGrouping
  import opened DeskSpec
  import opened DeskInvariants
  import opened DeskKeeps
  import opened Engine

  ghost predicate Inv(db: Db) {
    0 < db.clock && DirInv(db.dir) && DeskInv(db.desk, db.clock) && Membership(db.dir, db.desk)
  }

  // ---------- Directory ----------

  lemma ResolvedKeeps(dir: Directory, msg: Incoming)
    requires DirInv(dir)
    ensures DirInv(Resolved(dir, msg)) && Grows(dir, Resolved(dir, msg))
    ensures var r := Resolved(dir, msg);
      && CustomerOf(dir, msg.fromTg) < |r.customers|
      && r.customers[CustomerOf(dir, msg.fromTg)].telegramId == msg.fromTg
  {
    WithChatKeeps(dir, msg.chatTg, msg.chatTitle);
    WithCustomerKeeps(WithChat(dir, msg.chatTg, msg.chatTitle), msg.fromTg, msg.username, msg.name);
  }

  lemma IngestKeepsDir(dir: Directory, msg: Incoming, p: Picks, cut: Cut)
    requires DirInv(dir)
    ensures DirInv(IngestDir(dir, msg, p, cut)) && Grows(dir, IngestDir(dir, msg, p, cut))
  {
    if !Accepts(dir, msg, p) {
      ClassifyKeeps(dir, msg.fromTg, p.excluded);
    } else if cut.AfterChat? {
      WithChatKeeps(dir, msg.chatTg, msg.chatTitle);
    } else {
      ResolvedKeeps(dir, msg);
    }
  }

  lemma MarkKeepsDir(dir: Directory, d: Desk, t: TicketId, author: AgentId)
    requires DirInv(dir)
    ensures DirInv(MarkDir(dir, d, t, author)) && Grows(dir, MarkDir(dir, d, t, author))
  {
    if t < |d.tickets| && d.tickets[t].customer < |dir.customers| {
      BarKeeps(dir, dir.customers[d.tickets[t].customer], author);
    }
  }

  lemma ExcludedStepKeepsDir(dir: Directory, d: Desk, s: Step)
    requires DirInv(dir) && (s.AddExcluded? || s.EditExcluded? || s.DropExcluded? || s.EditChat?)
    ensures DirInv(StepDir(dir, d, s)) && Grows(dir, StepDir(dir, d, s))
  {
    match s
    case AddExcluded(tg, username, about, author) => CreateExcludedKeeps(dir, tg, username, about, author);
    case EditExcluded(e, about, isActive) => UpdateExcludedKeeps(dir, e, about, isActive);
    case DropExcluded(e) => RemoveExcludedKeeps(dir, e);
    case EditChat(c, settings) => SettingsKeep(dir, c, settings);
  }

  lemma StaffStepKeepsDir(dir: Directory, d: Desk, s: Step)
    requires DirInv(dir) && (s.EditAgent? || s.JoinTeam? || s.LeaveTeam?)
    ensures DirInv(StepDir(dir, d, s)) && Grows(dir, StepDir(dir, d, s))
  {
    match s
    case EditAgent(a, isActive) => StaffKeeps(dir, a, isActive, 0);
    case JoinTeam(team, a) => StaffKeeps(dir, a, false, team);
    case LeaveTeam(team, a) => StaffKeeps(dir, a, false, team);
  }

  lemma StepKeepsDir(dir: Directory, d: Desk, s: Step)
    requires DirInv(dir)
    ensures DirInv(StepDir(dir, d, s)) && Grows(dir, StepDir(dir, d, s))
  {
    match s
    case Ingest(msg, p, cut) => IngestKeepsDir(dir, msg, p, cut);
    case MarkNotCustomer(t, author) => MarkKeepsDir(dir, d, t, author);
    case EditAgent(_, _) => StaffStepKeepsDir(dir, d, s);
    case JoinTeam(_, _) => StaffStepKeepsDir(dir, d, s);
    case LeaveTeam(_, _) => StaffStepKeepsDir(dir, d, s);
    case AddExcluded(_, _, _, _) => ExcludedStepKeepsDir(dir, d, s);
    case EditExcluded(_, _, _) => ExcludedStepKeepsDir(dir, d, s);
    case DropExcluded(_) => ExcludedStepKeepsDir(dir, d, s);
    case EditChat(_, _) => ExcludedStepKeepsDir(dir, d, s);
    case _ =>
  }

  // ---------- Ingest ----------

  lemma PlaceKeeps(dir: Directory, d: Desk, msg: Incoming, p: Picks, now: int)
    requires DeskInv(d, now) && 0 < now
    ensures DeskInv(Place(dir, d, msg, p, now), now)
  {
    match DecisionFor(dir, d, p, now)
    case Attach(t, revive, _) => PatchKeeps(d, dir, t, StatusOnly(Open), None, now);
    case CreateNew => CreateKeeps(d, Newborn(dir, d, msg, p, now), now);
  }

  lemma RecordedKeeps(dir: Directory, d: Desk, msg: Incoming, p: Picks, now: int)
    requires DeskInv(d, now) && 0 < now && LegalPicks(dir, d, msg, p, now) && Accepts(dir, msg, p)
    ensures DeskInv(Recorded(dir, d, msg, p, now), now)
  {
    PlaceKeeps(dir, d, msg, p, now);
    RecordKeeps(Place(dir, d, msg, p, now), Target(dir, d, p, now), msg, RepliedRow(dir, d, p, now), now);
  }

  /** The ticket a job has just created holds no rows but the message itself. */
  lemma NewThreadHasNoBot(dir: Directory, d: Desk, msg: Incoming, p: Picks, now: int)
    requires Shape(d) && DecisionFor(dir, d, p, now).CreateNew?
    ensures var r := Recorded(dir, d, msg, p, now);
      && !HasBotRow(r.messages, |d.tickets|)
      && r.messages == d.messages + [InboundRow(|d.tickets|, msg, now)]
  {
    assert !HasRow(d.messages, |d.tickets|, msg.tgId);
  }

  /** The acknowledgement of a thread the job has just created. */
  lemma AckedKeeps(dir: Directory, d: Desk, msg: Incoming, p: Picks, now: int, recorded: Desk)
    requires Shape(d) && DecisionFor(dir, d, p, now).CreateNew?
    requires recorded == Recorded(dir, d, msg, p, now) && DeskInv(recorded, p.doneAt) && 0 < p.doneAt
    ensures var t := |d.tickets|;
      && DeskInv(AckRow(recorded, t, p.doneAt), p.doneAt)
      && DeskInv(AckJob(AckRow(recorded, t, p.doneAt), t, |recorded.messages|, msg.chatTg, msg.tgId), p.doneAt)
  {
    var t := |d.tickets|;
    NewThreadHasNoBot(dir, d, msg, p, now);
    AckRowKeeps(recorded, t, p.doneAt);
    AckJobKeeps(AckRow(recorded, t, p.doneAt), t, |recorded.messages|, msg.chatTg, msg.tgId, p.doneAt);
  }

  /** Where an ingest job can leave the desk. */
  lemma IngestCases(dir: Directory, d: Desk, msg: Incoming, p: Picks, now: int, cut: Cut)
    ensures var e, recorded, t := IngestDesk(dir, d, msg, p, now, cut), Recorded(dir, d, msg, p, now), |d.tickets|;
      || (e == d && (!Accepts(dir, msg, p) || cut.Rank() < 3))
      || (Accepts(dir, msg, p) && (e == Place(dir, d, msg, p, now) || e == recorded))
      || (&& Accepts(dir, msg, p) && DecisionFor(dir, d, p, now).CreateNew?
          && (|| e == AckRow(recorded, t, p.doneAt)
              || e == AckJob(AckRow(recorded, t, p.doneAt), t, |recorded.messages|, msg.chatTg, msg.tgId)))
  {
  }

  lemma IngestKeeps(dir: Directory, d: Desk, msg: Incoming, p: Picks, now: int, cut: Cut)
    requires DeskInv(d, now) && 0 < now && LegalPicks(dir, d, msg, p, now)
    ensures DeskInv(IngestDesk(dir, d, msg, p, now, cut), p.doneAt)
  {
    var placed, recorded := Place(dir, d, msg, p, now), Recorded(dir, d, msg, p, now);
    Later(d, now, p.doneAt);
    if Accepts(dir, msg, p) {
      PlaceKeeps(dir, d, msg, p, now);
      Later(placed, now, p.doneAt);
      RecordedKeeps(dir, d, msg, p, now);
      Later(recorded, now, p.doneAt);
      if DecisionFor(dir, d, p, now).CreateNew? {
        AckedKeeps(dir, d, msg, p, now, recorded);
      }
    }
    IngestCases(dir, d, msg, p, now, cut);
  }

  // ---------- Membership ----------

  /** Every row is of a ticket, and provenance is kept of rows only. */
  ghost predicate Placed(d: Desk) {
    && (forall m :: 0 <= m < |d.messages| ==> d.messages[m].ticket < |d.tickets|)
    && (forall m :: m in d.past.arrivals ==> m < |d.messages|)
  }

  lemma InvIsPlaced(d: Desk, clock: int)
    requires DeskInv(d, clock)
    ensures Placed(d)
  {
  }

  /** Steps that record nothing, on a directory that only grew. */
  lemma MembershipFrame(dir: Directory, d: Desk, dir': Directory, e: Desk)
    requires Membership(dir, d) && Grows(dir, dir') && Placed(d)
    requires e.past.arrivals == d.past.arrivals && |d.messages| <= |e.messages| && |d.tickets| <= |e.tickets|
    requires forall m :: 0 <= m < |d.messages| ==> e.messages[m].ticket == d.messages[m].ticket
    requires forall i :: 0 <= i < |d.tickets| ==> SameIdentity(d.tickets[i], e.tickets[i])
    requires forall i :: |d.tickets| <= i < |e.tickets| ==>
      e.tickets[i].chat < |dir'.chats| && e.tickets[i].customer < |dir'.customers|
    ensures Membership(dir', e)
  {
    forall m: MessageId | m < |e.messages| && m in e.past.arrivals && e.messages[m].ticket < |e.tickets|
      ensures Belongs(dir', e, m)
    {
      assert Belongs(dir, d, m);
    }
  }

  lemma RecordMembership(dir: Directory, d: Desk, t: TicketId, msg: Incoming, replied: Option<MessageId>, now: int)
    requires Membership(dir, d) && Placed(d) && t < |d.tickets|
    requires dir.chats[d.tickets[t].chat].telegramId == msg.chatTg
    requires dir.customers[d.tickets[t].customer].telegramId == msg.fromTg || replied.Some?
    ensures Membership(dir, Record(d, t, msg, replied, now)) && Placed(Record(d, t, msg, replied, now))
  {
    var e := Record(d, t, msg, replied, now);
    forall m: MessageId | m < |e.messages| && m in e.past.arrivals && e.messages[m].ticket < |e.tickets|
      ensures Belongs(dir, e, m)
    {
      if m < |d.messages| {
        assert Belongs(dir, d, m);
      }
    }
  }

  /** What placing a message leaves alone. */
  lemma PlaceFrame(dir: Directory, d: Desk, msg: Incoming, p: Picks, now: int)
    ensures var e := Place(dir, d, msg, p, now);
      && e.messages == d.messages && e.past.arrivals == d.past.arrivals
      && |d.tickets| <= |e.tickets| <= |d.tickets| + 1
      && (forall i :: 0 <= i < |d.tickets| ==> SameIdentity(d.tickets[i], e.tickets[i]))
      && (|d.tickets| < |e.tickets| ==>
            e.tickets[|d.tickets|].chat == ChatOf(dir, msg.chatTg) && e.tickets[|d.tickets|].customer == CustomerOf(dir, msg.fromTg))
  {
  }

  lemma PlaceMembership(dir: Directory, d: Desk, msg: Incoming, p: Picks, now: int)
    requires DirInv(dir) && Placed(d) && Membership(dir, d)
    ensures Membership(Resolved(dir, msg), Place(dir, d, msg, p, now)) && Placed(Place(dir, d, msg, p, now))
  {
    ResolvedKeeps(dir, msg);
    PlaceFrame(dir, d, msg, p, now);
    MembershipFrame(dir, d, Resolved(dir, msg), Place(dir, d, msg, p, now));
  }

  /** The ticket a message is placed on is of its chat, and its sender's unless it was found by reply. */
  lemma TargetBelongs(dir: Directory, d: Desk, msg: Incoming, p: Picks, now: int)
    requires DirInv(dir) && LegalPicks(dir, d, msg, p, now) && Accepts(dir, msg, p)
    requires Membership(dir, d)
    ensures var t, r := Place(dir, d, msg, p, now).tickets[Target(dir, d, p, now)], Resolved(dir, msg);
      && t.chat < |r.chats| && r.chats[t.chat].telegramId == msg.chatTg
      && t.customer < |r.customers|
      && (r.customers[t.customer].telegramId == msg.fromTg || RepliedRow(dir, d, p, now).Some?)
    ensures var replied := RepliedRow(dir, d, p, now);
      replied.Some? ==> replied.value < |d.messages| && d.messages[replied.value].ticket == Target(dir, d, p, now)
                        && d.messages[replied.value].tgId == msg.replyTo
  {
    ResolvedKeeps(dir, msg);
    var chat, customer := ChatOf(dir, msg.chatTg), CustomerOf(dir, msg.fromTg);
    match DecisionFor(dir, d, p, now)
    case Attach(t, revive, _) =>
      AttachMeaning(d, chat, customer, msg.replyTo, dir.idleMinutes, now, p.anchor, p.active);
      assert SameIdentity(d.tickets[t], Place(dir, d, msg, p, now).tickets[t]);
      assert chat < |dir.chats| && (FindChat(dir.chats, msg.chatTg).Some?);
    case CreateNew =>
  }

  lemma RecordedMembership(dir: Directory, d: Desk, msg: Incoming, p: Picks, now: int)
    requires DirInv(dir) && Placed(d) && LegalPicks(dir, d, msg, p, now) && Accepts(dir, msg, p)
    requires Membership(dir, d)
    ensures Membership(Resolved(dir, msg), Recorded(dir, d, msg, p, now)) && Placed(Recorded(dir, d, msg, p, now))
  {
    PlaceMembership(dir, d, msg, p, now);
    TargetBelongs(dir, d, msg, p, now);
    RecordMembership(Resolved(dir, msg), Place(dir, d, msg, p, now), Target(dir, d, p, now), msg,
                     RepliedRow(dir, d, p, now), now);
  }

  /** The acknowledgement adds a row and a job, and touches nothing else. */
  lemma AckMembership(dir: Directory, d: Desk, e: Desk)
    requires Membership(dir, d) && Placed(d)
    requires e.tickets == d.tickets && d.messages <= e.messages && e.past.arrivals == d.past.arrivals
    ensures Membership(dir, e)
  {
    MembershipFrame(dir, d, dir, e);
  }

  lemma IngestMembership(dir: Directory, d: Desk, msg: Incoming, p: Picks, now: int, cut: Cut)
    requires DirInv(dir) && Placed(d) && LegalPicks(dir, d, msg, p, now)
    requires Membership(dir, d)
    ensures Membership(IngestDir(dir, msg, p, cut), IngestDesk(dir, d, msg, p, now, cut))
  {
    if !Accepts(dir, msg, p) || cut.Rank() < 3 {
      IngestKeepsDir(dir, msg, p, cut);
      MembershipFrame(dir, d, IngestDir(dir, msg, p, cut), d);
    } else if cut.AfterTicket? {
      PlaceMembership(dir, d, msg, p, now);
    } else {
      RecordedMembership(dir, d, msg, p, now);
      AckMembership(Resolved(dir, msg), Recorded(dir, d, msg, p, now), IngestDesk(dir, d, msg, p, now, cut));
    }
  }

  // ---------- Every step, every run ----------

  lemma TicketStepKeeps(dir: Directory, d: Desk, now: int, s: Step)
    requires DeskInv(d, now) && 0 < now
    requires s.PatchTicket? || s.AssignTicket? || s.MarkNotCustomer?
    ensures DeskInv(StepDesk(dir, d, now, s), now)
  {
    match s
    case PatchTicket(t, dto, author) => PatchKeeps(d, dir, t, dto, Some(author), now);
    case AssignTicket(t, agent, author, reason) => AssignKeeps(d, dir, t, agent, author, reason, now);
    case MarkNotCustomer(t, author) => MarkClosedKeeps(d, dir, t, author, now);
  }

  lemma OtherStepKeeps(dir: Directory, d: Desk, now: int, s: Step)
    requires DeskInv(d, now) && 0 < now
    requires !s.Ingest? && !s.PatchTicket? && !s.AssignTicket? && !s.MarkNotCustomer?
    ensures DeskInv(StepDesk(dir, d, now, s), now)
  {
    match s
    case ReplyTo(t, agent, text, mode, latest) => ReplyKeeps(d, dir, t, agent, text, mode, latest, now);
    case ConfirmSent(job, tg) =>
      if job < |d.outbox| {
        assert JobFits(d, d.outbox[job]);
        ConfirmKeeps(d, d.outbox[job].message, tg, now);
      }
    case _ =>
  }

  lemma StepKeepsDesk(db: Db, ts: Timed)
    requires DeskInv(db.desk, db.clock) && 0 < db.clock && Legal(db, ts)
    ensures DeskInv(StepDesk(db.dir, db.desk, ts.now, ts.step), EndOf(ts))
  {
    Later(db.desk, db.clock, ts.now);
    if ts.step.Ingest? {
      IngestKeeps(db.dir, db.desk, ts.step.msg, ts.step.picks, ts.now, ts.step.cut);
    } else if ts.step.PatchTicket? || ts.step.AssignTicket? || ts.step.MarkNotCustomer? {
      TicketStepKeeps(db.dir, db.desk, ts.now, ts.step);
    } else {
      OtherStepKeeps(db.dir, db.desk, ts.now, ts.step);
    }
  }

  /** Steps other than ingest record nothing and move no ticket. */
  lemma OtherStepFrame(dir: Directory, d: Desk, now: int, s: Step)
    requires !s.Ingest?
    ensures var e := StepDesk(dir, d, now, s);
      && e.past.arrivals == d.past.arrivals && |d.messages| <= |e.messages| && |d.tickets| == |e.tickets|
      && (forall m :: 0 <= m < |d.messages| ==> e.messages[m].ticket == d.messages[m].ticket)
      && (forall i :: 0 <= i < |d.tickets| ==> SameIdentity(d.tickets[i], e.tickets[i]))
  {
  }

  lemma StepKeepsMembership(db: Db, ts: Timed)
    requires DirInv(db.dir) && Placed(db.desk) && Membership(db.dir, db.desk) && Legal(db, ts)
    ensures Membership(StepDir(db.dir, db.desk, ts.step), StepDesk(db.dir, db.desk, ts.now, ts.step))
  {
    if ts.step.Ingest? {
      IngestMembership(db.dir, db.desk, ts.step.msg, ts.step.picks, ts.now, ts.step.cut);
    } else {
      StepKeepsDir(db.dir, db.desk, ts.step);
      OtherStepFrame(db.dir, db.desk, ts.now, ts.step);
      MembershipFrame(db.dir, db.desk, StepDir(db.dir, db.desk, ts.step), StepDesk(db.dir, db.desk, ts.now, ts.step));
    }
  }

  lemma StepKeepsInv(db: Db, ts: Timed)
    requires Inv(db) && Legal(db, ts)
    ensures Inv(Apply(db, ts))
  {
    StepKeepsDir(db.dir, db.desk, ts.step);
    StepKeepsDesk(db, ts);
    InvIsPlaced(db.desk, db.clock);
    StepKeepsMembership(db, ts);
  }

  lemma {:induction false} RunKeepsInv(db: Db, run: seq<Timed>)
    requires Inv(db) && LegalRun(db, run)
    ensures Inv(Exec(db, run))
    decreases |run|
  {
    if run != [] {
      StepKeepsInv(db, run[0]);
      RunKeepsInv(Apply(db, run[0]), run[1..]);
    }
  }

  lemma InitialInv(db: Db)
    requires Initial(db)
    ensures Inv(db)
  {
  }
}
