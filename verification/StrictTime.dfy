/** Runs in which no two writes share a millisecond: lookups by latest time have one answer. */
module StrictTime {
  import opened Types
  import opened ThreadGrouping
  import opened DeskSpec
  import opened DeskInvariants
  import opened Engine
  import opened Reachable

  ghost predicate DistinctTimes(d: Desk) {
    && (forall m, n :: 0 <= m < n < |d.messages| ==> d.messages[m].createdAt < d.messages[n].createdAt)
    && (forall i, j :: 0 <= i < j < |d.tickets| ==> d.tickets[i].updatedAt != d.tickets[j].updatedAt)
  }

  ghost predicate AllBefore(d: Desk, now: int) {
    && (forall m :: 0 <= m < |d.messages| ==> d.messages[m].createdAt < now)
    && (forall i :: 0 <= i < |d.tickets| ==> d.tickets[i].updatedAt < now)
  }

  // ---------- Distinct times ----------

  lemma PlaceKeepsTimes(dir: Directory, d: Desk, msg: Incoming, p: Picks, now: int)
    requires DistinctTimes(d) && AllBefore(d, now)
    ensures var e, t := Place(dir, d, msg, p, now), Target(dir, d, p, now);
      && DistinctTimes(e) && e.messages == d.messages
      && (forall i :: 0 <= i < |e.tickets| && i != t ==> e.tickets[i].updatedAt < now)
      && e.tickets[t].updatedAt <= now
  {
  }

  lemma RecordKeepsTimes(d: Desk, t: TicketId, msg: Incoming, replied: Option<MessageId>, now: int)
    requires DistinctTimes(d) && t < |d.tickets|
    requires forall m :: 0 <= m < |d.messages| ==> d.messages[m].createdAt < now
    requires forall i :: 0 <= i < |d.tickets| && i != t ==> d.tickets[i].updatedAt < now
    ensures DistinctTimes(Record(d, t, msg, replied, now))
    ensures forall m :: 0 <= m < |Record(d, t, msg, replied, now).messages| ==>
      Record(d, t, msg, replied, now).messages[m].createdAt <= now
  {
  }

  lemma AckKeepsTimes(d: Desk, t: TicketId, at: int)
    requires DistinctTimes(d) && forall m :: 0 <= m < |d.messages| ==> d.messages[m].createdAt < at
    ensures DistinctTimes(AckRow(d, t, at))
  {
  }

  lemma IngestKeepsTimes(dir: Directory, d: Desk, msg: Incoming, p: Picks, now: int, cut: Cut)
    requires DistinctTimes(d) && AllBefore(d, now) && now < p.doneAt
    ensures DistinctTimes(IngestDesk(dir, d, msg, p, now, cut))
  {
    IngestCases(dir, d, msg, p, now, cut);
    PlaceKeepsTimes(dir, d, msg, p, now);
    RecordKeepsTimes(Place(dir, d, msg, p, now), Target(dir, d, p, now), msg, RepliedRow(dir, d, p, now), now);
    if DecisionFor(dir, d, p, now).CreateNew? {
      AckKeepsTimes(Recorded(dir, d, msg, p, now), |d.tickets|, p.doneAt);
    }
  }

  lemma OtherStepKeepsTimes(dir: Directory, d: Desk, now: int, s: Step)
    requires DistinctTimes(d) && AllBefore(d, now) && !s.Ingest?
    ensures DistinctTimes(StepDesk(dir, d, now, s))
  {
  }

  lemma StepKeepsTimes(db: Db, ts: Timed)
    requires AllBefore(db.desk, ts.now) && Strict(db, ts) && DistinctTimes(db.desk)
    ensures DistinctTimes(StepDesk(db.dir, db.desk, ts.now, ts.step))
  {
    if ts.step.Ingest? {
      IngestKeepsTimes(db.dir, db.desk, ts.step.msg, ts.step.picks, ts.now, ts.step.cut);
    } else {
      OtherStepKeepsTimes(db.dir, db.desk, ts.now, ts.step);
    }
  }

  lemma InvIsPast(db: Db, now: int)
    requires Inv(db) && db.clock < now
    ensures AllBefore(db.desk, now)
  {
    assert forall i :: 0 <= i < |db.desk.tickets| ==> TicketTimes(db.desk.tickets[i], db.clock);
  }

  /** With distinct times both lookups have exactly one answer. */
  lemma LookupsUnambiguous(d: Desk, chat: ChatId, customer: CustomerId, reply: Option<int>,
                           anchor1: Option<MessageId>, anchor2: Option<MessageId>,
                           active1: Option<TicketId>, active2: Option<TicketId>)
    requires DistinctTimes(d)
    requires IsAnchorPick(d, chat, reply, anchor1) && IsAnchorPick(d, chat, reply, anchor2)
    requires IsActivePick(d, chat, customer, active1) && IsActivePick(d, chat, customer, active2)
    ensures anchor1 == anchor2 && active1 == active2
  {
    if anchor1.Some? && anchor2.Some? {
      assert Carries(d, chat, reply.value, anchor1.value) && Carries(d, chat, reply.value, anchor2.value);
    }
    if active1.Some? && active2.Some? {
      assert Candidate(d, chat, customer, active1.value) && Candidate(d, chat, customer, active2.value);
    }
  }

  // ---------- Whole runs ----------

  ghost predicate StrictInv(db: Db) {
    Inv(db) && DistinctTimes(db.desk)
  }

  lemma {:induction false} StrictRunKeepsInv(db: Db, run: seq<Timed>)
    requires StrictInv(db) && LegalRun(db, run) && StrictRun(db, run)
    ensures StrictInv(Exec(db, run))
    decreases |run|
  {
    if run != [] {
      StepKeepsInv(db, run[0]);
      InvIsPast(db, run[0].now);
      StepKeepsTimes(db, run[0]);
      StrictRunKeepsInv(Apply(db, run[0]), run[1..]);
    }
  }
}
