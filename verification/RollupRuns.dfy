/** Reports built from stored days and a live today agree with counting directly. */
module RollupRuns {
  import opened Types
  import opened Counting
  import opened AnalyticsSpec
  import opened Engine
  import opened Reachable

  // ---------- How steps move the counted times ----------

  /** Since the table was `a`, times were added or moved to `now` or later. */
  ghost predicate StampsMove(a: Stamps, b: Stamps, now: int) {
    && |a| <= |b|
    && (forall i :: 0 <= i < |a| ==> b[i] == a[i] || (b[i].Some? && now <= b[i].value))
    && (forall i :: |a| <= i < |b| ==> b[i].Some? ==> now <= b[i].value)
  }

  /** Times were only added. */
  ghost predicate StampsGrow(a: Stamps, b: Stamps, now: int) {
    StampsMove(a, b, now) && forall i :: 0 <= i < |a| && a[i].Some? ==> b[i] == a[i]
  }

  /** No time of the range was overwritten. */
  ghost predicate RangeKept(a: Stamps, b: Stamps, lo: int, hi: int)
    requires |a| <= |b|
  {
    forall i :: 0 <= i < |a| && StampIn(a[i], lo, hi) ==> b[i] == a[i]
  }

  lemma {:induction false} CountPadded(flags: seq<bool>, more: seq<bool>)
    requires forall i :: 0 <= i < |more| ==> !more[i]
    ensures Count(flags + more) == Count(flags)
  {
    if more == [] {
      assert flags + more == flags;
    } else {
      var n := |more| - 1;
      CountPadded(flags, more[..n]);
      assert flags + more == (flags + more[..n]) + [more[n]];
      CountAppend(flags + more[..n], more[n]);
    }
  }

  /** A past range can only lose times, and loses none exactly when none of its times was
      overwritten. */
  lemma MovesLose(a: Stamps, b: Stamps, lo: int, hi: int, now: int)
    requires StampsMove(a, b, now) && hi <= now
    ensures CountIn(b, lo, hi) <= CountIn(a, lo, hi)
    ensures CountIn(b, lo, hi) == CountIn(a, lo, hi) <==> RangeKept(a, b, lo, hi)
  {
    var fa, fb := InFlags(a, lo, hi), InFlags(b, lo, hi);
    var kept := fb[..|a|];
    assert fb == kept + fb[|a|..];
    CountPadded(kept, fb[|a|..]);
    CountWeaker(kept, fa);
    if RangeKept(a, b, lo, hi) {
      assert kept == fa;
    }
    if kept == fa {
      forall i | 0 <= i < |a| && StampIn(a[i], lo, hi)
        ensures b[i] == a[i]
      {
        assert kept[i] == fa[i];
      }
    }
  }

  lemma GrowthKeepsCount(a: Stamps, b: Stamps, lo: int, hi: int, now: int)
    requires StampsGrow(a, b, now) && hi <= now
    ensures CountIn(b, lo, hi) == CountIn(a, lo, hi)
  {
    MovesLose(a, b, lo, hi, now);
  }

  // ---------- What a step may do to the desk ----------

  ghost predicate Evolves(d: Desk, e: Desk, now: int) {
    && TicketsEvolve(d.tickets, e.tickets, now)
    && |d.messages| <= |e.messages|
    && (forall m :: 0 <= m < |d.messages| ==>
          && e.messages[m].ticket == d.messages[m].ticket && e.messages[m].direction == d.messages[m].direction
          && e.messages[m].createdAt == d.messages[m].createdAt)
    && (forall m :: |d.messages| <= m < |e.messages| ==> now <= e.messages[m].createdAt)
  }

  ghost predicate TicketsEvolve(a: seq<Ticket>, b: seq<Ticket>, now: int) {
    && |a| <= |b|
    && (forall i :: 0 <= i < |a| ==> TicketEvolves(a[i], b[i], now))
    && (forall i :: |a| <= i < |b| ==>
          && now <= b[i].createdAt && NotBefore(b[i].closedAt, now)
          && NotBefore(b[i].firstResponseAt, now) && NotBefore(b[i].resolvedAt, now))
  }

  predicate NotBefore(t: Option<int>, now: int) { t.Some? ==> now <= t.value }

  predicate MovedOn(t: Option<int>, u: Option<int>, now: int) {
    u == t || (u.Some? && now <= u.value)
  }

  ghost predicate TicketEvolves(t: Ticket, u: Ticket, now: int) {
    && u.chat == t.chat && u.createdAt == t.createdAt
    && MovedOn(t.closedAt, u.closedAt, now)
    && MovedOn(t.resolvedAt, u.resolvedAt, now)
    && MovedOn(t.firstResponseAt, u.firstResponseAt, now)
    && (t.firstResponseAt.Some? ==> u.firstResponseAt == t.firstResponseAt)
  }

  lemma PlaceEvolves(dir: Directory, d: Desk, msg: Incoming, p: Picks, now: int)
    ensures Evolves(d, Place(dir, d, msg, p, now), now) && Place(dir, d, msg, p, now).messages == d.messages
  {
  }

  lemma RecordEvolves(dir: Directory, d: Desk, msg: Incoming, p: Picks, now: int)
    ensures Evolves(d, Recorded(dir, d, msg, p, now), now)
  {
    PlaceEvolves(dir, d, msg, p, now);
  }

  lemma IngestEvolves(dir: Directory, d: Desk, msg: Incoming, p: Picks, now: int, cut: Cut)
    requires now <= p.doneAt
    ensures Evolves(d, IngestDesk(dir, d, msg, p, now, cut), now)
  {
    PlaceEvolves(dir, d, msg, p, now);
    RecordEvolves(dir, d, msg, p, now);
    IngestCases(dir, d, msg, p, now, cut);
  }

  lemma StepEvolves(db: Db, ts: Timed)
    requires Legal(db, ts)
    ensures Evolves(db.desk, Apply(db, ts).desk, ts.now)
  {
    if ts.step.Ingest? {
      IngestEvolves(db.dir, db.desk, ts.step.msg, ts.step.picks, ts.now, ts.step.cut);
    }
  }

  lemma EvolvingStamps(d: Desk, e: Desk, c: ChatId, m: Measure, now: int)
    requires Evolves(d, e, now)
    requires RowsPlaced(d)
    ensures StampsMove(StampsOf(d, c, m), StampsOf(e, c, m), now)
    ensures m != ClosedTickets ==> StampsGrow(StampsOf(d, c, m), StampsOf(e, c, m), now)
  {
  }

  lemma EvolutionTransitive(a: seq<Ticket>, b: seq<Ticket>, c: seq<Ticket>, early: int, late: int)
    requires TicketsEvolve(a, b, early) && TicketsEvolve(b, c, late) && early <= late
    ensures TicketsEvolve(a, c, early)
  {
    forall i | 0 <= i < |a|
      ensures TicketEvolves(a[i], c[i], early)
    {
      assert TicketEvolves(a[i], b[i], early) && TicketEvolves(b[i], c[i], late);
    }
  }

  // ---------- Durations ----------

  lemma {:induction false} DurationsCounted(tickets: seq<Ticket>, c: ChatId, k: Duration, lo: int, hi: int)
    ensures |Durations(tickets, c, k, lo, hi)| == CountIn(EndStamps(tickets, c, k), lo, hi)
  {
    if tickets != [] {
      var n := |tickets| - 1;
      DurationsCounted(tickets[..n], c, k, lo, hi);
      EndFlagsStep(tickets, c, k, lo, hi);
      CountAppend(InFlags(EndStamps(tickets[..n], c, k), lo, hi), DurationOf(tickets[n], c, k, lo, hi) != []);
    }
  }

  lemma EndFlagsStep(tickets: seq<Ticket>, c: ChatId, k: Duration, lo: int, hi: int)
    requires tickets != []
    ensures var n := |tickets| - 1;
      InFlags(EndStamps(tickets, c, k), lo, hi) ==
      InFlags(EndStamps(tickets[..n], c, k), lo, hi) + [DurationOf(tickets[n], c, k, lo, hi) != []]
  {
  }

  lemma {:induction false} SameDurations(a: seq<Ticket>, b: seq<Ticket>, c: ChatId, k: Duration, lo: int, hi: int)
    requires |a| <= |b|
    requires forall i :: 0 <= i < |a| ==> DurationOf(b[i], c, k, lo, hi) == DurationOf(a[i], c, k, lo, hi)
    requires forall i :: |a| <= i < |b| ==> DurationOf(b[i], c, k, lo, hi) == []
    ensures Durations(a, c, k, lo, hi) == Durations(b, c, k, lo, hi)
    decreases |b|
  {
    if b != [] {
      var n := |b| - 1;
      SameDurations(if |a| == |b| then a[..n] else a, b[..n], c, k, lo, hi);
      assert Durations(b[..n], c, k, lo, hi) + [] == Durations(b[..n], c, k, lo, hi);
    }
  }

  lemma KeptDurations(a: seq<Ticket>, b: seq<Ticket>, c: ChatId, k: Duration, lo: int, hi: int, now: int)
    requires hi <= now && TicketsEvolve(a, b, now)
    requires RangeKept(EndStamps(a, c, k), EndStamps(b, c, k), lo, hi)
    ensures Durations(a, c, k, lo, hi) == Durations(b, c, k, lo, hi)
  {
    forall i | 0 <= i < |a|
      ensures DurationOf(b[i], c, k, lo, hi) == DurationOf(a[i], c, k, lo, hi)
    {
      assert TicketEvolves(a[i], b[i], now);
      assert EndStamps(a, c, k)[i] == if a[i].chat == c then Ended(a[i], k) else None;
    }
    SameDurations(a, b, c, k, lo, hi);
  }

  /** The durations of a past range are what they were exactly when none of the times that ended
      them was overwritten. */
  lemma DurationsKeptIff(a: seq<Ticket>, b: seq<Ticket>, c: ChatId, k: Duration, lo: int, hi: int, now: int)
    requires hi <= now && TicketsEvolve(a, b, now)
    ensures Durations(a, c, k, lo, hi) == Durations(b, c, k, lo, hi) <==>
      RangeKept(EndStamps(a, c, k), EndStamps(b, c, k), lo, hi)
    ensures k == FirstResponse ==> Durations(a, c, k, lo, hi) == Durations(b, c, k, lo, hi)
  {
    var x, y := EndStamps(a, c, k), EndStamps(b, c, k);
    assert StampsMove(x, y, now) by {
      assert forall i :: 0 <= i < |a| ==> TicketEvolves(a[i], b[i], now);
    }
    MovesLose(x, y, lo, hi, now);
    DurationsCounted(a, c, k, lo, hi);
    DurationsCounted(b, c, k, lo, hi);
    if RangeKept(x, y, lo, hi) {
      KeptDurations(a, b, c, k, lo, hi, now);
    }
    if k == FirstResponse {
      forall i | 0 <= i < |a| && StampIn(x[i], lo, hi)
        ensures y[i] == x[i]
      {
        assert TicketEvolves(a[i], b[i], now);
      }
    }
  }

  // ---------- The invariant of stored days ----------

  ghost predicate CountsTrue(row: Stats, d: Desk, c: ChatId, day: int) {
    forall m: Measure :: m != ClosedTickets ==> CountTrue(row, d, c, day, m)
  }

  ghost predicate CountTrue(row: Stats, d: Desk, c: ChatId, day: int, m: Measure) {
    Read(row, m) == CountIn(StampsOf(d, c, m), day, day + DAY)
  }

  ghost predicate SeenTrue(row: Stats, seen: seq<Ticket>, d: Desk, c: ChatId, day: int) {
    && TicketsEvolve(seen, d.tickets, day + DAY)
    && row.ticketsClosed == CountIn(ClosedStamps(seen, c), day, day + DAY)
    && forall k: Duration :: Mean(row, k) == Average(Durations(seen, c, k, day, day + DAY))
  }

  /** A stored row still tells the truth about its day, except that closings and resolutions
      since overwritten remain counted in it. */
  ghost predicate RowTrue(row: Stats, seen: seq<Ticket>, d: Desk, c: ChatId, day: int) {
    CountsTrue(row, d, c, day) && SeenTrue(row, seen, d, c, day)
  }

  /** Every chat that has anything from before the end of the day has a row for it. */
  ghost predicate DayCovered(r: Rollup, d: Desk, day: int) {
    forall i :: 0 <= i < |d.tickets| && (d.tickets[i].chat, day) !in r.rows ==>
      && day + DAY <= d.tickets[i].createdAt
      && forall m :: 0 <= m < |d.messages| && d.messages[m].ticket == i ==> day + DAY <= d.messages[m].createdAt
  }

  ghost predicate RowsTrue(r: Rollup, d: Desk) {
    forall c: ChatId, day: int :: (c, day) in r.rows ==> RowAtTrue(r, d, c, day)
  }

  ghost predicate DaysCovered(r: Rollup, d: Desk, clock: int) {
    forall day | day in r.days :: day % DAY == 0 && day + DAY <= clock && DayCovered(r, d, day)
  }

  ghost predicate RollupInv(r: Rollup, d: Desk, clock: int) {
    RowsTrue(r, d) && DaysCovered(r, d, clock)
  }

  ghost predicate RowsPlaced(d: Desk) {
    forall k :: 0 <= k < |d.messages| ==> d.messages[k].ticket < |d.tickets|
  }

  lemma MeasureStays(d: Desk, e: Desk, c: ChatId, m: Measure, lo: int, hi: int, now: int)
    requires Evolves(d, e, now) && hi <= now && RowsPlaced(d)
    requires m != ClosedTickets
    ensures CountIn(StampsOf(e, c, m), lo, hi) == CountIn(StampsOf(d, c, m), lo, hi)
  {
    EvolvingStamps(d, e, c, m, now);
    GrowthKeepsCount(StampsOf(d, c, m), StampsOf(e, c, m), lo, hi, now);
  }

  lemma CountsStayTrue(row: Stats, d: Desk, e: Desk, c: ChatId, day: int, now: int)
    requires CountsTrue(row, d, c, day) && Evolves(d, e, now) && day + DAY <= now && RowsPlaced(d)
    ensures CountsTrue(row, e, c, day)
  {
    forall m: Measure | m != ClosedTickets
      ensures CountTrue(row, e, c, day, m)
    {
      assert CountTrue(row, d, c, day, m);
      MeasureStays(d, e, c, m, day, day + DAY, now);
    }
  }

  lemma SeenStaysTrue(row: Stats, seen: seq<Ticket>, d: Desk, e: Desk, c: ChatId, day: int, now: int)
    requires SeenTrue(row, seen, d, c, day) && Evolves(d, e, now) && day + DAY <= now
    ensures SeenTrue(row, seen, e, c, day)
  {
    EvolutionTransitive(seen, d.tickets, e.tickets, day + DAY, now);
  }

  lemma RowStaysTrue(row: Stats, seen: seq<Ticket>, d: Desk, e: Desk, c: ChatId, day: int, now: int)
    requires RowTrue(row, seen, d, c, day) && Evolves(d, e, now) && day + DAY <= now && RowsPlaced(d)
    ensures RowTrue(row, seen, e, c, day)
  {
    CountsStayTrue(row, d, e, c, day, now);
    SeenStaysTrue(row, seen, d, e, c, day, now);
  }

  lemma DayStaysCovered(r: Rollup, d: Desk, e: Desk, day: int, now: int)
    requires DayCovered(r, d, day) && Evolves(d, e, now) && day + DAY <= now && RowsPlaced(d)
    ensures DayCovered(r, e, day)
  {
    forall i, m | 0 <= i < |e.tickets| && (e.tickets[i].chat, day) !in r.rows && 0 <= m < |e.messages| && e.messages[m].ticket == i
      ensures day + DAY <= e.messages[m].createdAt
    {
      if m < |d.messages| {
        assert e.messages[m].ticket == d.messages[m].ticket < |d.tickets|;
        assert TicketEvolves(d.tickets[i], e.tickets[i], now);
      }
    }
    forall i | 0 <= i < |e.tickets| && (e.tickets[i].chat, day) !in r.rows
      ensures day + DAY <= e.tickets[i].createdAt
    {
      if i < |d.tickets| {
        assert TicketEvolves(d.tickets[i], e.tickets[i], now);
      }
    }
  }

  lemma FreshRowTrue(d: Desk, c: ChatId, day: int)
    ensures RowTrue(StatsFor(d.tickets, d.messages, c, day, day + DAY), d.tickets, d, c, day)
  {
  }

  predicate RolledRow(row: Stats, d: Desk, c: ChatId, day: int) {
    row == StatsFor(d.tickets, d.messages, c, day, day + DAY)
  }

  /** The job writes the row of every chat for its day, and no other. */
  lemma JobRows(r: Rollup, d: Desk, chats: nat, date: int, c: ChatId, day: int)
    ensures var after := AggregateDay(r, d, chats, date).rows;
      if c < chats && day == StartOfDay(date)
      then (c, day) in after && RolledRow(after[(c, day)], d, c, day)
      else ((c, day) in after <==> (c, day) in r.rows) && ((c, day) in after ==> after[(c, day)] == r.rows[(c, day)])
  {
    var rolled := DayRows(d.tickets, d.messages, chats, StartOfDay(date));
    DayRowsAt(d, chats, StartOfDay(date), c, day);
    Overlay(r.rows, rolled, (c, day));
    assert AggregateDay(r, d, chats, date).rows == r.rows + rolled;
  }

  lemma Overlay<K, V>(under: map<K, V>, over: map<K, V>, k: K)
    ensures k in under + over <==> k in under || k in over
    ensures k in under + over ==> (under + over)[k] == if k in over then over[k] else under[k]
  {
  }

  lemma DayRowsAt(d: Desk, chats: nat, day: int, c: ChatId, other: int)
    ensures (c, other) in DayRows(d.tickets, d.messages, chats, day) <==> c < chats && other == day
    ensures c < chats && other == day ==> RolledRow(DayRows(d.tickets, d.messages, chats, day)[(c, other)], d, c, other)
  {
  }

  lemma JobSeen(r: Rollup, d: Desk, chats: nat, date: int, c: ChatId, day: int)
    ensures var after := AggregateDay(r, d, chats, date).seen;
      if c < chats && day == StartOfDay(date)
      then (c, day) in after && after[(c, day)] == d.tickets
      else ((c, day) in after <==> (c, day) in r.seen) && ((c, day) in after ==> after[(c, day)] == r.seen[(c, day)])
  {
    DaySeenAt(d.tickets, chats, StartOfDay(date), c, day);
  }

  lemma DaySeenAt(tickets: seq<Ticket>, chats: nat, day: int, c: ChatId, other: int)
    ensures (c, other) in DaySeen(tickets, chats, day) <==> c < chats && other == day
    ensures c < chats ==> DaySeen(tickets, chats, day)[(c, day)] == tickets
  {
  }

  lemma JobKeepsRows(r: Rollup, d: Desk, chats: nat, now: int)
    requires RowsTrue(r, d)
    ensures RowsTrue(NightlyJob(r, d, chats, now), d)
  {
    forall c: ChatId, day: int | (c, day) in NightlyJob(r, d, chats, now).rows
      ensures RowAtTrue(NightlyJob(r, d, chats, now), d, c, day)
    {
      JobKeepsRow(r, d, chats, now - DAY, c, day);
    }
  }

  ghost predicate RowAtTrue(r: Rollup, d: Desk, c: ChatId, day: int)
    requires (c, day) in r.rows
  {
    day in r.days && (c, day) in r.seen && RowTrue(r.rows[(c, day)], r.seen[(c, day)], d, c, day)
  }

  lemma JobKeepsRow(r: Rollup, d: Desk, chats: nat, date: int, c: ChatId, day: int)
    requires RowsTrue(r, d) && (c, day) in AggregateDay(r, d, chats, date).rows
    ensures RowAtTrue(AggregateDay(r, d, chats, date), d, c, day)
  {
    JobRows(r, d, chats, date, c, day);
    JobSeen(r, d, chats, date, c, day);
    if c < chats && day == StartOfDay(date) {
      FreshRowTrue(d, c, day);
    } else {
      assert RowAtTrue(r, d, c, day);
    }
  }

  lemma YesterdayIsOver(now: int)
    ensures StartOfDay(now - DAY) % DAY == 0 && StartOfDay(now - DAY) + DAY == StartOfDay(now) <= now
  {
  }

  lemma JobKeepsDays(r: Rollup, d: Desk, chats: nat, now: int)
    requires DaysCovered(r, d, now)
    requires forall i :: 0 <= i < |d.tickets| ==> d.tickets[i].chat < chats
    ensures DaysCovered(NightlyJob(r, d, chats, now), d, now)
  {
    var rolled, after := StartOfDay(now - DAY), NightlyJob(r, d, chats, now);
    YesterdayIsOver(now);
    forall day | day in after.days
      ensures DayCovered(after, d, day)
    {
      forall i | 0 <= i < |d.tickets| && (d.tickets[i].chat, day) !in after.rows
        ensures day in r.days && (d.tickets[i].chat, day) !in r.rows
      {
        JobRows(r, d, chats, now - DAY, d.tickets[i].chat, day);
      }
    }
  }

  lemma JobKeeps(r: Rollup, d: Desk, chats: nat, now: int)
    requires RollupInv(r, d, now)
    requires forall i :: 0 <= i < |d.tickets| ==> d.tickets[i].chat < chats
    ensures RollupInv(NightlyJob(r, d, chats, now), d, now)
  {
    JobKeepsRows(r, d, chats, now);
    JobKeepsDays(r, d, chats, now);
  }

  lemma DeskStepKeepsRollup(r: Rollup, d: Desk, e: Desk, clock: int, now: int)
    requires RollupInv(r, d, clock) && clock <= now && Evolves(d, e, now) && RowsPlaced(d)
    ensures RollupInv(r, e, now)
  {
    forall day | day in r.days
      ensures DayCovered(r, e, day)
    {
      DayStaysCovered(r, d, e, day, now);
    }
    forall c: ChatId, day: int | (c, day) in r.rows
      ensures RowAtTrue(r, e, c, day)
    {
      assert RowAtTrue(r, d, c, day);
      RowStaysTrue(r.rows[(c, day)], r.seen[(c, day)], d, e, c, day, now);
    }
  }

  lemma RollupLater(r: Rollup, d: Desk, clock: int, later: int)
    requires RollupInv(r, d, clock) && clock <= later
    ensures RollupInv(r, d, later)
  {
  }

  lemma InvPlaces(db: Db)
    requires Inv(db)
    ensures RowsPlaced(db.desk)
    ensures forall i :: 0 <= i < |db.desk.tickets| ==> db.desk.tickets[i].chat < |db.dir.chats|
  {
  }

  lemma NightlyApplied(db: Db, ts: Timed)
    ensures Apply(db, ts).rollup == if ts.step.Nightly? then NightlyJob(db.rollup, db.desk, |db.dir.chats|, ts.now) else db.rollup
    ensures ts.step.Nightly? ==> Apply(db, ts).desk == db.desk
    ensures Legal(db, ts) ==> db.clock <= ts.now <= EndOf(ts) == Apply(db, ts).clock
  {
  }

  lemma StepKeepsRollup(db: Db, ts: Timed)
    requires Inv(db) && Legal(db, ts) && RollupInv(db.rollup, db.desk, db.clock)
    ensures RollupInv(Apply(db, ts).rollup, Apply(db, ts).desk, EndOf(ts))
  {
    InvPlaces(db);
    NightlyApplied(db, ts);
    if ts.step.Nightly? {
      RollupLater(db.rollup, db.desk, db.clock, ts.now);
      JobKeeps(db.rollup, db.desk, |db.dir.chats|, ts.now);
    } else {
      StepEvolves(db, ts);
      DeskStepKeepsRollup(db.rollup, db.desk, Apply(db, ts).desk, db.clock, ts.now);
      RollupLater(db.rollup, Apply(db, ts).desk, ts.now, EndOf(ts));
    }
  }

  lemma {:induction false} RunKeepsRollup(db: Db, run: seq<Timed>)
    requires Inv(db) && LegalRun(db, run) && RollupInv(db.rollup, db.desk, db.clock)
    ensures RollupInv(Exec(db, run).rollup, Exec(db, run).desk, Exec(db, run).clock)
    decreases |run|
  {
    if run != [] {
      StepKeepsInv(db, run[0]);
      StepKeepsRollup(db, run[0]);
      RunKeepsRollup(Apply(db, run[0]), run[1..]);
    }
  }
}
