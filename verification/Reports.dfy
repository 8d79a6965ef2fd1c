/** A report adds stored days and a live today; it agrees with counting directly. */
module Reports {
  import opened Types
  import opened Counting
  import opened AnalyticsSpec
  import opened DeskInvariants
  import opened Engine
  import opened Reachable
  import opened RollupRuns

  // ---------- Adding days ----------

  predicate Whole(order: seq<int>) {
    && (forall i :: 0 <= i < |order| ==> order[i] % DAY == 0)
    && (forall i, j :: 0 <= i < j < |order| ==> order[i] != order[j])
  }

  predicate OnDays(t: Option<int>, order: seq<int>) { t.Some? && StartOfDay(t.value) in order }

  function DayFlags(s: Stamps, order: seq<int>): (flags: seq<bool>)
    ensures |flags| == |s|
    ensures forall i :: 0 <= i < |s| ==> flags[i] == OnDays(s[i], order)
  {
    seq(|s|, i requires 0 <= i < |s| => OnDays(s[i], order))
  }

  lemma DayIsItsRange(t: int, day: int)
    requires day % DAY == 0
    ensures InRange(t, day, day + DAY) <==> StartOfDay(t) == day
  {
  }

  lemma DayFlagsAppend(s: Stamps, order: seq<int>, day: int)
    requires Whole(order + [day])
    ensures Count(DayFlags(s, order + [day])) == Count(DayFlags(s, order)) + CountIn(s, day, day + DAY)
  {
    var whole, a, b := DayFlags(s, order + [day]), DayFlags(s, order), InFlags(s, day, day + DAY);
    assert (order + [day])[|order|] == day;
    forall i | 0 <= i < |s|
      ensures whole[i] == (a[i] || b[i]) && !(a[i] && b[i])
    {
      if s[i].Some? {
        DayIsItsRange(s[i].value, day);
        assert StartOfDay(s[i].value) in order + [day] <==> StartOfDay(s[i].value) in order || StartOfDay(s[i].value) == day;
        assert day !in order by {
          forall k | 0 <= k < |order| ensures order[k] != day { assert (order + [day])[k] == order[k]; }
        }
      }
    }
    CountSplit(whole, a, b);
  }

  function SumOfDays(s: Stamps, order: seq<int>): nat {
    if order == [] then 0
    else SumOfDays(s, order[..|order| - 1]) + CountIn(s, order[|order| - 1], order[|order| - 1] + DAY)
  }

  lemma {:induction false} DaysAddUp(s: Stamps, order: seq<int>)
    requires Whole(order)
    ensures SumOfDays(s, order) == Count(DayFlags(s, order))
  {
    if order == [] {
      CountNone(DayFlags(s, order));
    } else {
      var n := |order| - 1;
      assert order == order[..n] + [order[n]];
      DaysAddUp(s, order[..n]);
      DayFlagsAppend(s, order[..n], order[n]);
    }
  }

  // ---------- The request ----------

  datatype Request = Request(chat: ChatId, from: int, to: int, now: int) {
    function Today(): int { StartOfDay(now) }

    /** The days the request means: from its first day to its last, or to today. */
    function Lo(): int { StartOfDay(from) }

    function Hi(): int { StartOfDay(if to <= now then to else now) + DAY }

    /** The request starts after today but reaches it: today is reported all the same. */
    predicate Ahead() { StartOfDay(now) < StartOfDay(from) && StartOfDay(now) <= to }

    predicate Past(day: int) { day % DAY == 0 && StartOfDay(from) <= day < StartOfDay(now) && day <= to }
  }

  /** Every past day of the request was rolled up, and the rows came back in some order. */
  ghost predicate Answerable(db: Db, q: Request, order: seq<int>) {
    && db.clock <= q.now
    && (forall day :: q.Past(day) ==> day in db.rollup.days)
    && IsStoredOrder(db.rollup, q.chat, q.from, q.to, q.now, order)
  }

  function Report(db: Db, q: Request, order: seq<int>): seq<Stats>
    requires forall i :: 0 <= i < |order| ==> (q.chat, order[i]) in db.rollup.rows
  {
    Ranges(db.rollup, db.desk, q.chat, q.to, q.now, order)
  }

  // ---------- Which times a report covers ----------

  lemma StoredDays(r: Rollup, d: Desk, clock: int, q: Request, order: seq<int>)
    requires RollupInv(r, d, clock) && IsStoredOrder(r, q.chat, q.from, q.to, q.now, order)
    ensures Whole(order)
    ensures forall day :: day in order <==> (q.chat, day) in r.rows && q.Past(day)
  {
    forall day | (q.chat, day) in r.rows
      ensures day % DAY == 0
    {
      assert RowAtTrue(r, d, q.chat, day);
    }
    forall day | (q.chat, day) in r.rows && q.Past(day)
      ensures day in order
    {
      var k := (q.chat, day);
      assert k in r.rows && k.0 == q.chat && Wanted(r, q.chat, q.from, q.to, q.now, k.1);
    }
  }

  lemma StartIsWhole(t: int)
    ensures StartOfDay(t) % DAY == 0
  {
  }

  lemma FloorBelow(a: int, b: int)
    ensures StartOfDay(a) <= StartOfDay(b) <==> StartOfDay(a) <= b
    ensures StartOfDay(a) <= StartOfDay(b) <==> a < StartOfDay(b) + DAY
    ensures a <= b ==> StartOfDay(a) <= StartOfDay(b)
  {
  }

  /** The comparison of days and instants behind a report; `t0`, `to0`, `now0` and `from0` stand
      for the starts of the days of `t`, `to`, `now` and of the first day. */
  lemma DayCases(t: int, t0: int, to: int, to0: int, now: int, now0: int, from0: int)
    requires t0 <= now0
    requires from0 <= t <==> from0 <= t0
    requires (t < to0 + DAY <==> t0 <= to0) && (t < now0 + DAY <==> t0 <= now0)
    requires (t0 <= to <==> t0 <= to0) && (now0 <= to <==> now0 <= to0)
    requires (to <= now ==> to0 <= now0) && (now <= to ==> now0 <= to0)
    ensures (from0 <= t0 < now0 && t0 <= to) || (now0 <= to && t0 == now0) <==>
      from0 <= t < (if to <= now then to0 else now0) + DAY || (now0 < from0 && now0 <= to && t0 == now0)
    ensures !(from0 <= t < (if to <= now then to0 else now0) + DAY && now0 < from0)
  {
  }

  /** An instant is on a past day of the request, or today if the request reaches today, exactly
      when it is in the requested range; or today comes on top. */
  lemma DaysOfRange(t: int, q: Request)
    requires StartOfDay(t) <= q.Today()
    ensures (q.Past(StartOfDay(t)) || (q.Today() <= q.to && StartOfDay(t) == q.Today())) <==>
      (InRange(t, q.Lo(), q.Hi()) || (q.Ahead() && StartOfDay(t) == q.Today()))
    ensures !(InRange(t, q.Lo(), q.Hi()) && q.Ahead())
  {
    StartIsWhole(t);
    FloorBelow(q.from, t);
    FloorBelow(t, q.to);
    FloorBelow(t, q.now);
    FloorBelow(q.now, q.to);
    FloorBelow(q.to, q.now);
    DayCases(t, StartOfDay(t), q.to, StartOfDay(q.to), q.now, StartOfDay(q.now), StartOfDay(q.from));
  }

  /** Everything dated up to today and not in a stored row is outside the past days. */
  ghost predicate Covers(s: Stamps, q: Request, order: seq<int>) {
    forall i :: 0 <= i < |s| && s[i].Some? ==>
      && s[i].value <= q.now
      && (q.Past(StartOfDay(s[i].value)) ==> StartOfDay(s[i].value) in order)
  }

  /** Row by row: on a stored day, today, or in the requested range. */
  lemma FlagsAgree(s: Stamps, q: Request, order: seq<int>, i: nat)
    requires Covers(s, q, order) && (forall day :: day in order ==> q.Past(day)) && i < |s|
    ensures var stored, live, direct := OnDays(s[i], order), StampIn(s[i], q.Today(), q.Today() + DAY), StampIn(s[i], q.Lo(), q.Hi());
      && ((stored || (q.Today() <= q.to && live)) <==> (direct || (q.Ahead() && live)))
      && !(stored && live) && (q.Ahead() ==> !stored && !direct) && (q.Today() > q.to ==> stored == direct)
  {
    if s[i].Some? {
      StartIsWhole(q.now);
      DayIsItsRange(s[i].value, q.Today());
      FloorBelow(s[i].value, q.now);
      DaysOfRange(s[i].value, q);
    }
  }

  lemma CoveredAddsUp(s: Stamps, q: Request, order: seq<int>)
    requires Whole(order) && Covers(s, q, order)
    requires forall day :: day in order ==> q.Past(day)
    ensures SumOfDays(s, order) + (if q.Today() <= q.to then CountIn(s, q.Today(), q.Today() + DAY) else 0) ==
      CountIn(s, q.Lo(), q.Hi()) + (if q.Ahead() then CountIn(s, q.Today(), q.Today() + DAY) else 0)
  {
    DaysAddUp(s, order);
    FlagsAddUp(s, q, order, DayFlags(s, order), InFlags(s, q.Today(), q.Today() + DAY), InFlags(s, q.Lo(), q.Hi()));
  }

  lemma FlagsAddUp(s: Stamps, q: Request, order: seq<int>, stored: seq<bool>, live: seq<bool>, direct: seq<bool>)
    requires Covers(s, q, order) && (forall day :: day in order ==> q.Past(day))
    requires |stored| == |live| == |direct| == |s|
    requires forall i :: 0 <= i < |s| ==> stored[i] == OnDays(s[i], order)
    requires forall i :: 0 <= i < |s| ==> live[i] == StampIn(s[i], q.Today(), q.Today() + DAY)
    requires forall i :: 0 <= i < |s| ==> direct[i] == StampIn(s[i], q.Lo(), q.Hi())
    ensures Count(stored) + (if q.Today() <= q.to then Count(live) else 0) ==
      Count(direct) + (if q.Ahead() then Count(live) else 0)
  {
    var reached, ahead := q.Today() <= q.to, q.Ahead();
    forall i | 0 <= i < |s|
      ensures (stored[i] || (reached && live[i])) <==> (direct[i] || (ahead && live[i]))
      ensures !(stored[i] && live[i]) && (ahead ==> !stored[i] && !direct[i]) && (!reached ==> stored[i] == direct[i])
    {
      FlagsAgree(s, q, order, i);
    }
    SplitFlags(stored, live, direct, reached, ahead);
  }

  lemma SplitFlags(stored: seq<bool>, live: seq<bool>, direct: seq<bool>, reached: bool, ahead: bool)
    requires |stored| == |live| == |direct| && (ahead ==> reached)
    requires forall i :: 0 <= i < |stored| ==> ((stored[i] || (reached && live[i])) <==> (direct[i] || (ahead && live[i])))
    requires forall i :: 0 <= i < |stored| ==>
      !(stored[i] && live[i]) && (ahead ==> !stored[i] && !direct[i]) && (!reached ==> stored[i] == direct[i])
    ensures Count(stored) + (if reached then Count(live) else 0) == Count(direct) + (if ahead then Count(live) else 0)
  {
    if ahead {
      CountNone(stored);
      CountNone(direct);
    } else if reached {
      CountSplit(direct, stored, live);
    } else {
      assert stored == direct;
    }
  }

  /** A time a measure counts lies between its ticket's creation and the clock. */
  ghost predicate Dated(d: Desk, clock: int) {
    && RowsPlaced(d)
    && (forall i :: 0 <= i < |d.tickets| ==> d.tickets[i].createdAt <= clock)
    && (forall i :: 0 <= i < |d.tickets| && d.tickets[i].closedAt.Some? ==>
          d.tickets[i].createdAt <= d.tickets[i].closedAt.value <= clock)
    && (forall i, k :: 0 <= i < |d.tickets| && Ended(d.tickets[i], k).Some? ==>
          d.tickets[i].createdAt <= Ended(d.tickets[i], k).value <= clock)
    && (forall m :: 0 <= m < |d.messages| ==> d.messages[m].createdAt <= clock)
  }

  lemma InvDated(db: Db)
    requires Inv(db)
    ensures Dated(db.desk, db.clock)
  {
    assert forall i :: 0 <= i < |db.desk.tickets| ==> TicketTimes(db.desk.tickets[i], db.clock);
  }

  /** Anything a chat has from before the end of a rolled-up day gives it a row for that day. */
  lemma RowExists(r: Rollup, d: Desk, day: int, i: TicketId, t: int)
    requires DayCovered(r, d, day) && i < |d.tickets| && t < day + DAY
    requires d.tickets[i].createdAt <= t || exists m :: 0 <= m < |d.messages| && d.messages[m].ticket == i && d.messages[m].createdAt <= t
    ensures (d.tickets[i].chat, day) in r.rows
  {
  }

  ghost predicate RolledUp(r: Rollup, d: Desk, q: Request) {
    forall day :: q.Past(day) ==> DayCovered(r, d, day)
  }

  lemma TicketTimesCovered(r: Rollup, d: Desk, q: Request, order: seq<int>, i: TicketId, t: int)
    requires RolledUp(r, d, q) && i < |d.tickets| && d.tickets[i].chat == q.chat && d.tickets[i].createdAt <= t
    requires forall day :: q.Past(day) && (q.chat, day) in r.rows ==> day in order
    ensures q.Past(StartOfDay(t)) ==> StartOfDay(t) in order
  {
    if q.Past(StartOfDay(t)) {
      RowExists(r, d, StartOfDay(t), i, t);
    }
  }

  lemma MeasureCovered(r: Rollup, d: Desk, clock: int, q: Request, order: seq<int>, m: Measure)
    requires RolledUp(r, d, q) && Dated(d, clock) && clock <= q.now
    requires forall day :: q.Past(day) && (q.chat, day) in r.rows ==> day in order
    ensures Covers(StampsOf(d, q.chat, m), q, order)
  {
    var s := StampsOf(d, q.chat, m);
    forall i | 0 <= i < |s| && s[i].Some?
      ensures s[i].value <= q.now
      ensures q.Past(StartOfDay(s[i].value)) ==> StartOfDay(s[i].value) in order
    {
      var t := s[i].value;
      match m
      case Opened => TicketTimesCovered(r, d, q, order, i, t);
      case ClosedTickets => TicketTimesCovered(r, d, q, order, i, t);
      case Received => RowCovered(r, d, q, order, i);
      case Sent => RowCovered(r, d, q, order, i);
    }
  }

  lemma RowCovered(r: Rollup, d: Desk, q: Request, order: seq<int>, m: MessageId)
    requires RolledUp(r, d, q) && RowsPlaced(d) && m < |d.messages| && d.tickets[d.messages[m].ticket].chat == q.chat
    requires forall day :: q.Past(day) && (q.chat, day) in r.rows ==> day in order
    ensures q.Past(StartOfDay(d.messages[m].createdAt)) ==> StartOfDay(d.messages[m].createdAt) in order
  {
    var t := d.messages[m].createdAt;
    if q.Past(StartOfDay(t)) {
      RowExists(r, d, StartOfDay(t), d.messages[m].ticket, t);
    }
  }

  // ---------- Totals ----------

  /** What the stored rows of the listed days say of a measure. */
  function StoredTotal(r: Rollup, c: ChatId, order: seq<int>, m: Measure): nat
    requires forall i :: 0 <= i < |order| ==> (c, order[i]) in r.rows
  {
    Total(StoredRows(r.rows, c, order), m)
  }

  lemma TotalAppend(rows: seq<Stats>, last: Stats, m: Measure)
    ensures Total(rows + [last], m) == Total(rows, m) + Read(last, m)
  {
    assert (rows + [last])[..|rows|] == rows;
  }

  /** The day's row counts the times of the day. */
  ghost predicate RowCounts(r: Rollup, c: ChatId, m: Measure, s: Stamps, day: int) {
    (c, day) in r.rows && Read(r.rows[(c, day)], m) == CountIn(s, day, day + DAY)
  }

  lemma StoredRead(r: Rollup, d: Desk, c: ChatId, day: int, m: Measure)
    requires RowsTrue(r, d) && (c, day) in r.rows && m != ClosedTickets
    ensures RowCounts(r, c, m, StampsOf(d, c, m), day)
  {
    assert RowAtTrue(r, d, c, day);
    assert CountTrue(r.rows[(c, day)], d, c, day, m);
  }

  lemma StoredTotalIsSum(r: Rollup, d: Desk, c: ChatId, order: seq<int>, m: Measure)
    requires RowsTrue(r, d) && m != ClosedTickets
    requires forall i :: 0 <= i < |order| ==> (c, order[i]) in r.rows
    ensures StoredTotal(r, c, order, m) == SumOfDays(StampsOf(d, c, m), order)
  {
    var s := StampsOf(d, c, m);
    forall i | 0 <= i < |order|
      ensures RowCounts(r, c, m, s, order[i])
    {
      StoredRead(r, d, c, order[i], m);
    }
    RowsSum(r, c, order, m, s);
  }

  lemma {:induction false} RowsSum(r: Rollup, c: ChatId, order: seq<int>, m: Measure, s: Stamps)
    requires forall i :: 0 <= i < |order| ==> RowCounts(r, c, m, s, order[i])
    ensures forall i :: 0 <= i < |order| ==> (c, order[i]) in r.rows
    ensures StoredTotal(r, c, order, m) == SumOfDays(s, order)
  {
    assert forall i :: 0 <= i < |order| ==> RowCounts(r, c, m, s, order[i]) ==> (c, order[i]) in r.rows;
    if order != [] {
      var n := |order| - 1;
      RowsSum(r, c, order[..n], m, s);
      StoredTotalStep(r, c, order, m);
      SumStep(s, order);
      assert RowCounts(r, c, m, s, order[n]);
    }
  }

  /** No closing counted in the day's row has been overwritten since. */
  ghost predicate ClosingsKept(r: Rollup, d: Desk, c: ChatId, day: int)
    requires (c, day) in r.seen && |r.seen[(c, day)]| <= |d.tickets|
  {
    RangeKept(ClosedStamps(r.seen[(c, day)], c), ClosedStamps(d.tickets, c), day, day + DAY)
  }

  ghost predicate AllClosingsKept(r: Rollup, d: Desk, c: ChatId, order: seq<int>) {
    forall i :: 0 <= i < |order| ==>
      (c, order[i]) in r.seen && |r.seen[(c, order[i])]| <= |d.tickets| && ClosingsKept(r, d, c, order[i])
  }

  lemma EvolvingClosings(a: seq<Ticket>, b: seq<Ticket>, c: ChatId, now: int)
    requires TicketsEvolve(a, b, now)
    ensures StampsMove(ClosedStamps(a, c), ClosedStamps(b, c), now)
  {
    assert forall i :: 0 <= i < |a| ==> TicketEvolves(a[i], b[i], now);
  }

  lemma ClosingsOfDay(r: Rollup, d: Desk, c: ChatId, day: int)
    requires RowsTrue(r, d) && (c, day) in r.rows
    ensures (c, day) in r.seen && |r.seen[(c, day)]| <= |d.tickets|
    ensures CountIn(ClosedStamps(d.tickets, c), day, day + DAY) <= r.rows[(c, day)].ticketsClosed
    ensures CountIn(ClosedStamps(d.tickets, c), day, day + DAY) == r.rows[(c, day)].ticketsClosed <==> ClosingsKept(r, d, c, day)
  {
    assert RowAtTrue(r, d, c, day);
    EvolvingClosings(r.seen[(c, day)], d.tickets, c, day + DAY);
    MovesLose(ClosedStamps(r.seen[(c, day)], c), ClosedStamps(d.tickets, c), day, day + DAY, day + DAY);
  }

  lemma KeptSplit(r: Rollup, d: Desk, c: ChatId, order: seq<int>)
    requires order != []
    ensures AllClosingsKept(r, d, c, order) <==>
      AllClosingsKept(r, d, c, order[..|order| - 1]) && AllClosingsKept(r, d, c, [order[|order| - 1]])
  {
    var n := |order| - 1;
    if AllClosingsKept(r, d, c, order) {
      assert forall i :: 0 <= i < n ==> order[..n][i] == order[i];
    }
    if AllClosingsKept(r, d, c, order[..n]) && AllClosingsKept(r, d, c, [order[n]]) {
      forall i | 0 <= i < |order|
        ensures (c, order[i]) in r.seen && |r.seen[(c, order[i])]| <= |d.tickets| && ClosingsKept(r, d, c, order[i])
      {
        if i < n {
          assert order[..n][i] == order[i];
        } else {
          assert [order[n]][0] == order[n];
        }
      }
    }
  }

  /** What the stored rows say was closed, against what the table says now. */
  ghost predicate Overcounts(stored: nat, now: nat, kept: bool) {
    now <= stored && (now == stored <==> kept)
  }

  lemma OneDayOvercounts(r: Rollup, d: Desk, c: ChatId, day: int)
    requires RowsTrue(r, d) && (c, day) in r.rows
    ensures Overcounts(r.rows[(c, day)].ticketsClosed, CountIn(ClosedStamps(d.tickets, c), day, day + DAY),
                       AllClosingsKept(r, d, c, [day]))
  {
    ClosingsOfDay(r, d, c, day);
    assert AllClosingsKept(r, d, c, [day]) <==> ClosingsKept(r, d, c, day) by {
      assert [day][0] == day;
    }
  }

  lemma StoredTotalStep(r: Rollup, c: ChatId, order: seq<int>, m: Measure)
    requires order != []
    requires forall i :: 0 <= i < |order| ==> (c, order[i]) in r.rows
    ensures StoredTotal(r, c, order, m) ==
      StoredTotal(r, c, order[..|order| - 1], m) + Read(r.rows[(c, order[|order| - 1])], m)
  {
    var n := |order| - 1;
    assert StoredRows(r.rows, c, order) == StoredRows(r.rows, c, order[..n]) + [r.rows[(c, order[n])]];
    TotalAppend(StoredRows(r.rows, c, order[..n]), r.rows[(c, order[n])], m);
  }

  lemma {:induction false} StoredClosings(r: Rollup, d: Desk, c: ChatId, order: seq<int>)
    requires RowsTrue(r, d)
    requires forall i :: 0 <= i < |order| ==> (c, order[i]) in r.rows
    ensures Overcounts(StoredTotal(r, c, order, ClosedTickets), SumOfDays(ClosedStamps(d.tickets, c), order),
                       AllClosingsKept(r, d, c, order))
  {
    if order != [] {
      StoredClosings(r, d, c, order[..|order| - 1]);
      OneDayOvercounts(r, d, c, order[|order| - 1]);
      ClosingsStep(r, d, c, order);
    }
  }

  lemma ClosingsStep(r: Rollup, d: Desk, c: ChatId, order: seq<int>)
    requires order != [] && forall i :: 0 <= i < |order| ==> (c, order[i]) in r.rows
    requires var rest := order[..|order| - 1];
      Overcounts(StoredTotal(r, c, rest, ClosedTickets), SumOfDays(ClosedStamps(d.tickets, c), rest),
                 AllClosingsKept(r, d, c, rest))
    requires var day := order[|order| - 1];
      Overcounts(r.rows[(c, day)].ticketsClosed, CountIn(ClosedStamps(d.tickets, c), day, day + DAY),
                 AllClosingsKept(r, d, c, [day]))
    ensures Overcounts(StoredTotal(r, c, order, ClosedTickets), SumOfDays(ClosedStamps(d.tickets, c), order),
                       AllClosingsKept(r, d, c, order))
  {
    SumStep(ClosedStamps(d.tickets, c), order);
    StoredTotalStep(r, c, order, ClosedTickets);
    KeptSplit(r, d, c, order);
  }

  lemma SumStep(s: Stamps, order: seq<int>)
    requires order != []
    ensures SumOfDays(s, order) == SumOfDays(s, order[..|order| - 1])
      + CountIn(s, order[|order| - 1], order[|order| - 1] + DAY)
  {
  }

  lemma TotalWithLive(rows: seq<Stats>, live: seq<Stats>, m: Measure)
    requires |live| <= 1
    ensures Total(rows + live, m) == Total(rows, m) + if live == [] then 0 else Read(live[0], m)
  {
    if live == [] {
      assert rows + live == rows;
    } else {
      assert live == [live[0]];
      TotalAppend(rows, live[0], m);
    }
  }

  lemma LiveReads(d: Desk, c: ChatId, day: int, m: Measure)
    ensures Read(StatsFor(d.tickets, d.messages, c, day, day + DAY), m) == CountIn(StampsOf(d, c, m), day, day + DAY)
  {
  }

  lemma ReportTotal(db: Db, q: Request, order: seq<int>, m: Measure)
    requires forall i :: 0 <= i < |order| ==> (q.chat, order[i]) in db.rollup.rows
    ensures Total(Report(db, q, order), m) == StoredTotal(db.rollup, q.chat, order, m)
      + if q.Today() <= q.to then CountIn(StampsOf(db.desk, q.chat, m), q.Today(), q.Today() + DAY) else 0
  {
    TotalWithLive(StoredRows(db.rollup.rows, q.chat, order), LiveRange(db.desk.tickets, db.desk.messages, q.chat, q.to, q.Today()), m);
    LiveRead(db.desk, q.chat, q.to, q.Today(), m);
  }

  lemma LiveRead(d: Desk, c: ChatId, to: int, today: int, m: Measure)
    ensures var live := LiveRange(d.tickets, d.messages, c, to, today);
      (if live == [] then 0 else Read(live[0], m)) ==
      if today <= to then CountIn(StampsOf(d, c, m), today, today + DAY) else 0
  {
    LiveReads(d, c, today, m);
  }

  lemma OrderIsStored(db: Db, q: Request, order: seq<int>)
    requires Answerable(db, q, order)
    ensures forall i :: 0 <= i < |order| ==> (q.chat, order[i]) in db.rollup.rows
  {
  }

  /** What a report would have to say: a direct count over the requested days, and today's on top
      when the request starts after it. */
  function Direct(db: Db, q: Request, m: Measure): nat {
    var s := StampsOf(db.desk, q.chat, m);
    CountIn(s, q.Lo(), q.Hi()) + if q.Ahead() then CountIn(s, q.Today(), q.Today() + DAY) else 0
  }

  lemma PastIsRolledUp(db: Db, q: Request, order: seq<int>)
    requires RollupInv(db.rollup, db.desk, db.clock) && Answerable(db, q, order)
    ensures RolledUp(db.rollup, db.desk, q)
  {
  }

  lemma OrderCovers(db: Db, q: Request, order: seq<int>, m: Measure)
    requires Inv(db) && RollupInv(db.rollup, db.desk, db.clock) && Answerable(db, q, order)
    ensures Whole(order) && Covers(StampsOf(db.desk, q.chat, m), q, order) && forall day :: day in order ==> q.Past(day)
  {
    StoredDays(db.rollup, db.desk, db.clock, q, order);
    InvDated(db);
    PastIsRolledUp(db, q, order);
    MeasureCovered(db.rollup, db.desk, db.clock, q, order, m);
  }

  lemma DaysOfReport(db: Db, q: Request, order: seq<int>, m: Measure)
    requires Inv(db) && RollupInv(db.rollup, db.desk, db.clock) && Answerable(db, q, order)
    ensures SumOfDays(StampsOf(db.desk, q.chat, m), order)
      + (if q.Today() <= q.to then CountIn(StampsOf(db.desk, q.chat, m), q.Today(), q.Today() + DAY) else 0)
      == Direct(db, q, m)
  {
    OrderCovers(db, q, order, m);
    CoveredAddsUp(StampsOf(db.desk, q.chat, m), q, order);
  }

  /** The report is the direct count, except that it may overcount closings. */
  ghost predicate ReportFits(s: Db, q: Request, order: seq<int>, m: Measure) {
    && (forall i :: 0 <= i < |order| ==> (q.chat, order[i]) in s.rollup.rows)
    && (if m == ClosedTickets
        then Overcounts(Total(Report(s, q, order), m), Direct(s, q, m), AllClosingsKept(s.rollup, s.desk, q.chat, order))
        else Total(Report(s, q, order), m) == Direct(s, q, m))
  }

  lemma MeasureReportFits(db: Db, q: Request, order: seq<int>, m: Measure)
    requires Inv(db) && RollupInv(db.rollup, db.desk, db.clock) && Answerable(db, q, order)
    ensures ReportFits(db, q, order, m)
  {
    OrderIsStored(db, q, order);
    ReportTotal(db, q, order, m);
    DaysOfReport(db, q, order, m);
    if m != ClosedTickets {
      StoredTotalIsSum(db.rollup, db.desk, q.chat, order, m);
    } else {
      StoredClosings(db.rollup, db.desk, q.chat, order);
    }
  }

  lemma ReachableRollup(db: Db, run: seq<Timed>)
    requires Initial(db) && LegalRun(db, run)
    ensures Inv(Exec(db, run)) && RollupInv(Exec(db, run).rollup, Exec(db, run).desk, Exec(db, run).clock)
  {
    InitialInv(db);
    RunKeepsInv(db, run);
    RunKeepsRollup(db, run);
  }

  lemma RunReportFits(db: Db, run: seq<Timed>, q: Request, order: seq<int>, m: Measure)
    requires Initial(db) && LegalRun(db, run) && Answerable(Exec(db, run), q, order)
    ensures ReportFits(Exec(db, run), q, order, m)
  {
    ReachableRollup(db, run);
    MeasureReportFits(Exec(db, run), q, order, m);
  }

  /** In every reachable state, once the past days of a request have been rolled up: the reported
      opened, received and sent counts are what a direct count over the requested days gives. The
      closed count is never less, and equal exactly when no closing counted in a stored row has
      been overwritten since. */
  lemma ReportAgreesWithDirectCount(db: Db, run: seq<Timed>, q: Request, order: seq<int>, m: Measure)
    requires Initial(db) && LegalRun(db, run) && Answerable(Exec(db, run), q, order) && !q.Ahead()
    ensures forall i :: 0 <= i < |order| ==> (q.chat, order[i]) in Exec(db, run).rollup.rows
    ensures var s := Exec(db, run);
      var reported, direct := Total(Report(s, q, order), m), CountIn(StampsOf(s.desk, q.chat, m), q.Lo(), q.Hi());
      && direct <= reported
      && (direct == reported <==> m != ClosedTickets || AllClosingsKept(s.rollup, s.desk, q.chat, order))
  {
    RunReportFits(db, run, q, order, m);
  }

  /** A request that starts after today but reaches it reports today, though it asked for none of
      it: every measure is off by exactly today's count. */
  lemma RequestAheadReportsToday(db: Db, run: seq<Timed>, q: Request, order: seq<int>, m: Measure)
    requires Initial(db) && LegalRun(db, run) && Answerable(Exec(db, run), q, order) && q.Ahead()
    ensures forall i :: 0 <= i < |order| ==> (q.chat, order[i]) in Exec(db, run).rollup.rows
    ensures var s := Exec(db, run);
      && CountIn(StampsOf(s.desk, q.chat, m), q.Lo(), q.Hi()) == 0
      && Total(Report(s, q, order), m) == CountIn(StampsOf(s.desk, q.chat, m), q.Today(), q.Today() + DAY)
  {
    RunReportFits(db, run, q, order, m);
    AheadOfToday(Exec(db, run), q, order, m);
  }

  lemma AheadOfToday(s: Db, q: Request, order: seq<int>, m: Measure)
    requires ReportFits(s, q, order, m) && IsStoredOrder(s.rollup, q.chat, q.from, q.to, q.now, order) && q.Ahead()
    ensures CountIn(StampsOf(s.desk, q.chat, m), q.Lo(), q.Hi()) == 0
    ensures Total(Report(s, q, order), m) == CountIn(StampsOf(s.desk, q.chat, m), q.Today(), q.Today() + DAY)
  {
    NothingStored(s.rollup, s.desk, q, order);
    KeptReportFits(s, q, order, m);
    DirectAhead(s, q, m);
  }

  lemma DirectAhead(s: Db, q: Request, m: Measure)
    requires q.Ahead()
    ensures CountIn(StampsOf(s.desk, q.chat, m), q.Lo(), q.Hi()) == 0
    ensures Direct(s, q, m) == CountIn(StampsOf(s.desk, q.chat, m), q.Today(), q.Today() + DAY)
  {
    EmptyRange(StampsOf(s.desk, q.chat, m), q);
  }

  lemma KeptReportFits(s: Db, q: Request, order: seq<int>, m: Measure)
    requires ReportFits(s, q, order, m) && AllClosingsKept(s.rollup, s.desk, q.chat, order)
    ensures Total(Report(s, q, order), m) == Direct(s, q, m)
  {
  }

  lemma NothingStored(r: Rollup, d: Desk, q: Request, order: seq<int>)
    requires IsStoredOrder(r, q.chat, q.from, q.to, q.now, order) && q.Ahead()
    ensures AllClosingsKept(r, d, q.chat, order)
  {
    assert 0 < |order| ==> Wanted(r, q.chat, q.from, q.to, q.now, order[0]);
  }

  lemma EmptyRange(s: Stamps, q: Request)
    requires q.Ahead()
    ensures CountIn(s, q.Lo(), q.Hi()) == 0
  {
    FloorBelow(if q.to <= q.now then q.to else q.now, q.now);
    CountNone(InFlags(s, q.Lo(), q.Hi()));
  }

  // ---------- Running the job again ----------

  /** A row computed again for a finished day. */
  ghost predicate SameCounts(before: Stats, after: Stats) {
    && (forall m: Measure | m != ClosedTickets :: Read(after, m) == Read(before, m))
    && after.avgFirstResponse == before.avgFirstResponse
  }

  ghost predicate Zero(s: Stats) {
    forall m: Measure :: Read(s, m) == 0
  }

  lemma NothingThatDay(r: Rollup, d: Desk, clock: int, c: ChatId, day: int, m: Measure)
    requires DayCovered(r, d, day) && Dated(d, clock) && (c, day) !in r.rows
    ensures CountIn(StampsOf(d, c, m), day, day + DAY) == 0
  {
    CountNone(InFlags(StampsOf(d, c, m), day, day + DAY));
  }

  lemma EmptyRow(r: Rollup, d: Desk, clock: int, c: ChatId, day: int, row: Stats)
    requires DayCovered(r, d, day) && Dated(d, clock) && (c, day) !in r.rows && RolledRow(row, d, c, day)
    ensures Zero(row)
  {
    forall m: Measure
      ensures Read(row, m) == 0
    {
      NothingThatDay(r, d, clock, c, day, m);
      RolledRead(d, c, day, row, m);
    }
  }

  lemma SameRow(r: Rollup, d: Desk, c: ChatId, day: int, row: Stats)
    requires RowsTrue(r, d) && (c, day) in r.rows && RolledRow(row, d, c, day)
    ensures SameCounts(r.rows[(c, day)], row)
  {
    forall m: Measure | m != ClosedTickets
      ensures Read(row, m) == Read(r.rows[(c, day)], m)
    {
      StoredRead(r, d, c, day, m);
      RolledRead(d, c, day, row, m);
    }
    assert RowAtTrue(r, d, c, day);
    DurationsKeptIff(r.seen[(c, day)], d.tickets, c, FirstResponse, day, day + DAY, day + DAY);
    assert Mean(r.rows[(c, day)], FirstResponse) == Mean(row, FirstResponse);
  }

  lemma RolledRead(d: Desk, c: ChatId, day: int, row: Stats, m: Measure)
    requires RolledRow(row, d, c, day)
    ensures Read(row, m) == CountIn(StampsOf(d, c, m), day, day + DAY)
  {
  }

  lemma RerunInState(r: Rollup, d: Desk, chats: nat, clock: int, date: int, c: ChatId)
    requires RollupInv(r, d, clock) && Dated(d, clock) && StartOfDay(date) in r.days
    requires (c, StartOfDay(date)) in AggregateDay(r, d, chats, date).rows
    ensures var after, k := AggregateDay(r, d, chats, date).rows, (c, StartOfDay(date));
      if k in r.rows then SameCounts(r.rows[k], after[k]) else Zero(after[k])
  {
    var day := StartOfDay(date);
    JobRows(r, d, chats, date, c, day);
    var row := AggregateDay(r, d, chats, date).rows[(c, day)];
    if c < chats && (c, day) in r.rows {
      SameRow(r, d, c, day, row);
    } else if c < chats {
      EmptyRow(r, d, clock, c, day, row);
    }
  }

  /** Rolling up a finished day again changes none of its opened, received and sent counts, nor
      its first-response average; rows it adds count nothing. */
  lemma RerunChangesNothing(db: Db, run: seq<Timed>, date: int, c: ChatId)
    requires Initial(db) && LegalRun(db, run) && StartOfDay(date) in Exec(db, run).rollup.days
    requires (c, StartOfDay(date)) in AggregateDay(Exec(db, run).rollup, Exec(db, run).desk, |Exec(db, run).dir.chats|, date).rows
    ensures var s := Exec(db, run);
      var after, k := AggregateDay(s.rollup, s.desk, |s.dir.chats|, date).rows, (c, StartOfDay(date));
      if k in s.rollup.rows then SameCounts(s.rollup.rows[k], after[k]) else Zero(after[k])
  {
    ReachableRollup(db, run);
    var s := Exec(db, run);
    InvDated(s);
    RerunInState(s.rollup, s.desk, |s.dir.chats|, s.clock, date, c);
  }
}
