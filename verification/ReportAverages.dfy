/** The averages of a report are rounded means of rounded daily means: they stay within the
    rounded bounds of the underlying samples. */
module ReportAverages {
  import opened Types
  import opened AnalyticsSpec
  import opened Averages
  import opened DeskInvariants
  import opened Engine
  import opened Reachable
  import opened RollupRuns
  import opened Reports

  // ---------- Samples ----------

  /** What the average of a stored day was computed from, when it was last rolled up. */
  function StoredSamples(r: Rollup, c: ChatId, day: int, k: Duration): seq<real> {
    if (c, day) in r.seen then Durations(r.seen[(c, day)], c, k, day, day + DAY) else []
  }

  function LiveSamples(d: Desk, q: Request, k: Duration): seq<real> {
    Durations(d.tickets, q.chat, k, q.Today(), q.Today() + DAY)
  }

  function Samples(db: Db, q: Request, order: seq<int>, k: Duration): (s: seq<seq<real>>)
    ensures |s| == |order| + if q.Today() <= q.to then 1 else 0
    ensures forall i :: 0 <= i < |order| ==> s[i] == StoredSamples(db.rollup, q.chat, order[i], k)
    ensures q.Today() <= q.to ==> s[|order|] == LiveSamples(db.desk, q, k)
  {
    seq(|order|, i requires 0 <= i < |order| => StoredSamples(db.rollup, q.chat, order[i], k))
    + if q.Today() <= q.to then [LiveSamples(db.desk, q, k)] else []
  }

  lemma RowMean(r: Rollup, d: Desk, c: ChatId, day: int, k: Duration)
    requires RowsTrue(r, d) && (c, day) in r.rows
    ensures Mean(r.rows[(c, day)], k) == Average(StoredSamples(r, c, day, k))
  {
    assert RowAtTrue(r, d, c, day);
  }

  lemma ReportMeans(db: Db, q: Request, order: seq<int>, k: Duration)
    requires RowsTrue(db.rollup, db.desk)
    requires forall i :: 0 <= i < |order| ==> (q.chat, order[i]) in db.rollup.rows
    ensures var ranges, samples := Report(db, q, order), Samples(db, q, order, k);
      && |ranges| == |samples|
      && forall i :: 0 <= i < |ranges| ==> Mean(ranges[i], k) == Average(samples[i])
  {
    var ranges, samples := Report(db, q, order), Samples(db, q, order, k);
    forall i | 0 <= i < |order|
      ensures Mean(ranges[i], k) == Average(samples[i])
    {
      RowMean(db.rollup, db.desk, q.chat, order[i], k);
    }
  }

  /** The reported average: null when no day had a sample, else between the bounds. */
  ghost predicate AverageFits(db: Db, q: Request, order: seq<int>, k: Duration, a: real, b: real) {
    && (forall i :: 0 <= i < |order| ==> (q.chat, order[i]) in db.rollup.rows)
    && var avg := Average(Means(Report(db, q, order), k));
       && (avg.None? <==> forall i :: 0 <= i < |Samples(db, q, order, k)| ==> Samples(db, q, order, k)[i] == [])
       && (avg.Some? ==> Round(a) <= avg.value <= Round(b))
  }

  /** Both averages of a report, of whatever days were stored, stay within the rounded bounds of
      the samples its days were computed from. */
  lemma AverageWithinSamples(db: Db, run: seq<Timed>, q: Request, order: seq<int>, k: Duration, a: real, b: real)
    requires Initial(db) && LegalRun(db, run)
    requires IsStoredOrder(Exec(db, run).rollup, q.chat, q.from, q.to, q.now, order)
    requires forall i :: 0 <= i < |Samples(Exec(db, run), q, order, k)| ==> AllWithin(Samples(Exec(db, run), q, order, k)[i], a, b)
    ensures AverageFits(Exec(db, run), q, order, k, a, b)
  {
    ReachableRollup(db, run);
    AverageInState(Exec(db, run), q, order, k, a, b);
  }

  lemma AverageInState(s: Db, q: Request, order: seq<int>, k: Duration, a: real, b: real)
    requires RowsTrue(s.rollup, s.desk)
    requires forall i :: 0 <= i < |order| ==> (q.chat, order[i]) in s.rollup.rows
    requires forall i :: 0 <= i < |Samples(s, q, order, k)| ==> AllWithin(Samples(s, q, order, k)[i], a, b)
    ensures AverageFits(s, q, order, k, a, b)
  {
    ReportMeans(s, q, order, k);
    TwoLevelsWithin(Report(s, q, order), Samples(s, q, order, k), k, a, b);
  }

  // ---------- When the samples are what the table says now ----------

  /** No time that ended a duration sampled for the day has been overwritten since. */
  ghost predicate EndsKept(r: Rollup, d: Desk, c: ChatId, day: int, k: Duration) {
    && (c, day) in r.seen && |r.seen[(c, day)]| <= |d.tickets|
    && RangeKept(EndStamps(r.seen[(c, day)], c, k), EndStamps(d.tickets, c, k), day, day + DAY)
  }

  /** In every reachable state, a stored day was averaged over exactly the durations the table has
      for that day if and only if none of the times that ended them has been overwritten since; the
      times of first responses never are. */
  lemma SamplesAreCurrent(db: Db, run: seq<Timed>, c: ChatId, day: int, k: Duration)
    requires Initial(db) && LegalRun(db, run) && (c, day) in Exec(db, run).rollup.rows
    ensures var s := Exec(db, run);
      && (StoredSamples(s.rollup, c, day, k) == Durations(s.desk.tickets, c, k, day, day + DAY) <==>
            EndsKept(s.rollup, s.desk, c, day, k))
      && (k == FirstResponse ==> EndsKept(s.rollup, s.desk, c, day, k))
  {
    ReachableRollup(db, run);
    CurrentInState(Exec(db, run).rollup, Exec(db, run).desk, c, day, k);
  }

  lemma CurrentInState(r: Rollup, d: Desk, c: ChatId, day: int, k: Duration)
    requires RowsTrue(r, d) && (c, day) in r.rows
    ensures StoredSamples(r, c, day, k) == Durations(d.tickets, c, k, day, day + DAY) <==> EndsKept(r, d, c, day, k)
    ensures k == FirstResponse ==> EndsKept(r, d, c, day, k)
  {
    assert RowAtTrue(r, d, c, day);
    DurationsKeptIff(r.seen[(c, day)], d.tickets, c, k, day, day + DAY, day + DAY);
  }

  predicate SampleAt(tickets: seq<Ticket>, c: ChatId, k: Duration, lo: int, hi: int, i: int, x: real) {
    && 0 <= i < |tickets| && tickets[i].chat == c && StampIn(Ended(tickets[i], k), lo, hi)
    && x == Seconds(tickets[i].createdAt, Ended(tickets[i], k).value)
  }

  lemma {:induction false} DurationsListed(tickets: seq<Ticket>, c: ChatId, k: Duration, lo: int, hi: int, x: real)
    ensures x in Durations(tickets, c, k, lo, hi) <==> exists i :: SampleAt(tickets, c, k, lo, hi, i, x)
  {
    if tickets != [] {
      var n := |tickets| - 1;
      DurationsListed(tickets[..n], c, k, lo, hi, x);
      if i :| SampleAt(tickets[..n], c, k, lo, hi, i, x) {
        assert SampleAt(tickets, c, k, lo, hi, i, x);
      }
      if i :| SampleAt(tickets, c, k, lo, hi, i, x) && i < n {
        assert SampleAt(tickets[..n], c, k, lo, hi, i, x);
      }
      if SampleAt(tickets, c, k, lo, hi, n, x) {
        var last := [x];
        assert Durations(tickets, c, k, lo, hi) == Durations(tickets[..n], c, k, lo, hi) + last;
        assert last[0] in Durations(tickets, c, k, lo, hi);
      }
    }
  }

  predicate InSomeRange(samples: seq<seq<real>>, x: real) {
    exists k :: 0 <= k < |samples| && x in samples[k]
  }

  /** The durations of the requested days. */
  function Asked(s: Db, q: Request, k: Duration): seq<real> {
    Durations(s.desk.tickets, q.chat, k, q.Lo(), q.Hi())
  }

  /** The days of a request, and what is known of the state it is put to. */
  ghost predicate Covered(s: Db, q: Request, order: seq<int>) {
    && Whole(order) && Dated(s.desk, s.clock) && s.clock <= q.now && RolledUp(s.rollup, s.desk, q) && !q.Ahead()
    && (forall day :: day in order <==> (q.chat, day) in s.rollup.rows && q.Past(day))
  }

  function DayAt(q: Request, order: seq<int>, i: nat): int {
    if i < |order| then order[i] else q.Today()
  }

  /** Each range was averaged over what the table has for its day. */
  ghost predicate Current(s: Db, q: Request, order: seq<int>, k: Duration) {
    forall i: nat :: i < |Samples(s, q, order, k)| ==>
      Samples(s, q, order, k)[i] == Durations(s.desk.tickets, q.chat, k, DayAt(q, order, i), DayAt(q, order, i) + DAY)
  }

  /** The ranges of a report then see exactly the durations of the requested days. */
  lemma SameSamples(s: Db, q: Request, order: seq<int>, k: Duration, x: real)
    requires Covered(s, q, order) && Current(s, q, order, k)
    ensures InSomeRange(Samples(s, q, order, k), x) <==> x in Asked(s, q, k)
  {
    if x in Asked(s, q, k) {
      AskedIsSampled(s, q, order, k, x);
    }
    if InSomeRange(Samples(s, q, order, k), x) {
      SampledIsAsked(s, q, order, k, x);
    }
  }

  lemma AskedIsSampled(s: Db, q: Request, order: seq<int>, k: Duration, x: real)
    requires Covered(s, q, order) && Current(s, q, order, k) && x in Asked(s, q, k)
    ensures InSomeRange(Samples(s, q, order, k), x)
  {
    var tickets := s.desk.tickets;
    DurationsListed(tickets, q.chat, k, q.Lo(), q.Hi(), x);
    var t :| SampleAt(tickets, q.chat, k, q.Lo(), q.Hi(), t, x);
    var i := RangeOf(s, q, order, t, k);
    OnItsDay(tickets, q, order, k, i, t, x);
    assert x in Samples(s, q, order, k)[i];
  }

  lemma DayIsWhole(q: Request, order: seq<int>, i: nat)
    requires Whole(order)
    ensures DayAt(q, order, i) % DAY == 0
  {
  }

  lemma OnItsDay(tickets: seq<Ticket>, q: Request, order: seq<int>, k: Duration, i: nat, t: int, x: real)
    requires Whole(order) && SampleAt(tickets, q.chat, k, q.Lo(), q.Hi(), t, x)
    requires StartOfDay(Ended(tickets[t], k).value) == DayAt(q, order, i)
    ensures x in Durations(tickets, q.chat, k, DayAt(q, order, i), DayAt(q, order, i) + DAY)
  {
    var day := DayAt(q, order, i);
    DayIsWhole(q, order, i);
    DayIsItsRange(Ended(tickets[t], k).value, day);
    assert SampleAt(tickets, q.chat, k, day, day + DAY, t, x);
    DurationsListed(tickets, q.chat, k, day, day + DAY, x);
  }

  lemma SampledIsAsked(s: Db, q: Request, order: seq<int>, k: Duration, x: real)
    requires Covered(s, q, order) && Current(s, q, order, k) && InSomeRange(Samples(s, q, order, k), x)
    ensures x in Asked(s, q, k)
  {
    var samples := Samples(s, q, order, k);
    var i: nat :| i < |samples| && x in samples[i];
    OnAskedDay(s.desk.tickets, q, order, k, i, x);
  }

  lemma OnAskedDay(tickets: seq<Ticket>, q: Request, order: seq<int>, k: Duration, i: nat, x: real)
    requires Whole(order) && (forall day :: day in order ==> q.Past(day)) && !q.Ahead()
    requires i < |order| || (i == |order| && q.Today() <= q.to)
    requires x in Durations(tickets, q.chat, k, DayAt(q, order, i), DayAt(q, order, i) + DAY)
    ensures x in Durations(tickets, q.chat, k, q.Lo(), q.Hi())
  {
    var day := DayAt(q, order, i);
    DurationsListed(tickets, q.chat, k, day, day + DAY, x);
    var t :| SampleAt(tickets, q.chat, k, day, day + DAY, t, x);
    DayInRequest(q, order, i, Ended(tickets[t], k).value);
    assert SampleAt(tickets, q.chat, k, q.Lo(), q.Hi(), t, x);
    DurationsListed(tickets, q.chat, k, q.Lo(), q.Hi(), x);
  }

  lemma RangeOf(s: Db, q: Request, order: seq<int>, t: TicketId, k: Duration) returns (i: nat)
    requires Covered(s, q, order)
    requires t < |s.desk.tickets| && s.desk.tickets[t].chat == q.chat
    requires StampIn(Ended(s.desk.tickets[t], k), q.Lo(), q.Hi())
    ensures i < |order| || (i == |order| && q.Today() <= q.to)
    ensures StartOfDay(Ended(s.desk.tickets[t], k).value) == DayAt(q, order, i)
  {
    var at := Ended(s.desk.tickets[t], k).value;
    FloorBelow(at, q.now);
    DaysOfRange(at, q);
    if q.Past(StartOfDay(at)) {
      TicketTimesCovered(s.rollup, s.desk, q, order, t, at);
      i :| 0 <= i < |order| && order[i] == StartOfDay(at);
    } else {
      i := |order|;
    }
  }

  lemma DayInRequest(q: Request, order: seq<int>, i: nat, t: int)
    requires Whole(order) && (forall day :: day in order ==> q.Past(day)) && !q.Ahead()
    requires i < |order| || (i == |order| && q.Today() <= q.to)
    requires InRange(t, DayAt(q, order, i), DayAt(q, order, i) + DAY)
    ensures InRange(t, q.Lo(), q.Hi())
  {
    DayIsWhole(q, order, i);
    DayIsItsRange(t, DayAt(q, order, i));
    assert i < |order| ==> order[i] in order;
    DaysOfRange(t, q);
  }

  /** Null exactly when the requested days have no such duration, else between the bounds. */
  ghost predicate AverageIsDirect(s: Db, q: Request, order: seq<int>, k: Duration, a: real, b: real) {
    && (forall i :: 0 <= i < |order| ==> (q.chat, order[i]) in s.rollup.rows)
    && var avg := Average(Means(Report(s, q, order), k));
       && (avg.None? <==> Asked(s, q, k) == [])
       && (avg.Some? ==> Round(a) <= avg.value <= Round(b))
  }

  /** In every reachable state, once the past days of a request have been rolled up, the reported
      first-response average is null exactly when no first response falls in the requested days,
      and otherwise lies between the rounded smallest and largest of them. So does the resolution
      average, when no resolution averaged for a stored day has been overwritten since. */
  lemma AverageOverRequest(db: Db, run: seq<Timed>, q: Request, order: seq<int>, k: Duration, a: real, b: real)
    requires Initial(db) && LegalRun(db, run) && Answerable(Exec(db, run), q, order) && !q.Ahead()
    requires k == FirstResponse || forall day | day in order :: EndsKept(Exec(db, run).rollup, Exec(db, run).desk, q.chat, day, k)
    requires AllWithin(Asked(Exec(db, run), q, k), a, b)
    ensures AverageIsDirect(Exec(db, run), q, order, k, a, b)
  {
    ReachableRollup(db, run);
    AverageDirect(Exec(db, run), q, order, k, a, b);
  }

  lemma AverageDirect(s: Db, q: Request, order: seq<int>, k: Duration, a: real, b: real)
    requires Inv(s) && RollupInv(s.rollup, s.desk, s.clock) && Answerable(s, q, order) && !q.Ahead()
    requires k == FirstResponse || forall day | day in order :: EndsKept(s.rollup, s.desk, q.chat, day, k)
    requires AllWithin(Asked(s, q, k), a, b)
    ensures AverageIsDirect(s, q, order, k, a, b)
  {
    StoredDays(s.rollup, s.desk, s.clock, q, order);
    InvDated(s);
    OrderIsStored(s, q, order);
    DaysCurrent(s, q, order, k);
    SamplesAreAsked(s, q, order, k, a, b);
    AverageInState(s, q, order, k, a, b);
  }

  /** The live range always is. */
  lemma DaysCurrent(s: Db, q: Request, order: seq<int>, k: Duration)
    requires RowsTrue(s.rollup, s.desk)
    requires forall i :: 0 <= i < |order| ==> (q.chat, order[i]) in s.rollup.rows
    requires k == FirstResponse || forall day | day in order :: EndsKept(s.rollup, s.desk, q.chat, day, k)
    ensures Current(s, q, order, k)
  {
    forall i: nat | i < |Samples(s, q, order, k)|
      ensures Samples(s, q, order, k)[i] ==
        Durations(s.desk.tickets, q.chat, k, DayAt(q, order, i), DayAt(q, order, i) + DAY)
    {
      if i < |order| {
        assert order[i] in order;
        CurrentInState(s.rollup, s.desk, q.chat, order[i], k);
      }
    }
  }

  lemma SamplesAreAsked(s: Db, q: Request, order: seq<int>, k: Duration, a: real, b: real)
    requires Covered(s, q, order) && Current(s, q, order, k) && AllWithin(Asked(s, q, k), a, b)
    ensures var samples := Samples(s, q, order, k);
      && (forall i :: 0 <= i < |samples| ==> AllWithin(samples[i], a, b))
      && ((forall i :: 0 <= i < |samples| ==> samples[i] == []) <==> Asked(s, q, k) == [])
  {
    var samples, asked := Samples(s, q, order, k), Asked(s, q, k);
    forall i, j | 0 <= i < |samples| && 0 <= j < |samples[i]|
      ensures a <= samples[i][j] <= b
    {
      SameSamples(s, q, order, k, samples[i][j]);
      assert samples[i][j] in samples[i];
    }
    if asked != [] {
      SameSamples(s, q, order, k, asked[0]);
      assert asked[0] in asked;
    }
    if i :| 0 <= i < |samples| && samples[i] != [] {
      SameSamples(s, q, order, k, samples[i][0]);
      assert samples[i][0] in samples[i];
    }
  }

  /** Durations are never negative, in any reachable state and any range. */
  lemma DurationsArePositive(db: Db, run: seq<Timed>, c: ChatId, k: Duration, lo: int, hi: int)
    requires Initial(db) && LegalRun(db, run)
    ensures AllWithin(Durations(Exec(db, run).desk.tickets, c, k, lo, hi), 0.0, Seconds(0, Exec(db, run).clock))
  {
    ReachableRollup(db, run);
    DurationsInRange(Exec(db, run).desk.tickets, Exec(db, run).clock, c, k, lo, hi);
  }

  lemma {:induction false} DurationsInRange(tickets: seq<Ticket>, clock: int, c: ChatId, k: Duration, lo: int, hi: int)
    requires forall i :: 0 <= i < |tickets| ==> TicketTimes(tickets[i], clock)
    ensures AllWithin(Durations(tickets, c, k, lo, hi), 0.0, Seconds(0, clock))
  {
    if tickets != [] {
      DurationsInRange(tickets[..|tickets| - 1], clock, c, k, lo, hi);
      assert TicketTimes(tickets[|tickets| - 1], clock);
    }
  }
}
