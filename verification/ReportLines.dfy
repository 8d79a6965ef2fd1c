/** The lines an agent is shown, field by field, against the tables. */
module ReportLines {
  import opened Types
  import opened Counting
  import opened AnalyticsSpec
  import opened RoundedMeans
  import opened Engine
  import opened Reachable
  import opened RollupRuns
  import opened Reports
  import opened ReportAverages
  import opened AnalyticsServices

  // ---------- What the fields mean ----------

  function OpenedIn(tickets: seq<Ticket>, c: ChatId, lo: int, hi: int): set<int> {
    set t | 0 <= t < |tickets| && tickets[t].chat == c && lo <= tickets[t].createdAt < hi
  }

  function ClosedIn(tickets: seq<Ticket>, c: ChatId, lo: int, hi: int): set<int> {
    set t | 0 <= t < |tickets| && tickets[t].chat == c && tickets[t].closedAt.Some? && lo <= tickets[t].closedAt.value < hi
  }

  /** Rows of the chat's tickets, from customers or to them. */
  function RowsIn(d: Desk, direction: Direction, c: ChatId, lo: int, hi: int): set<int> {
    set m | 0 <= m < |d.messages| && d.messages[m].direction == direction && d.messages[m].ticket < |d.tickets|
            && d.tickets[d.messages[m].ticket].chat == c && lo <= d.messages[m].createdAt < hi
  }

  function UnresolvedOf(tickets: seq<Ticket>, c: ChatId): set<int> {
    set t | 0 <= t < |tickets| && tickets[t].chat == c && tickets[t].status in {Open, Pending, OnHold}
  }

  /** When a ticket got its first response, or was resolved. */
  predicate EndedIn(t: Ticket, c: ChatId, k: Duration, lo: int, hi: int) {
    t.chat == c && match k
      case FirstResponse => t.firstResponseAt.Some? && lo <= t.firstResponseAt.value < hi
      case Resolution => t.resolvedAt.Some? && lo <= t.resolvedAt.value < hi
  }

  /** How long that took, in milliseconds. */
  function Took(t: Ticket, k: Duration): int {
    match k
    case FirstResponse => if t.firstResponseAt.Some? then t.firstResponseAt.value - t.createdAt else 0
    case Resolution => if t.resolvedAt.Some? then t.resolvedAt.value - t.createdAt else 0
  }

  /** The values are the durations, in seconds, of exactly the tickets that ended in the range, one
      for each. */
  ghost predicate AreDurations(tickets: seq<Ticket>, c: ChatId, k: Duration, lo: int, hi: int, values: seq<real>) {
    exists picks: seq<TicketId> :: Picked(tickets, c, k, lo, hi, values, picks)
  }

  ghost predicate Picked(tickets: seq<Ticket>, c: ChatId, k: Duration, lo: int, hi: int, values: seq<real>, picks: seq<TicketId>) {
    && |picks| == |values|
    && (forall i, j :: 0 <= i < j < |picks| ==> picks[i] < picks[j])
    && (forall t: TicketId :: t in picks <==> t < |tickets| && EndedIn(tickets[t], c, k, lo, hi))
    && (forall i :: 0 <= i < |picks| ==> picks[i] < |tickets| && values[i] * 1000.0 == Took(tickets[picks[i]], k) as real)
  }

  lemma InSeconds(since: int, until: int)
    ensures Seconds(since, until) * 1000.0 == (until - since) as real
  {
  }

  lemma {:induction false} PicksOf(tickets: seq<Ticket>, c: ChatId, k: Duration, lo: int, hi: int) returns (picks: seq<TicketId>)
    ensures Picked(tickets, c, k, lo, hi, Durations(tickets, c, k, lo, hi), picks)
  {
    if tickets == [] {
      picks := [];
    } else {
      var n := |tickets| - 1;
      var t, values := tickets[n], Durations(tickets[..n], c, k, lo, hi);
      var before := PicksOf(tickets[..n], c, k, lo, hi);
      if EndedIn(t, c, k, lo, hi) {
        InSeconds(t.createdAt, Ended(t, k).value);
        OneMorePick(tickets, c, k, lo, hi, values, Seconds(t.createdAt, Ended(t, k).value), before);
        picks := before + [n];
      } else {
        NoMorePick(tickets, c, k, lo, hi, values, before);
        assert Durations(tickets, c, k, lo, hi) == values + [] == values;
        picks := before;
      }
    }
  }

  lemma OneMorePick(tickets: seq<Ticket>, c: ChatId, k: Duration, lo: int, hi: int, values: seq<real>, x: real, before: seq<TicketId>)
    requires tickets != [] && EndedIn(tickets[|tickets| - 1], c, k, lo, hi)
    requires Picked(tickets[..|tickets| - 1], c, k, lo, hi, values, before)
    requires x * 1000.0 == Took(tickets[|tickets| - 1], k) as real
    ensures Picked(tickets, c, k, lo, hi, values + [x], before + [|tickets| - 1])
  {
    var n := |tickets| - 1;
    forall t: TicketId
      ensures t in before + [n] <==> t < |tickets| && EndedIn(tickets[t], c, k, lo, hi)
    {
      assert t in before + [n] <==> t in before || t == n;
    }
  }

  lemma NoMorePick(tickets: seq<Ticket>, c: ChatId, k: Duration, lo: int, hi: int, values: seq<real>, before: seq<TicketId>)
    requires tickets != [] && !EndedIn(tickets[|tickets| - 1], c, k, lo, hi)
    requires Picked(tickets[..|tickets| - 1], c, k, lo, hi, values, before)
    ensures Picked(tickets, c, k, lo, hi, values, before)
  {
    forall t: TicketId
      ensures t in before <==> t < |tickets| && EndedIn(tickets[t], c, k, lo, hi)
    {
    }
  }

  /** The durations averaged are those of the tickets that ended in the range. */
  lemma DurationsAre(tickets: seq<Ticket>, c: ChatId, k: Duration, lo: int, hi: int)
    ensures AreDurations(tickets, c, k, lo, hi, Durations(tickets, c, k, lo, hi))
    ensures Durations(tickets, c, k, lo, hi) == [] <==> forall t: TicketId :: t < |tickets| ==> !EndedIn(tickets[t], c, k, lo, hi)
  {
    var picks := PicksOf(tickets, c, k, lo, hi);
    if t: TicketId :| t < |tickets| && EndedIn(tickets[t], c, k, lo, hi) {
      assert t in picks;
    }
    if picks != [] {
      assert picks[0] in picks;
    }
  }

  // ---------- Counting by sets ----------

  lemma StampsSize(s: Stamps, lo: int, hi: int, counted: set<int>)
    requires counted == set i | 0 <= i < |s| && s[i].Some? && lo <= s[i].value < hi
    ensures CountIn(s, lo, hi) == |counted|
  {
    assert counted == set i | 0 <= i < |s| && InFlags(s, lo, hi)[i];
    CountIsSize(InFlags(s, lo, hi), counted);
  }

  /** A direct count of what a field is to tell. */
  function Counted(d: Desk, c: ChatId, m: Measure, lo: int, hi: int): set<int> {
    match m
    case Opened => OpenedIn(d.tickets, c, lo, hi)
    case ClosedTickets => ClosedIn(d.tickets, c, lo, hi)
    case Received => RowsIn(d, In, c, lo, hi)
    case Sent => RowsIn(d, Out, c, lo, hi)
  }

  lemma CountedSize(d: Desk, c: ChatId, m: Measure, lo: int, hi: int)
    ensures CountIn(StampsOf(d, c, m), lo, hi) == |Counted(d, c, m, lo, hi)|
  {
    var s := StampsOf(d, c, m);
    assert Counted(d, c, m, lo, hi) == set i | 0 <= i < |s| && s[i].Some? && lo <= s[i].value < hi;
    StampsSize(s, lo, hi, Counted(d, c, m, lo, hi));
  }

  lemma BacklogSize(tickets: seq<Ticket>, c: ChatId)
    ensures Count(BacklogFlags(tickets, c)) == |UnresolvedOf(tickets, c)|
  {
    assert UnresolvedOf(tickets, c) == set i | 0 <= i < |BacklogFlags(tickets, c)| && BacklogFlags(tickets, c)[i];
    CountIsSize(BacklogFlags(tickets, c), UnresolvedOf(tickets, c));
  }

  // ---------- The counts of a line ----------

  /** The line answers the request: a line for its chat, over the tables as they are. */
  ghost predicate Answers(s: Db, q: Request, order: seq<int>, line: ChatReport) {
    && line.chat == q.chat && Answerable(s, q, order)
    && IsLine(s.rollup, s.desk, s.dir.chats, q.from, q.to, q.now, order, line)
  }

  /** In every reachable state, once the past days of a request have been rolled up, a line says:
      how many tickets of the chat were created, how many rows of its tickets came in and how many
      went out in the requested days, and how many are unresolved now. Its closings are never less
      than the table's, and equal exactly when no closing counted in a stored row was overwritten. */
  lemma LineCounts(db: Db, run: seq<Timed>, q: Request, order: seq<int>, line: ChatReport)
    requires Initial(db) && LegalRun(db, run) && Answers(Exec(db, run), q, order, line) && !q.Ahead()
    ensures var s, lo, hi := Exec(db, run), q.Lo(), q.Hi();
      && line.created == |OpenedIn(s.desk.tickets, q.chat, lo, hi)|
      && line.received == |RowsIn(s.desk, In, q.chat, lo, hi)|
      && line.sent == |RowsIn(s.desk, Out, q.chat, lo, hi)|
      && line.backlog == |UnresolvedOf(s.desk.tickets, q.chat)|
      && line.closed >= |ClosedIn(s.desk.tickets, q.chat, lo, hi)|
      && (line.closed == |ClosedIn(s.desk.tickets, q.chat, lo, hi)| <==> AllClosingsKept(s.rollup, s.desk, q.chat, order))
      && q.chat < |s.dir.chats| && line.title == s.dir.chats[q.chat].title
  {
    FieldIs(db, run, q, order, line, Opened);
    FieldIs(db, run, q, order, line, ClosedTickets);
    FieldIs(db, run, q, order, line, Received);
    FieldIs(db, run, q, order, line, Sent);
    BacklogSize(Exec(db, run).desk.tickets, q.chat);
  }

  function FieldOf(line: ChatReport, m: Measure): int {
    match m
    case Opened => line.created
    case ClosedTickets => line.closed
    case Received => line.received
    case Sent => line.sent
  }

  lemma FieldIs(db: Db, run: seq<Timed>, q: Request, order: seq<int>, line: ChatReport, m: Measure)
    requires Initial(db) && LegalRun(db, run) && Answers(Exec(db, run), q, order, line) && !q.Ahead()
    ensures var s := Exec(db, run);
      var direct := |Counted(s.desk, q.chat, m, q.Lo(), q.Hi())|;
      && direct <= FieldOf(line, m)
      && (direct == FieldOf(line, m) <==> m != ClosedTickets || AllClosingsKept(s.rollup, s.desk, q.chat, order))
  {
    ReportAgreesWithDirectCount(db, run, q, order, m);
    CountedSize(Exec(db, run).desk, q.chat, m, q.Lo(), q.Hi());
    FieldTotals(Exec(db, run), q, order, line, m);
  }

  /** A line of a request that starts after today, but reaches it, tells of today all the same. */
  lemma LineAhead(db: Db, run: seq<Timed>, q: Request, order: seq<int>, line: ChatReport)
    requires Initial(db) && LegalRun(db, run) && Answers(Exec(db, run), q, order, line) && q.Ahead()
    ensures var d, lo, hi := Exec(db, run).desk, q.Today(), q.Today() + DAY;
      && line.created == |OpenedIn(d.tickets, q.chat, lo, hi)| && line.closed == |ClosedIn(d.tickets, q.chat, lo, hi)|
      && line.received == |RowsIn(d, In, q.chat, lo, hi)| && line.sent == |RowsIn(d, Out, q.chat, lo, hi)|
  {
    FieldAhead(db, run, q, order, line, Opened);
    FieldAhead(db, run, q, order, line, ClosedTickets);
    FieldAhead(db, run, q, order, line, Received);
    FieldAhead(db, run, q, order, line, Sent);
  }

  lemma FieldAhead(db: Db, run: seq<Timed>, q: Request, order: seq<int>, line: ChatReport, m: Measure)
    requires Initial(db) && LegalRun(db, run) && Answers(Exec(db, run), q, order, line) && q.Ahead()
    ensures FieldOf(line, m) == |Counted(Exec(db, run).desk, q.chat, m, q.Today(), q.Today() + DAY)|
  {
    RequestAheadReportsToday(db, run, q, order, m);
    CountedSize(Exec(db, run).desk, q.chat, m, q.Today(), q.Today() + DAY);
    FieldTotals(Exec(db, run), q, order, line, m);
  }

  lemma FieldTotals(s: Db, q: Request, order: seq<int>, line: ChatReport, m: Measure)
    requires Answers(s, q, order, line) && forall i :: 0 <= i < |order| ==> (q.chat, order[i]) in s.rollup.rows
    ensures FieldOf(line, m) == Total(Report(s, q, order), m)
  {
  }

  // ---------- The averages of a line ----------

  /** The rounded mean of what ended on that day. */
  ghost predicate DayMean(tickets: seq<Ticket>, c: ChatId, k: Duration, day: int, mean: real) {
    exists values: seq<real>, m: int ::
      AreDurations(tickets, c, k, day, day + DAY, values) && IsRoundedMean(values, m) && mean == m as real
  }

  predicate HasEnded(tickets: seq<Ticket>, c: ChatId, k: Duration, day: int) {
    exists t :: 0 <= t < |tickets| && EndedIn(tickets[t], c, k, day, day + DAY)
  }

  /** The rounded mean of the daily means, over the days of the request on which anything ended;
      null exactly if there are none. */
  ghost predicate IsMeanOfDays(tickets: seq<Ticket>, q: Request, k: Duration, average: Option<int>) {
    exists days: seq<int>, means: seq<real> :: AreMeans(tickets, q, k, days, means)
      && if days == [] then average.None? else average.Some? && IsRoundedMean(means, average.value)
  }

  ghost predicate AreMeans(tickets: seq<Ticket>, q: Request, k: Duration, days: seq<int>, means: seq<real>) {
    && |days| == |means| && (forall i, j :: 0 <= i < j < |days| ==> days[i] != days[j])
    && (forall day :: day in days <==> day % DAY == 0 && q.Lo() <= day < q.Hi() && HasEnded(tickets, q.chat, k, day))
    && (forall i :: 0 <= i < |days| ==> DayMean(tickets, q.chat, k, days[i], means[i]))
  }

  lemma DayAverage(tickets: seq<Ticket>, c: ChatId, k: Duration, day: int)
    ensures var average := Average(Durations(tickets, c, k, day, day + DAY));
      && (average.Some? <==> HasEnded(tickets, c, k, day))
      && (average.Some? ==> DayMean(tickets, c, k, day, average.value as real))
  {
    var values := Durations(tickets, c, k, day, day + DAY);
    DurationsAre(tickets, c, k, day, day + DAY);
    AverageIsRoundedMean(values);
    if t: TicketId :| t < |tickets| && EndedIn(tickets[t], c, k, day, day + DAY) {
      assert HasEnded(tickets, c, k, day);
    }
  }

  /** The days whose mean is not null, in the order of the ranges. */
  ghost predicate Listed(ranges: seq<Stats>, all: seq<int>, tickets: seq<Ticket>, c: ChatId, k: Duration, days: seq<int>) {
    && |days| == |Means(ranges, k)|
    && (forall i, j :: 0 <= i < j < |days| ==> days[i] != days[j])
    && (forall day :: day in days <==> day in all && HasEnded(tickets, c, k, day))
    && (forall i :: 0 <= i < |days| ==> DayMean(tickets, c, k, days[i], Means(ranges, k)[i]))
  }

  /** Each range was averaged over what ended on its day. */
  ghost predicate MeansMatch(ranges: seq<Stats>, all: seq<int>, tickets: seq<Ticket>, c: ChatId, k: Duration) {
    && |ranges| == |all| && (forall i, j :: 0 <= i < j < |all| ==> all[i] != all[j])
    && (forall i :: 0 <= i < |all| ==> Mean(ranges[i], k) == Average(Durations(tickets, c, k, all[i], all[i] + DAY)))
  }

  lemma {:induction false} ListDays(ranges: seq<Stats>, all: seq<int>, tickets: seq<Ticket>, c: ChatId, k: Duration)
    returns (days: seq<int>)
    requires MeansMatch(ranges, all, tickets, c, k)
    ensures Listed(ranges, all, tickets, c, k, days)
    decreases |ranges|
  {
    if ranges == [] {
      days := [];
    } else {
      MatchBefore(ranges, all, tickets, c, k);
      var before := ListDays(ranges[..|ranges| - 1], all[..|ranges| - 1], tickets, c, k);
      days := MatchLast(ranges, all, tickets, c, k, before);
    }
  }

  lemma MatchLast(ranges: seq<Stats>, all: seq<int>, tickets: seq<Ticket>, c: ChatId, k: Duration, before: seq<int>)
    returns (days: seq<int>)
    requires MeansMatch(ranges, all, tickets, c, k) && ranges != []
    requires Listed(ranges[..|ranges| - 1], all[..|ranges| - 1], tickets, c, k, before)
    ensures Listed(ranges, all, tickets, c, k, days)
  {
    var n := |ranges| - 1;
    DayAverage(tickets, c, k, all[n]);
    days := if HasEnded(tickets, c, k, all[n]) then before + [all[n]] else before;
    OneMoreDay(ranges, all, tickets, c, k, before, days);
  }

  lemma MatchBefore(ranges: seq<Stats>, all: seq<int>, tickets: seq<Ticket>, c: ChatId, k: Duration)
    requires MeansMatch(ranges, all, tickets, c, k) && ranges != []
    ensures MeansMatch(ranges[..|ranges| - 1], all[..|ranges| - 1], tickets, c, k)
  {
  }

  lemma OneMoreDay(ranges: seq<Stats>, all: seq<int>, tickets: seq<Ticket>, c: ChatId, k: Duration, before: seq<int>, days: seq<int>)
    requires ranges != [] && |ranges| == |all| && forall i, j :: 0 <= i < j < |all| ==> all[i] != all[j]
    requires var n := |ranges| - 1;
      && Listed(ranges[..n], all[..n], tickets, c, k, before)
      && (Mean(ranges[n], k).Some? <==> HasEnded(tickets, c, k, all[n]))
      && (Mean(ranges[n], k).Some? ==> DayMean(tickets, c, k, all[n], Mean(ranges[n], k).value as real))
      && days == if HasEnded(tickets, c, k, all[n]) then before + [all[n]] else before
    ensures Listed(ranges, all, tickets, c, k, days)
  {
    var n := |ranges| - 1;
    assert all == all[..n] + [all[n]];
    assert all[n] !in all[..n];
    forall day
      ensures day in days <==> day in all && HasEnded(tickets, c, k, day)
    {
      assert day in all <==> day in all[..n] || day == all[n];
    }
  }

  /** In every reachable state, once the past days of a request have been rolled up, the
      first-response average of a line is the rounded mean of the rounded means of the request's
      days, each over all tickets first answered that day; so is its resolution average, if no
      resolution averaged for a stored day was overwritten since. */
  lemma LineAverages(db: Db, run: seq<Timed>, q: Request, order: seq<int>, line: ChatReport)
    requires Initial(db) && LegalRun(db, run) && Answers(Exec(db, run), q, order, line) && !q.Ahead()
    ensures var s := Exec(db, run);
      && IsMeanOfDays(s.desk.tickets, q, FirstResponse, line.avgFirstResponse)
      && ((forall day | day in order :: EndsKept(s.rollup, s.desk, q.chat, day, Resolution)) ==>
            IsMeanOfDays(s.desk.tickets, q, Resolution, line.avgResolution))
  {
    ReachableRollup(db, run);
    var s := Exec(db, run);
    MeanOfLine(s, q, order, line, FirstResponse);
    if forall day | day in order :: EndsKept(s.rollup, s.desk, q.chat, day, Resolution) {
      MeanOfLine(s, q, order, line, Resolution);
    }
  }

  function MeanField(line: ChatReport, k: Duration): Option<int> {
    match k
    case FirstResponse => line.avgFirstResponse
    case Resolution => line.avgResolution
  }

  lemma MeanOfLine(s: Db, q: Request, order: seq<int>, line: ChatReport, k: Duration)
    requires Inv(s) && RollupInv(s.rollup, s.desk, s.clock) && Answers(s, q, order, line) && !q.Ahead()
    requires k == FirstResponse || forall day | day in order :: EndsKept(s.rollup, s.desk, q.chat, day, k)
    ensures IsMeanOfDays(s.desk.tickets, q, k, MeanField(line, k))
  {
    OrderIsStored(s, q, order);
    OrderIsCovered(s, q, order);
    RangesOfDays(s, q, order, k);
    AllAsked(s, q, order, k);
    var days := ListDays(Report(s, q, order), DaysAsked(q, order), s.desk.tickets, q.chat, k);
    MeansAnswer(s.desk.tickets, q, k, Report(s, q, order), DaysAsked(q, order), days);
    MeanFieldIs(s, q, order, line, k);
  }

  lemma MeanFieldIs(s: Db, q: Request, order: seq<int>, line: ChatReport, k: Duration)
    requires Answers(s, q, order, line) && forall i :: 0 <= i < |order| ==> (q.chat, order[i]) in s.rollup.rows
    ensures MeanField(line, k) == Average(Means(Report(s, q, order), k))
  {
  }

  lemma MeansAnswer(tickets: seq<Ticket>, q: Request, k: Duration, ranges: seq<Stats>, all: seq<int>, days: seq<int>)
    requires Listed(ranges, all, tickets, q.chat, k, days)
    requires forall day :: HasEnded(tickets, q.chat, k, day) ==> (day in all <==> day % DAY == 0 && q.Lo() <= day < q.Hi())
    ensures IsMeanOfDays(tickets, q, k, Average(Means(ranges, k)))
  {
    AverageIsRoundedMean(Means(ranges, k));
    assert AreMeans(tickets, q, k, days, Means(ranges, k));
  }

  /** The day of each range. */
  function DaysAsked(q: Request, order: seq<int>): (all: seq<int>)
    ensures |all| == |order| + if q.Today() <= q.to then 1 else 0
    ensures forall i :: 0 <= i < |all| ==> all[i] == DayAt(q, order, i)
  {
    order + if q.Today() <= q.to then [q.Today()] else []
  }

  lemma OrderIsCovered(s: Db, q: Request, order: seq<int>)
    requires Inv(s) && RollupInv(s.rollup, s.desk, s.clock) && Answerable(s, q, order) && !q.Ahead()
    ensures Covered(s, q, order)
  {
    StoredDays(s.rollup, s.desk, s.clock, q, order);
    InvDated(s);
    PastIsRolledUp(s, q, order);
  }

  lemma RangesOfDays(s: Db, q: Request, order: seq<int>, k: Duration)
    requires RollupInv(s.rollup, s.desk, s.clock) && Covered(s, q, order)
    requires forall i :: 0 <= i < |order| ==> (q.chat, order[i]) in s.rollup.rows
    requires k == FirstResponse || forall day | day in order :: EndsKept(s.rollup, s.desk, q.chat, day, k)
    ensures MeansMatch(Report(s, q, order), DaysAsked(q, order), s.desk.tickets, q.chat, k)
  {
    ReportMeans(s, q, order, k);
    DaysCurrent(s, q, order, k);
    DaysAreDistinct(s, q, order);
    SamplesOfDays(s, q, order, k);
    SamplesMatch(Report(s, q, order), DaysAsked(q, order), Samples(s, q, order, k), s.desk.tickets, q.chat, k);
  }

  ghost predicate SampledDays(all: seq<int>, samples: seq<seq<real>>, tickets: seq<Ticket>, c: ChatId, k: Duration) {
    |samples| == |all| && forall i :: 0 <= i < |all| ==> samples[i] == Durations(tickets, c, k, all[i], all[i] + DAY)
  }

  lemma SamplesOfDays(s: Db, q: Request, order: seq<int>, k: Duration)
    requires Current(s, q, order, k)
    ensures SampledDays(DaysAsked(q, order), Samples(s, q, order, k), s.desk.tickets, q.chat, k)
  {
  }

  lemma SamplesMatch(ranges: seq<Stats>, all: seq<int>, samples: seq<seq<real>>, tickets: seq<Ticket>, c: ChatId, k: Duration)
    requires SampledDays(all, samples, tickets, c, k) && |ranges| == |samples|
    requires forall i :: 0 <= i < |ranges| ==> Mean(ranges[i], k) == Average(samples[i])
    requires forall i, j :: 0 <= i < j < |all| ==> all[i] != all[j]
    ensures MeansMatch(ranges, all, tickets, c, k)
  {
  }

  lemma DaysAreDistinct(s: Db, q: Request, order: seq<int>)
    requires Covered(s, q, order)
    ensures var all := DaysAsked(q, order);
      forall i, j :: 0 <= i < j < |all| ==> all[i] != all[j]
  {
    assert forall i :: 0 <= i < |order| ==> order[i] in order && q.Past(order[i]);
  }

  /** The days of the ranges with anything to average are those of the request. */
  lemma AllAsked(s: Db, q: Request, order: seq<int>, k: Duration)
    requires Covered(s, q, order)
    ensures forall day :: HasEnded(s.desk.tickets, q.chat, k, day) ==>
      (day in DaysAsked(q, order) <==> day % DAY == 0 && q.Lo() <= day < q.Hi())
  {
    forall day | HasEnded(s.desk.tickets, q.chat, k, day)
      ensures day in DaysAsked(q, order) <==> day % DAY == 0 && q.Lo() <= day < q.Hi()
    {
      if day in DaysAsked(q, order) {
        AskedIsInRange(s, q, order, day);
      }
      if day % DAY == 0 && q.Lo() <= day < q.Hi() {
        InRangeIsAsked(s, q, order, k, day);
      }
    }
  }

  lemma AskedIsInRange(s: Db, q: Request, order: seq<int>, day: int)
    requires Covered(s, q, order) && day in DaysAsked(q, order)
    ensures day % DAY == 0 && q.Lo() <= day < q.Hi()
  {
    var i: nat :| i < |DaysAsked(q, order)| && DaysAsked(q, order)[i] == day;
    DayIsWhole(q, order, i);
    DayInRequest(q, order, i, day);
  }

  lemma InRangeIsAsked(s: Db, q: Request, order: seq<int>, k: Duration, day: int)
    requires Covered(s, q, order) && HasEnded(s.desk.tickets, q.chat, k, day)
    requires day % DAY == 0 && q.Lo() <= day < q.Hi()
    ensures day in DaysAsked(q, order)
  {
    var t :| 0 <= t < |s.desk.tickets| && EndedIn(s.desk.tickets[t], q.chat, k, day, day + DAY);
    WholeDays(day, if q.to <= q.now then q.to else q.now);
    var i := RangeOf(s, q, order, t, k);
    DayIsItsRange(Ended(s.desk.tickets[t], k).value, day);
    assert DaysAsked(q, order)[i] == day;
  }

  /** A whole day before the end of another is over by then. */
  lemma WholeDays(day: int, last: int)
    requires day % DAY == 0 && day < StartOfDay(last) + DAY
    ensures day + DAY <= StartOfDay(last) + DAY
  {
    FloorBelow(day, last);
  }
}
