/** Legal runs from an empty desk in which the code does not do what one would expect of it. */
module Examples {
  import opened Types
  import opened Counting
  import opened DirectorySpec
  import opened ThreadGrouping
  import opened RoutingSpec
  import opened DeskSpec
  import opened DeskInvariants
  import opened DeskKeeps
  import opened AnalyticsSpec
  import opened Engine
  import opened Reachable
  import opened Redelivery
  import opened Reports
  import opened RollupRuns
  import opened QuoteRuns
  import opened LastGivenRuns
  import opened ListingSpec
  import opened Paging

  // ---------- A desk with one chat ----------

  /** Three agents, the first two of them team 0; one chat, routed round-robin to that team; two
      customers. Tickets stay live for half an hour. */
  const OFFICE := Directory(
    30, [Agent(1, true), Agent(2, true), Agent(3, true)], 1, {(0, 0), (0, 1)}, 0, map[], 0,
    [Chat(100, "chat", Some(0), None, RoundRobin, Normal, None, [])],
    [Customer(7, None, "ann"), Customer(8, None, "bob")], 0)

  const START := Db(1, OFFICE, EMPTY_DESK, Rollup(map[], {}, map[]))

  function Says(from: int, name: string, tgId: int): Incoming {
    Incoming(100, "chat", tgId, from, None, name, None, None)
  }

  lemma StartIsInitial()
    ensures Initial(START)
  {
  }

  lemma AnnIsAccepted(p: Picks, tgId: int)
    requires p.excluded.None?
    ensures Accepts(OFFICE, Says(7, "ann", tgId), p) && Accepts(OFFICE, Says(8, "bob", tgId), p)
    ensures Resolved(OFFICE, Says(7, "ann", tgId)) == OFFICE && Resolved(OFFICE, Says(8, "bob", tgId)) == OFFICE
    ensures ChatOf(OFFICE, 100) == 0 && CustomerOf(OFFICE, 7) == 0 && CustomerOf(OFFICE, 8) == 1
  {
    assert OFFICE.chats[0].telegramId == 100;
    assert OFFICE.customers[0].telegramId == 7 && OFFICE.customers[1].telegramId == 8;
  }

  // ---------- Ann's first message ----------

  function AnnWrites(now: int, doneAt: int): Timed {
    Timed(now, Ingest(Says(7, "ann", 11), Picks(None, None, None, [0, 1], doneAt), Complete))
  }

  function AnnsTicket(now: int): Ticket {
    NewTicket(0, 0, 11, Normal, Some(0), Some(0), now)
  }

  function AnnsDesk(now: int, doneAt: int): Desk {
    Desk([AnnsTicket(now)],
         [InboundRow(0, Says(7, "ann", 11), now), Message(0, Out, FromBot, None, None, Some(AUTO_ACK_TEXT), doneAt)],
         [],
         [Job(0, 1, 100, Some(AUTO_ACK_TEXT), Some(11))],
         History([AnnsTicket(now)], map[0 := Arrival(Says(7, "ann", 11), None)], {}, {}, map[0 := now]))
  }

  lemma TeamOrder(order: seq<AgentId>)
    requires order == [0, 1] || order == [1, 0]
    ensures IsMemberOrder(OFFICE, 0, order)
  {
    assert 0 in order && 1 in order;
  }

  lemma AnnIsPlaced(p: Picks, now: int)
    requires p.excluded.None? && p.anchor.None? && p.active.None? && p.members == [0, 1]
    ensures DecisionFor(OFFICE, EMPTY_DESK, p, now).CreateNew?
    ensures Place(OFFICE, EMPTY_DESK, Says(7, "ann", 11), p, now) == Create(EMPTY_DESK, AnnsTicket(now))
  {
    AnnIsAccepted(p, 11);
    assert LastKey([], [0, 1])[0] == 0 && LastKey([], [0, 1])[1] == 0;
    assert FirstMin([0, 1], LastKey([], [0, 1])) == 0;
    assert Newborn(OFFICE, EMPTY_DESK, Says(7, "ann", 11), p, now) == AnnsTicket(now);
  }

  lemma AnnIsRecorded(p: Picks, now: int)
    requires p.excluded.None? && p.anchor.None? && p.active.None? && p.members == [0, 1]
    ensures IngestDesk(OFFICE, EMPTY_DESK, Says(7, "ann", 11), p, now, Complete) == AnnsDesk(now, p.doneAt)
  {
    AnnIsAccepted(p, 11);
    AnnIsPlaced(p, now);
    var placed := Create(EMPTY_DESK, AnnsTicket(now));
    assert placed.tickets == [AnnsTicket(now)] && !HasRow(placed.messages, 0, 11);
    assert AnnsTicket(now).(lastClient := Some(11), updatedAt := now) == AnnsTicket(now);
  }

  lemma AnnArrives(now: int, doneAt: int)
    requires 1 <= now <= doneAt
    ensures Legal(START, AnnWrites(now, doneAt))
    ensures Apply(START, AnnWrites(now, doneAt)) == Db(doneAt, OFFICE, AnnsDesk(now, doneAt), START.rollup)
    ensures DecisionFor(OFFICE, EMPTY_DESK, AnnWrites(now, doneAt).step.picks, now).CreateNew?
  {
    var p := AnnWrites(now, doneAt).step.picks;
    AnnIsAccepted(p, 11);
    TeamOrder([0, 1]);
    AnnIsPlaced(p, now);
    AnnIsRecorded(p, now);
  }

  /** A legal step, as a run of its own. */
  lemma OneStep(db: Db, ts: Timed)
    requires Legal(db, ts)
    ensures LegalRun(db, [ts]) && Exec(db, [ts]) == Apply(db, ts)
  {
    assert [ts][1..] == [];
  }

  lemma {:induction false} Then(db: Db, a: seq<Timed>, s1: Db, b: seq<Timed>, s2: Db)
    requires LegalRun(db, a) && Exec(db, a) == s1 && LegalRun(s1, b) && Exec(s1, b) == s2
    ensures LegalRun(db, a + b) && Exec(db, a + b) == s2
    decreases |a|
  {
    if a == [] {
      assert a + b == b;
    } else {
      var next := FirstStep(db, a);
      Then(next, a[1..], s1, b, s2);
      assert a + b == [a[0]] + (a[1..] + b);
      StepThen(db, a[0], next, a[1..] + b);
    }
  }

  lemma FirstStep(db: Db, run: seq<Timed>) returns (next: Db)
    requires LegalRun(db, run) && run != []
    ensures next == Apply(db, run[0]) && Legal(db, run[0]) && LegalRun(next, run[1..]) && Exec(db, run) == Exec(next, run[1..])
  {
    next := Apply(db, run[0]);
  }

  lemma StepThen(db: Db, ts: Timed, next: Db, rest: seq<Timed>)
    requires Legal(db, ts) && next == Apply(db, ts) && LegalRun(next, rest)
    ensures LegalRun(db, [ts] + rest) && Exec(db, [ts] + rest) == Exec(next, rest)
  {
    assert ([ts] + rest)[0] == ts && ([ts] + rest)[1..] == rest;
  }

  /** Ann's message is legal and leaves her desk. */
  lemma AnnStarts(now: int, doneAt: int)
    requires 1 <= now <= doneAt
    ensures LegalRun(START, [AnnWrites(now, doneAt)])
    ensures Exec(START, [AnnWrites(now, doneAt)]) == Db(doneAt, OFFICE, AnnsDesk(now, doneAt), START.rollup)
  {
    AnnArrives(now, doneAt);
    OneStep(START, AnnWrites(now, doneAt));
  }

  // ---------- A late redelivery opens a second ticket ----------

  const WINDOW: int := 30 * MINUTE

  /** The same message again, after the window; the lookup finds Ann's first ticket. */
  function AnnAgain(now: int): Timed {
    Timed(now, Ingest(Says(7, "ann", 11), Picks(None, None, Some(0), [0, 1], now), Complete))
  }

  lemma AnnIsGoodFirst()
    ensures GoodFirst(START, AnnWrites(10, 10))
  {
    AnnArrives(10, 10);
    AnnIsAccepted(AnnWrites(10, 10).step.picks, 11);
    InitialInv(START);
  }

  lemma AgainIsLegal(now: int)
    requires 10 <= now
    ensures Legal(Db(10, OFFICE, AnnsDesk(10, 10), START.rollup), AnnAgain(now))
  {
    AnnIsAccepted(AnnAgain(now).step.picks, 11);
    TeamOrder([0, 1]);
    assert Candidate(AnnsDesk(10, 10), 0, 0, 0);
  }

  /** Ann's message, and the queue's second delivery of it when the idle window has just passed:
      two tickets, the message recorded on both. */
  lemma LateRedeliveryDuplicates()
    ensures Initial(START)
    ensures var first, second := AnnWrites(10, 10), AnnAgain(10 + WINDOW);
      && GoodFirst(START, first) && LegalRun(START, [first] + [second])
      && second.step.msg == first.step.msg && !Recognised(START, first, second.now)
      && Duplicated(Exec(START, [first] + [second]).desk)
  {
    StartIsInitial();
    var second, s := AnnAgain(10 + WINDOW), Db(10, OFFICE, AnnsDesk(10, 10), START.rollup);
    AnnIsGoodFirst();
    AnnStarts(10, 10);
    AgainIsLegal(10 + WINDOW);
    OneStep(s, second);
    LateIsDuplicated(s, second);
    Then(START, [AnnWrites(10, 10)], s, [second], Apply(s, second));
  }

  /** The message is on two tickets. */
  predicate Duplicated(d: Desk) {
    |d.tickets| == 2 && HasRow(d.messages, 0, 11) && HasRow(d.messages, 1, 11)
  }

  lemma LateIsDuplicated(s: Db, second: Timed)
    requires s == Db(10, OFFICE, AnnsDesk(10, 10), START.rollup) && second == AnnAgain(10 + WINDOW) && Legal(s, second)
    ensures Duplicated(Apply(s, second).desk)
  {
    var p := second.step.picks;
    AnnIsAccepted(p, 11);
    assert DecisionFor(OFFICE, s.desk, p, second.now).CreateNew?;
    assert Shape(s.desk) by {
      InitialInv(START);
      AnnArrives(10, 10);
      StepKeepsInv(START, AnnWrites(10, 10));
    }
    CreatedIngest(OFFICE, s.desk, Says(7, "ann", 11), p, second.now);
    FirstRowStays(s, second);
  }

  lemma FirstRowStays(s: Db, second: Timed)
    requires s.desk == AnnsDesk(10, 10) && second.step.Ingest?
    ensures HasRow(Apply(s, second).desk.messages, 0, 11)
  {
    IngestAddsRows(s.dir, s.desk, second.step.msg, second.step.picks, second.now, second.step.cut);
    assert Apply(s, second).desk.messages[0] == s.desk.messages[0];
  }

  // ---------- A ticket closed again counts on both days ----------

  function Closes(now: int): Timed { Timed(now, PatchTicket(0, StatusOnly(Closed), 0)) }

  /** Written, closed by an agent and rolled up, then closed again the day after. */
  function ClosedAgain(): seq<Timed> {
    [AnnWrites(DAY + 10, DAY + 10)] + DaysGoBy()
  }

  function DaysGoBy(): seq<Timed> {
    [Closes(DAY + 20)] + ([Timed(2 * DAY + 5, Nightly)] + [Closes(2 * DAY + 10)])
  }

  const TWO_DAYS := Request(0, DAY, 2 * DAY + 10, 2 * DAY + 10)

  lemma Closing(db: Db, now: int)
    requires db.dir == OFFICE && |db.desk.tickets| == 1 && db.clock <= now
    ensures var e := Apply(db, Closes(now));
      && Legal(db, Closes(now)) && e.clock == now && e.dir == OFFICE && e.rollup == db.rollup
      && |e.desk.tickets| == 1 && e.desk.tickets[0].chat == db.desk.tickets[0].chat
      && e.desk.tickets[0].closedAt == Some(now)
  {
  }

  lemma RollingUp(db: Db, now: int)
    requires db.dir == OFFICE && db.clock <= now
    ensures var ts, e := Timed(now, Nightly), Apply(db, Timed(now, Nightly));
      && Legal(db, ts) && e.clock == now && e.dir == OFFICE && e.desk == db.desk
      && e.rollup == NightlyJob(db.rollup, db.desk, 1, now)
  {
  }

  ghost predicate ReportsTwo(s: Db) {
    && Answerable(s, TWO_DAYS, [DAY]) && (0, DAY) in s.rollup.rows
    && Total(Report(s, TWO_DAYS, [DAY]), ClosedTickets) == 2
    && CountIn(StampsOf(s.desk, 0, ClosedTickets), TWO_DAYS.Lo(), TWO_DAYS.Hi()) == 1
  }

  /** A legal run of requests any agent can make: the report counts two closings where the table
      holds one. */
  lemma ClosedAgainCountsTwice()
    ensures Initial(START)
    ensures LegalRun(START, ClosedAgain()) && ReportsTwo(Exec(START, ClosedAgain()))
  {
    StartIsInitial();
    var s1 := Db(DAY + 10, OFFICE, AnnsDesk(DAY + 10, DAY + 10), START.rollup);
    AnnStarts(DAY + 10, DAY + 10);
    DaysReported(s1);
    Then(START, [AnnWrites(DAY + 10, DAY + 10)], s1, DaysGoBy(), Exec(s1, DaysGoBy()));
  }

  lemma DaysReported(s1: Db)
    requires s1.clock == DAY + 10 && s1.dir == OFFICE && s1.rollup == Rollup(map[], {}, map[])
    requires |s1.desk.tickets| == 1 && s1.desk.tickets[0].chat == 0
    ensures LegalRun(s1, DaysGoBy()) && ReportsTwo(Exec(s1, DaysGoBy()))
  {
    var a, b, c := Closes(DAY + 20), Timed(2 * DAY + 5, Nightly), Closes(2 * DAY + 10);
    var s2 := Apply(s1, a);
    Closing(s1, DAY + 20);
    OneStep(s1, a);
    var s3 := Apply(s2, b);
    RollingUp(s2, 2 * DAY + 5);
    OneStep(s2, b);
    Closing(s3, 2 * DAY + 10);
    OneStep(s3, c);
    ReportedTwice(s2.desk, Apply(s3, c));
    Then(s2, [b], s3, [c], Apply(s3, c));
    Then(s1, [a], s2, [b] + [c], Apply(s3, c));
  }

  lemma ReportedTwice(d: Desk, s: Db)
    requires s.clock == 2 * DAY + 10 && s.rollup == NightlyJob(Rollup(map[], {}, map[]), d, 1, 2 * DAY + 5)
    requires |d.tickets| == 1 && d.tickets[0].chat == 0 && d.tickets[0].closedAt == Some(DAY + 20)
    requires |s.desk.tickets| == 1 && s.desk.tickets[0].chat == 0 && s.desk.tickets[0].closedAt == Some(2 * DAY + 10)
    ensures ReportsTwo(s)
  {
    DaysOfExample();
    StoredInExample(d, s);
    OneStamp(ClosedStamps(d.tickets, 0), DAY, DAY + DAY);
    OneStamp(ClosedStamps(s.desk.tickets, 0), 2 * DAY, 3 * DAY);
    OneStamp(ClosedStamps(s.desk.tickets, 0), DAY, 3 * DAY);
    TwoRanges(s.rollup.rows[(0, DAY)], StatsFor(s.desk.tickets, s.desk.messages, 0, 2 * DAY, 3 * DAY), ClosedTickets);
    assert Report(s, TWO_DAYS, [DAY]) ==
      [s.rollup.rows[(0, DAY)], StatsFor(s.desk.tickets, s.desk.messages, 0, 2 * DAY, 3 * DAY)];
  }

  lemma DaysOfExample()
    ensures TWO_DAYS.Lo() == DAY && TWO_DAYS.Hi() == 3 * DAY && TWO_DAYS.Today() == 2 * DAY
    ensures StartOfDay(2 * DAY + 5 - DAY) == DAY
    ensures forall day :: TWO_DAYS.Past(day) <==> day == DAY
  {
  }

  lemma StoredInExample(d: Desk, s: Db)
    requires s.rollup == NightlyJob(Rollup(map[], {}, map[]), d, 1, 2 * DAY + 5)
    ensures s.rollup.days == {DAY} && (0, DAY) in s.rollup.rows
    ensures s.rollup.rows[(0, DAY)].ticketsClosed == CountIn(ClosedStamps(d.tickets, 0), DAY, DAY + DAY)
    ensures IsStoredOrder(s.rollup, 0, DAY, 2 * DAY + 10, 2 * DAY + 10, [DAY])
  {
    DaysOfExample();
    DayRowsAt(d, 1, DAY, 0, DAY);
    forall k | k in s.rollup.rows
      ensures k == (0, DAY)
    {
      assert k in DayRows(d.tickets, d.messages, 1, DAY);
    }
  }

  lemma TwoRanges(a: Stats, b: Stats, m: Measure)
    ensures Total([a, b], m) == Read(a, m) + Read(b, m)
  {
    assert [a, b] == [a] + [b] && [a] == [] + [a];
    TotalAppend([a], b, m);
    TotalAppend([], a, m);
  }

  lemma OneStamp(s: Stamps, lo: int, hi: int)
    requires |s| == 1 && StampIn(s[0], lo, hi)
    ensures CountIn(s, lo, hi) == 1
  {
    assert InFlags(s, lo, hi) == [] + [true];
    CountAppend([], true);
  }

  // ---------- A request from tomorrow on reports today ----------

  const TOMORROW := Request(0, 2 * DAY, 2 * DAY, DAY + 10)

  /** The report of tomorrow, asked for today, has a ticket of today. */
  ghost predicate ReportsTomorrow(s: Db) {
    && Answerable(s, TOMORROW, []) && TOMORROW.Ahead()
    && Total(Report(s, TOMORROW, []), Opened) == 1
    && CountIn(StampsOf(s.desk, 0, Opened), TOMORROW.Lo(), TOMORROW.Hi()) == 0
  }

  lemma TomorrowReportsToday()
    ensures Initial(START)
    ensures LegalRun(START, [AnnWrites(DAY + 10, DAY + 10)]) && ReportsTomorrow(Exec(START, [AnnWrites(DAY + 10, DAY + 10)]))
  {
    var run, s := [AnnWrites(DAY + 10, DAY + 10)], Db(DAY + 10, OFFICE, AnnsDesk(DAY + 10, DAY + 10), START.rollup);
    StartIsInitial();
    AnnStarts(DAY + 10, DAY + 10);
    TomorrowIsAhead(s);
    OneOpened(s.desk);
    RequestAheadReportsToday(START, run, TOMORROW, [], Opened);
  }

  lemma TomorrowIsAhead(s: Db)
    requires s.clock == DAY + 10 && s.rollup == Rollup(map[], {}, map[])
    ensures Answerable(s, TOMORROW, []) && TOMORROW.Ahead() && TOMORROW.Today() == DAY && TOMORROW.chat == 0
  {
  }

  lemma OneOpened(d: Desk)
    requires d.tickets == [AnnsTicket(DAY + 10)]
    ensures CountIn(StampsOf(d, 0, Opened), DAY, DAY + DAY) == 1
  {
    OneStamp(OpenedStamps(d.tickets, 0), DAY, DAY + DAY);
  }

  // ---------- Two quotes of one message ----------

  function Replies(text: string): Timed {
    Timed(10, ReplyTo(0, 0, text, Auto, Some(0)))
  }

  /** Ann's message, its acknowledgement and two replies, all in one millisecond: the lookup of the
      latest row may find the message each time, and both replies, adjacent, quote it. */
  lemma OneMillisecondQuotesTwice()
    ensures Initial(START)
    ensures var run := [AnnWrites(10, 10)] + ([Replies("hello")] + [Replies("again")]);
      LegalRun(START, run) && QuotedTwice(Exec(START, run).desk)
  {
    StartIsInitial();
    var s1 := Db(10, OFFICE, AnnsDesk(10, 10), START.rollup);
    var rest := [Replies("hello")] + [Replies("again")];
    AnnStarts(10, 10);
    BothReply(s1);
    Then(START, [AnnWrites(10, 10)], s1, rest, Exec(s1, rest));
  }

  lemma BothReply(s1: Db)
    requires s1 == Db(10, OFFICE, AnnsDesk(10, 10), START.rollup)
    ensures var rest := [Replies("hello")] + [Replies("again")];
      LegalRun(s1, rest) && QuotedTwice(Exec(s1, rest).desk)
  {
    var a, b := Replies("hello"), Replies("again");
    FirstReply(s1);
    OneStep(s1, a);
    SecondReply(Apply(s1, a));
    OneStep(Apply(s1, a), b);
    Then(s1, [a], Apply(s1, a), [b], Apply(Apply(s1, a), b));
  }

  predicate QuotedTwice(d: Desk) {
    && |d.messages| == 4 && d.messages[2].ticket == d.messages[3].ticket && 2 in d.past.autoQuoted && 3 in d.past.autoQuoted
    && !InboundBetween(d.messages, 2, 3) && TiedThrough(d.messages, 2, 3)
  }

  function FirstAnswer(): Message { Message(0, Out, FromAgent, Some(0), None, Some("hello"), 10) }

  lemma FirstReply(s: Db)
    requires s == Db(10, OFFICE, AnnsDesk(10, 10), START.rollup)
    ensures Legal(s, Replies("hello"))
    ensures var e := Apply(s, Replies("hello")).desk;
      && e.messages == s.desk.messages + [FirstAnswer()]
      && |e.tickets| == 1 && e.tickets[0].chat == 0 && 2 in e.past.autoQuoted
    ensures Apply(s, Replies("hello")).dir == OFFICE && Apply(s, Replies("hello")).clock == 10
  {
  }

  lemma SecondReply(s: Db)
    requires s.clock == 10 && s.dir == OFFICE && |s.desk.tickets| == 1 && s.desk.tickets[0].chat == 0
    requires s.desk.messages == AnnsDesk(10, 10).messages + [FirstAnswer()]
    requires 2 in s.desk.past.autoQuoted
    ensures Legal(s, Replies("again")) && QuotedTwice(Apply(s, Replies("again")).desk)
  {
    var e := Apply(s, Replies("again")).desk;
    assert e.messages[0].direction.In? && e.messages[1].direction.Out?;
  }

  /** The desk after the first of these replies meets the condition under which a ticket already
      answered may be quoted on again. */
  lemma MayQuoteAgain()
    ensures var d := Exec(START, [AnnWrites(10, 10)] + [Replies("hello")]).desk;
      && LegalRun(START, [AnnWrites(10, 10)] + [Replies("hello")])
      && LastRow(d.messages, 0, 2) && d.messages[2].direction.Out? && InboundAtTimeOf(d.messages, 0, 2)
      && |d.tickets| == 1 && MayQuote(d, 0)
  {
    var s1, a := Db(10, OFFICE, AnnsDesk(10, 10), START.rollup), Replies("hello");
    StartIsInitial();
    InitialInv(START);
    AnnStarts(10, 10);
    FirstReply(s1);
    OneStep(s1, a);
    Then(START, [AnnWrites(10, 10)], s1, [a], Apply(s1, a));
    RunKeepsInv(START, [AnnWrites(10, 10)] + [a]);
    AnsweredAt(Apply(s1, a).desk, 10);
  }

  lemma AnsweredAt(d: Desk, clock: int)
    requires DeskInv(d, clock) && |d.tickets| == 1 && d.messages == AnnsDesk(10, 10).messages + [FirstAnswer()]
    ensures LastRow(d.messages, 0, 2) && d.messages[2].direction.Out? && InboundAtTimeOf(d.messages, 0, 2) && MayQuote(d, 0)
  {
    assert RowQuote(d.messages[0]).Some? && d.messages[0].createdAt == 10 == d.messages[2].createdAt;
    QuotesAgainIff(d, clock, 0, 2);
  }

  // ---------- Round-robin forgets who was just served ----------

  function BobWrites(now: int): Timed {
    Timed(now, Ingest(Says(8, "bob", 12), Picks(None, None, None, [0, 1], now), Complete))
  }

  /** The second ticket goes to agent 1, then by hand to agent 2, who is not of the team. */
  function TakenAway(): seq<Timed> {
    [AnnWrites(10, 10)] + ([BobWrites(20)] + [Takes()])
  }

  function Takes(): Timed { Timed(30, AssignTicket(1, 2, 0, None)) }

  lemma BobArrives(s: Db, now: int)
    requires s == Db(10, OFFICE, AnnsDesk(10, 10), START.rollup)
    requires 10 <= now
    ensures Legal(s, BobWrites(now)) && ServedBoth(Apply(s, BobWrites(now)), now)
  {
    var p, d := BobWrites(now).step.picks, s.desk;
    AnnIsAccepted(p, 12);
    TeamOrder([0, 1]);
    NextIsOne();
    var born := Newborn(OFFICE, d, Says(8, "bob", 12), p, now);
    assert born.assignee == Some(1) && born.createdAt == now == born.updatedAt;
    RecordedOnNew(OFFICE, d, Says(8, "bob", 12), p, now);
  }

  /** Two messages in one millisecond, listed one ticket a page: whichever way the cursor is read,
      the pages may end without Bob's ticket. */
  lemma OneMillisecondHidesATicket(how: CursorReading)
    ensures Initial(START)
    ensures var run := [AnnWrites(10, 10)] + [BobWrites(10)];
      && LegalRun(START, run) && |Exec(START, run).desk.tickets| == 2
      && exists pages: seq<Page> :: Hides(Exec(START, run).desk.tickets, {0, 1}, how, pages, 1)
  {
    StartIsInitial();
    var s1 := Db(10, OFFICE, AnnsDesk(10, 10), START.rollup);
    AnnStarts(10, 10);
    BobComes(s1, 10);
    Then(START, [AnnWrites(10, 10)], s1, [BobWrites(10)], Exec(s1, [BobWrites(10)]));
    TiedAreHidden(Exec(s1, [BobWrites(10)]).desk.tickets, how);
  }

  lemma TiedAreHidden(tickets: seq<Ticket>, how: CursorReading)
    requires |tickets| == 2 && tickets[0].updatedAt == tickets[1].updatedAt
    ensures exists pages: seq<Page> :: Hides(tickets, {0, 1}, how, pages, 1)
  {
    assert tickets == [tickets[0], tickets[1]];
    TiesMayHideATicket(tickets[0], tickets[1], how);
  }

  lemma NextIsOne()
    ensures AssigneeFor([AnnsTicket(10)], OFFICE.chats[0], [0, 1]) == Some(1)
  {
    LastOfOne(AnnsTicket(10), 0);
    LastOfOne(AnnsTicket(10), 1);
    assert LastKey([AnnsTicket(10)], [0, 1]) == map[0 := 10, 1 := 0];
  }

  /** A job run to its end on a new ticket leaves that ticket, and what was given, as created. */
  lemma RecordedOnNew(dir: Directory, d: Desk, msg: Incoming, p: Picks, now: int)
    requires Accepts(dir, msg, p) && DecisionFor(dir, d, p, now).CreateNew?
    ensures var e, placed := IngestDesk(dir, d, msg, p, now, Complete), Create(d, Newborn(dir, d, msg, p, now));
      && |e.tickets| == |d.tickets| + 1 && e.past.given == placed.past.given
      && (forall i :: 0 <= i < |d.tickets| ==> e.tickets[i] == d.tickets[i])
      && e.tickets[|d.tickets|].assignee == placed.tickets[|d.tickets|].assignee
      && e.tickets[|d.tickets|].createdAt == placed.tickets[|d.tickets|].createdAt
      && e.tickets[|d.tickets|].updatedAt == now
  {
    var t, placed := |d.tickets|, Create(d, Newborn(dir, d, msg, p, now));
    assert Place(dir, d, msg, p, now) == placed && Target(dir, d, p, now) == t;
    RecordTouches(placed, t, msg, RepliedRow(dir, d, p, now), now);
    OnlyAckFollows(dir, d, msg, p, now);
  }

  lemma OnlyAckFollows(dir: Directory, d: Desk, msg: Incoming, p: Picks, now: int)
    requires Accepts(dir, msg, p)
    ensures var e, recorded := IngestDesk(dir, d, msg, p, now, Complete), Recorded(dir, d, msg, p, now);
      e.tickets == recorded.tickets && e.past == recorded.past
  {
  }

  lemma RecordTouches(d: Desk, t: TicketId, msg: Incoming, replied: Option<MessageId>, now: int)
    requires t < |d.tickets|
    ensures var e := Record(d, t, msg, replied, now);
      && |e.tickets| == |d.tickets| && e.past.given == d.past.given
      && (forall i :: 0 <= i < |d.tickets| && i != t ==> e.tickets[i] == d.tickets[i])
      && e.tickets[t].assignee == d.tickets[t].assignee && e.tickets[t].createdAt == d.tickets[t].createdAt
      && (e.tickets[t].updatedAt == d.tickets[t].updatedAt || e.tickets[t].updatedAt == now)
  {
  }

  lemma LastOfOne(t: Ticket, a: AgentId)
    ensures LastAssigned([t], a) == if t.assignee == Some(a) then t.createdAt else 0
  {
    assert [t][..0] == [];
  }

  lemma LastOfTwo(t: Ticket, u: Ticket, a: AgentId)
    requires u.assignee != Some(a)
    ensures LastAssigned([t, u], a) == LastAssigned([t], a)
  {
    assert [t, u][..1] == [t];
  }

  /** Agent 1, served after agent 0, is chosen again before agent 0, because the ticket it was
      given has been taken from it. */
  lemma RoundRobinForgets()
    ensures Initial(START)
    ensures LegalRun(START, TakenAway()) && ServedOutOfTurn(Exec(START, TakenAway()))
  {
    StartIsInitial();
    var s1, rest := Db(10, OFFICE, AnnsDesk(10, 10), START.rollup), [BobWrites(20)] + [Takes()];
    AnnStarts(10, 10);
    BobIsTaken(s1);
    Then(START, [AnnWrites(10, 10)], s1, rest, Exec(s1, rest));
  }

  lemma BobIsTaken(s1: Db)
    requires s1 == Db(10, OFFICE, AnnsDesk(10, 10), START.rollup)
    ensures var rest := [BobWrites(20)] + [Takes()];
      LegalRun(s1, rest) && ServedOutOfTurn(Exec(s1, rest))
  {
    BobComes(s1, 20);
    TicketTaken(Exec(s1, [BobWrites(20)]));
    Then(s1, [BobWrites(20)], Exec(s1, [BobWrites(20)]), [Takes()], Exec(Exec(s1, [BobWrites(20)]), [Takes()]));
  }

  /** Bob's ticket went to agent 1. */
  predicate ServedBoth(s: Db, now: int) {
    && s.clock == now && s.dir == OFFICE
    && |s.desk.tickets| == 2 && s.desk.tickets[0] == AnnsTicket(10) && s.desk.tickets[1].updatedAt == now
    && s.desk.past.given == map[0 := 10, 1 := now]
  }

  lemma BobComes(s1: Db, now: int)
    requires s1 == Db(10, OFFICE, AnnsDesk(10, 10), START.rollup) && 10 <= now
    ensures LegalRun(s1, [BobWrites(now)]) && ServedBoth(Exec(s1, [BobWrites(now)]), now)
  {
    BobArrives(s1, now);
    OneStep(s1, BobWrites(now));
  }

  /** The next ticket goes to agent 1, though agent 0 was given its last one earlier. */
  ghost predicate ServedOutOfTurn(s: Db) {
    && IsMemberOrder(s.dir, 0, [0, 1]) && Chosen(s.desk.tickets, [0, 1]) == 1
    && LastGiven(s.desk.past, 0) == 10 && LastGiven(s.desk.past, 1) == 20
    && !WaitedLongest(s.dir, s.desk.past, 0, 1)
  }

  lemma TicketTaken(s: Db)
    requires ServedBoth(s, 20)
    ensures LegalRun(s, [Takes()]) && ServedOutOfTurn(Exec(s, [Takes()]))
  {
    OneStep(s, Takes());
    assert Apply(s, Takes()).desk.past.given == map[0 := 10, 1 := 20, 2 := 30];
    Forgotten(Apply(s, Takes()));
  }

  lemma Forgotten(s: Db)
    requires s.dir == OFFICE && |s.desk.tickets| == 2
    requires s.desk.tickets[0] == AnnsTicket(10) && s.desk.tickets[1].assignee == Some(2)
    requires s.desk.past.given == map[0 := 10, 1 := 20, 2 := 30]
    ensures ServedOutOfTurn(s)
  {
    TeamOrder([0, 1]);
    var t, u := s.desk.tickets[0], s.desk.tickets[1];
    assert s.desk.tickets == [t, u];
    LastOfOne(t, 0);
    LastOfOne(t, 1);
    LastOfTwo(t, u, 0);
    LastOfTwo(t, u, 1);
    assert LastKey(s.desk.tickets, [0, 1]) == map[0 := 10, 1 := 0];
    assert IsActiveMember(s.dir, 0, 0);
  }
}
