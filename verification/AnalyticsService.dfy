/** The nightly roll-up and the report, as the service runs them. */
module AnalyticsServices {
  import opened Types
  import opened Counting
  import opened AnalyticsSpec
  import opened RoundedMeans
  import opened Storage

  /** One chat's line of a report. */
  datatype ChatReport = ChatReport(
    chat: ChatId, title: string, created: int, closed: int, received: int, sent: int,
    avgFirstResponse: Option<int>, avgResolution: Option<int>, backlog: nat)

  function BacklogFlags(tickets: seq<Ticket>, c: ChatId): (flags: seq<bool>)
    ensures |flags| == |tickets|
    ensures forall i :: 0 <= i < |flags| ==> flags[i] == (tickets[i].chat == c && tickets[i].status.Live())
  {
    seq(|tickets|, i requires 0 <= i < |tickets| => tickets[i].chat == c && tickets[i].status.Live())
  }

  /** The order is one the database may have returned the request's stored days in. */
  ghost predicate IsOrder(r: Rollup, c: ChatId, from: int, to: int, now: int, order: seq<int>) {
    IsStoredOrder(r, c, from, to, now, order) && forall i :: 0 <= i < |order| ==> (c, order[i]) in r.rows
  }

  /** What some ranges of a chat add up to. */
  function LineOf(tickets: seq<Ticket>, c: ChatId, title: string, ranges: seq<Stats>): ChatReport {
    ChatReport(c, title, Total(ranges, Opened), Total(ranges, ClosedTickets), Total(ranges, Received), Total(ranges, Sent),
               Average(Means(ranges, FirstResponse)), Average(Means(ranges, Resolution)), Count(BacklogFlags(tickets, c)))
  }

  /** The line adds up the stored days, in their order, and today's live figures. */
  ghost predicate IsLine(r: Rollup, d: Desk, chats: seq<Chat>, from: int, to: int, now: int, order: seq<int>, line: ChatReport) {
    && line.chat < |chats| && IsOrder(r, line.chat, from, to, now, order)
    && line == LineOf(d.tickets, line.chat, chats[line.chat].title, Ranges(r, d, line.chat, to, now, order))
  }

  /** One line each, whatever order the days of each came in. */
  ghost predicate AreLines(r: Rollup, d: Desk, chats: seq<Chat>, from: int, to: int, now: int, orders: seq<seq<int>>,
                           lines: seq<ChatReport>) {
    |orders| == |lines| && forall i :: 0 <= i < |lines| ==> IsLine(r, d, chats, from, to, now, orders[i], lines[i])
  }

  /** The days a chat has a stored row for, from a first day to before today and not after `to`. */
  function DaysOnRecord(stats: map<(ChatId, int), Stats>, c: ChatId, from: int, to: int, todayStart: int): (days: set<int>)
    ensures forall day :: day in days <==> (c, day) in stats && StartOfDay(from) <= day < todayStart && day <= to
  {
    var days := set k | k in stats && k.0 == c && StartOfDay(from) <= k.1 < todayStart && k.1 <= to :: k.1;
    assert forall day :: (c, day) in stats && StartOfDay(from) <= day < todayStart && day <= to ==>
      (c, day).1 in days;
    days
  }

  /** The chats a report is about: those of the group given, else all. */
  function Reportable(chats: seq<Chat>, group: Option<GroupId>): set<ChatId> {
    set c: ChatId | 0 <= c < |chats| && (group.None? || chats[c].group == group)
  }

  function ChatsOf(lines: seq<ChatReport>): (chats: seq<ChatId>)
    ensures |chats| == |lines|
    ensures forall i :: 0 <= i < |lines| ==> chats[i] == lines[i].chat
  {
    seq(|lines|, i requires 0 <= i < |lines| => lines[i].chat)
  }

  class AnalyticsService {
    const db: Database

    constructor (db: Database)
      ensures this.db == db
    {
      this.db := db;
    }

    /** One chat, one calendar day: inserts or overwrites its row. */
    method AggregateDailyForChat(c: ChatId, date: int)
      modifies db`stats, db`seen
      ensures var day := StartOfDay(date);
        && db.stats == old(db.stats)[(c, day) := StatsOn(db.tickets, db.messages, day)(c)]
        && db.seen == old(db.seen)[(c, day) := db.tickets]
    {
      var dayStart := StartOfDay(date);
      UpsertDay(c, dayStart);
    }

    method UpsertDay(c: ChatId, dayStart: int)
      modifies db`stats, db`seen
      ensures db.stats == old(db.stats)[(c, dayStart) := StatsOn(db.tickets, db.messages, dayStart)(c)]
      ensures db.seen == old(db.seen)[(c, dayStart) := db.tickets]
    {
      var stats := StatsFor(db.tickets, db.messages, c, dayStart, dayStart + DAY);
      db.stats := db.stats[(c, dayStart) := stats];
      db.seen := db.seen[(c, dayStart) := db.tickets];
    }

    method AggregateEach(chats: seq<ChatId>, date: int)
      modifies db`stats, db`seen
      ensures db.stats == old(db.stats) + Written(StatsOn(db.tickets, db.messages, StartOfDay(date)), chats, StartOfDay(date))
      ensures db.seen == old(db.seen) + Written(SeenOn(db.tickets), chats, StartOfDay(date))
    {
      ghost var day, rows, seen := StartOfDay(date), db.stats, db.seen;
      ghost var stats, sight := StatsOn(db.tickets, db.messages, day), SeenOn(db.tickets);
      for i := 0 to |chats|
        invariant db.stats == rows + Written(stats, chats[..i], day)
        invariant db.seen == seen + Written(sight, chats[..i], day)
      {
        AggregateDailyForChat(chats[i], date);
        OneMoreChat(rows, stats, chats, i, day);
        OneMoreChat(seen, sight, chats, i, day);
      }
      assert chats[..|chats|] == chats;
    }

    /** Every chat, in whatever order the database lists them. */
    method AggregateAllChatsForDate(date: int) returns (count: nat)
      modifies db`stats, db`seen, db`days
      ensures db.RollupNow() == AggregateDay(old(db.RollupNow()), db.DeskNow(), |db.chats|, date)
      ensures count == |db.chats|
    {
      var chats := ListOf(ChatIds(|db.chats|));
      AggregateEach(chats, date);
      db.days := db.days + {StartOfDay(date)};
      AllChatsAreDayRows(db.tickets, db.messages, chats, |db.chats|, StartOfDay(date));
      AllChatsAreDaySeen(db.tickets, chats, |db.chats|, StartOfDay(date));
      ListedOnce(ChatIds(|db.chats|), chats);
      count := |chats|;
    }

    /** The scheduled job: always the day before it runs. */
    method ProcessNightly(now: int)
      modifies db`stats, db`seen, db`days
      ensures db.RollupNow() == NightlyJob(old(db.RollupNow()), db.DeskNow(), |db.chats|, now)
    {
      var yesterday := now;
      yesterday := yesterday - DAY;
      var count := AggregateAllChatsForDate(yesterday);
    }

    method AverageOf(values: seq<real>) returns (r: Option<int>)
      ensures r == Average(values)
      ensures r.None? <==> values == []
      ensures r.Some? ==> IsRoundedMean(values, r.value)
    {
      AverageIsRoundedMean(values);
      if |values| == 0 {
        return None;
      }
      var sum := 0.0;
      for i := 0 to |values|
        invariant sum == Sum(values[..i])
      {
        sum := sum + values[i];
        assert values[..i + 1][..i] == values[..i];
      }
      assert values[..|values|] == values;
      r := Some(Round(sum / (|values| as real)));
    }

    method SumOf(ranges: seq<Stats>, m: Measure) returns (sum: int)
      ensures sum == Total(ranges, m)
    {
      sum := 0;
      for i := 0 to |ranges|
        invariant sum == Total(ranges[..i], m)
      {
        sum := sum + Read(ranges[i], m);
        assert ranges[..i + 1][..i] == ranges[..i];
      }
      assert ranges[..|ranges|] == ranges;
    }

    method MeansOf(ranges: seq<Stats>, k: Duration) returns (values: seq<real>)
      ensures values == Means(ranges, k)
    {
      values := [];
      for i := 0 to |ranges|
        invariant values == Means(ranges[..i], k)
      {
        assert ranges[..i + 1][..i] == ranges[..i];
        if Mean(ranges[i], k).Some? {
          values := values + [Mean(ranges[i], k).value as real];
        }
      }
      assert ranges[..|ranges|] == ranges;
    }

    method StoredRangesFor(c: ChatId, from: int, to: int, now: int) returns (stored: seq<Stats>, ghost order: seq<int>)
      ensures IsOrder(db.RollupNow(), c, from, to, now, order) && stored == StoredRows(db.stats, c, order)
    {
      var days := ListOf(DaysOnRecord(db.stats, c, from, to, StartOfDay(now)));
      order := days;
      StoredOrder(db.RollupNow(), c, from, to, now, order);
      stored := StoredRows(db.stats, c, days);
    }

    method TodayFor(c: ChatId, to: int, todayStart: int) returns (live: seq<Stats>)
      ensures live == LiveRange(db.tickets, db.messages, c, to, todayStart)
    {
      live := [];
      if to >= todayStart {
        live := [StatsFor(db.tickets, db.messages, c, todayStart, todayStart + DAY)];
      }
    }

    /** A chat's stored days, and today on top when the request reaches it. */
    method RangesFor(c: ChatId, from: int, to: int, now: int) returns (rangesToSum: seq<Stats>, ghost order: seq<int>)
      ensures IsOrder(db.RollupNow(), c, from, to, now, order)
      ensures rangesToSum == Ranges(db.RollupNow(), db.DeskNow(), c, to, now, order)
    {
      rangesToSum, order := StoredRangesFor(c, from, to, now);
      var live := TodayFor(c, to, StartOfDay(now));
      rangesToSum := rangesToSum + live;
    }

    method ReportFor(c: ChatId, from: int, to: int, now: int) returns (line: ChatReport, ghost order: seq<int>)
      requires c < |db.chats|
      ensures line.chat == c && IsLine(db.RollupNow(), db.DeskNow(), db.chats, from, to, now, order, line)
    {
      var rangesToSum;
      rangesToSum, order := RangesFor(c, from, to, now);
      var created := SumOf(rangesToSum, Opened);
      var closed := SumOf(rangesToSum, ClosedTickets);
      var received := SumOf(rangesToSum, Received);
      var sent := SumOf(rangesToSum, Sent);
      var responses := MeansOf(rangesToSum, FirstResponse);
      var resolutions := MeansOf(rangesToSum, Resolution);
      var avgFirstResponse := AverageOf(responses);
      var avgResolution := AverageOf(resolutions);
      line := ChatReport(c, db.chats[c].title, created, closed, received, sent, avgFirstResponse, avgResolution,
                         Count(BacklogFlags(db.tickets, c)));
    }

    /** One line for every chat of the group, or for every chat. */
    method GetChatsAnalytics(group: Option<GroupId>, from: int, to: int, now: int)
      returns (lines: seq<ChatReport>, ghost orders: seq<seq<int>>)
      ensures Lists(Reportable(db.chats, group), ChatsOf(lines))
      ensures AreLines(db.RollupNow(), db.DeskNow(), db.chats, from, to, now, orders, lines)
    {
      var chats := ListOf(Reportable(db.chats, group));
      assert forall i :: 0 <= i < |chats| ==> chats[i] in Reportable(db.chats, group);
      lines, orders := LinesFor(chats, from, to, now);
    }

    method LinesFor(chats: seq<ChatId>, from: int, to: int, now: int)
      returns (lines: seq<ChatReport>, ghost orders: seq<seq<int>>)
      requires forall i :: 0 <= i < |chats| ==> chats[i] < |db.chats|
      ensures ChatsOf(lines) == chats
      ensures AreLines(db.RollupNow(), db.DeskNow(), db.chats, from, to, now, orders, lines)
    {
      lines, orders := [], [];
      for i := 0 to |chats|
        invariant ChatsOf(lines) == chats[..i]
        invariant AreLines(db.RollupNow(), db.DeskNow(), db.chats, from, to, now, orders, lines)
      {
        var line;
        ghost var order;
        line, order := ReportFor(chats[i], from, to, now);
        lines, orders := lines + [line], orders + [order];
      }
      assert chats[..|chats|] == chats;
    }
  }

  // ---------- Rows written one by one ----------

  function ChatIds(count: nat): (ids: set<ChatId>)
    ensures forall c: ChatId :: c in ids <==> c < count
    ensures |ids| == count
  {
    if count == 0 then {} else ChatIds(count - 1) + {count - 1}
  }

  function StatsOn(tickets: seq<Ticket>, messages: seq<Message>, day: int): ChatId -> Stats {
    (c: ChatId) => StatsFor(tickets, messages, c, day, day + DAY)
  }

  function SeenOn(tickets: seq<Ticket>): ChatId -> seq<Ticket> {
    (c: ChatId) => tickets
  }

  /** One entry per chat, in the order listed. */
  function Written<V>(f: ChatId -> V, chats: seq<ChatId>, day: int): (rows: map<(ChatId, int), V>)
    ensures forall c: ChatId, other: int :: (c, other) in rows <==> c in chats && other == day
  {
    if chats == [] then map[]
    else
      var n := |chats| - 1;
      Written(f, chats[..n], day)[(chats[n], day) := f(chats[n])]
  }

  lemma OneMoreChat<V>(under: map<(ChatId, int), V>, f: ChatId -> V, chats: seq<ChatId>, i: nat, day: int)
    requires i < |chats|
    ensures under + Written(f, chats[..i + 1], day) ==
      (under + Written(f, chats[..i], day))[(chats[i], day) := f(chats[i])]
  {
    assert chats[..i + 1][..i] == chats[..i];
  }

  lemma {:induction false} WrittenAt<V>(f: ChatId -> V, chats: seq<ChatId>, day: int, c: ChatId)
    requires c in chats
    ensures Written(f, chats, day)[(c, day)] == f(c)
  {
    var n := |chats| - 1;
    if c != chats[n] {
      WrittenAt(f, chats[..n], day, c);
    }
  }

  /** Written chat by chat, in any order, is written for all chats at once. */
  lemma AllWritten<V>(f: ChatId -> V, chats: seq<ChatId>, count: nat, day: int, whole: map<(ChatId, int), V>)
    requires Lists(ChatIds(count), chats)
    requires forall c: ChatId | c < count :: (c, day) in whole && whole[(c, day)] == f(c)
    requires forall k | k in whole :: k.0 < count && k.1 == day
    ensures Written(f, chats, day) == whole
  {
    forall k | k in Written(f, chats, day)
      ensures k in whole && whole[k] == Written(f, chats, day)[k]
    {
      assert k == (k.0, day) && k.0 in chats && k.0 in ChatIds(count);
      WrittenAt(f, chats, day, k.0);
    }
    forall k | k in whole
      ensures k in Written(f, chats, day)
    {
      assert k == (k.0, day) && k.0 in ChatIds(count);
    }
  }

  lemma AllChatsAreDayRows(tickets: seq<Ticket>, messages: seq<Message>, chats: seq<ChatId>, count: nat, day: int)
    requires Lists(ChatIds(count), chats)
    ensures Written(StatsOn(tickets, messages, day), chats, day) == DayRows(tickets, messages, count, day)
  {
    AllWritten(StatsOn(tickets, messages, day), chats, count, day, DayRows(tickets, messages, count, day));
  }

  lemma AllChatsAreDaySeen(tickets: seq<Ticket>, chats: seq<ChatId>, count: nat, day: int)
    requires Lists(ChatIds(count), chats)
    ensures Written(SeenOn(tickets), chats, day) == DaySeen(tickets, count, day)
  {
    AllWritten(SeenOn(tickets), chats, count, day, DaySeen(tickets, count, day));
  }

  lemma {:induction false} ListedOnce(all: set<ChatId>, order: seq<ChatId>)
    requires Lists(all, order)
    ensures |order| == |all|
    decreases |order|
  {
    if order == [] {
      assert all == {};
    } else {
      var n := |order| - 1;
      assert Lists(all - {order[n]}, order[..n]) by {
        forall x | x in all - {order[n]}
          ensures x in order[..n]
        {
          assert x in order;
        }
        assert forall i :: 0 <= i < n ==> order[..n][i] == order[i];
      }
      ListedOnce(all - {order[n]}, order[..n]);
    }
  }

  lemma StoredOrder(r: Rollup, c: ChatId, from: int, to: int, now: int, order: seq<int>)
    requires Lists(DaysOnRecord(r.rows, c, from, to, StartOfDay(now)), order)
    ensures IsStoredOrder(r, c, from, to, now, order)
    ensures forall i :: 0 <= i < |order| ==> (c, order[i]) in r.rows
  {
    forall i | 0 <= i < |order|
      ensures Wanted(r, c, from, to, now, order[i])
    {
      assert order[i] in DaysOnRecord(r.rows, c, from, to, StartOfDay(now));
    }
    forall k | k in r.rows && k.0 == c && Wanted(r, c, from, to, now, k.1)
      ensures k.1 in order
    {
      assert k.1 in DaysOnRecord(r.rows, c, from, to, StartOfDay(now));
    }
  }
}
