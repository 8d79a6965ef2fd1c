/** Per-chat statistics: what is computed for a range, what the nightly job stores, and what a
    report makes of both. */
module AnalyticsSpec {
  import opened Types
  import opened Counting

  const DAY: int := 86_400_000

  function StartOfDay(t: int): int { t - t % DAY }

  predicate InRange(t: int, lo: int, hi: int) { lo <= t < hi }

  predicate StampIn(t: Option<int>, lo: int, hi: int) { t.Some? && InRange(t.value, lo, hi) }

  // ---------- Counts ----------

  /** The times of a chat's rows, at the rows' positions; other rows have none. */
  type Stamps = seq<Option<int>>

  function OpenedStamps(tickets: seq<Ticket>, c: ChatId): (s: Stamps)
    ensures |s| == |tickets|
    ensures forall i :: 0 <= i < |s| ==> s[i] == if tickets[i].chat == c then Some(tickets[i].createdAt) else None
  {
    seq(|tickets|, i requires 0 <= i < |tickets| => if tickets[i].chat == c then Some(tickets[i].createdAt) else None)
  }

  function ClosedStamps(tickets: seq<Ticket>, c: ChatId): (s: Stamps)
    ensures |s| == |tickets|
    ensures forall i :: 0 <= i < |s| ==> s[i] == if tickets[i].chat == c then tickets[i].closedAt else None
  {
    seq(|tickets|, i requires 0 <= i < |tickets| => if tickets[i].chat == c then tickets[i].closedAt else None)
  }

  predicate RowOf(tickets: seq<Ticket>, m: Message, dir: Direction, c: ChatId) {
    m.ticket < |tickets| && tickets[m.ticket].chat == c && m.direction == dir
  }

  function RowStamps(tickets: seq<Ticket>, messages: seq<Message>, dir: Direction, c: ChatId): (s: Stamps)
    ensures |s| == |messages|
    ensures forall i :: 0 <= i < |s| ==>
      s[i] == if RowOf(tickets, messages[i], dir, c) then Some(messages[i].createdAt) else None
  {
    seq(|messages|, i requires 0 <= i < |messages| =>
      if RowOf(tickets, messages[i], dir, c) then Some(messages[i].createdAt) else None)
  }

  function InFlags(s: Stamps, lo: int, hi: int): (flags: seq<bool>)
    ensures |flags| == |s|
    ensures forall i :: 0 <= i < |s| ==> flags[i] == StampIn(s[i], lo, hi)
  {
    seq(|s|, i requires 0 <= i < |s| => StampIn(s[i], lo, hi))
  }

  function CountIn(s: Stamps, lo: int, hi: int): nat { Count(InFlags(s, lo, hi)) }

  // ---------- Averages ----------

  /** Rounds half up, as Math.round does. */
  function Round(x: real): int { (x + 0.5).Floor }

  function Sum(values: seq<real>): real {
    if values == [] then 0.0 else Sum(values[..|values| - 1]) + values[|values| - 1]
  }

  function Average(values: seq<real>): Option<int> {
    if values == [] then None else Some(Round(Sum(values) / (|values| as real)))
  }

  function Seconds(since: int, until: int): real { (until - since) as real / 1000.0 }

  datatype Duration = FirstResponse | Resolution

  /** When a duration that began with the ticket's creation ended. */
  function Ended(t: Ticket, k: Duration): Option<int> {
    match k
    case FirstResponse => t.firstResponseAt
    case Resolution => t.resolvedAt
  }

  function EndStamps(tickets: seq<Ticket>, c: ChatId, k: Duration): (s: Stamps)
    ensures |s| == |tickets|
    ensures forall i :: 0 <= i < |s| ==> s[i] == if tickets[i].chat == c then Ended(tickets[i], k) else None
  {
    seq(|tickets|, i requires 0 <= i < |tickets| => if tickets[i].chat == c then Ended(tickets[i], k) else None)
  }

  /** A ticket's duration, if it is of the chat and ended in the range. */
  function DurationOf(t: Ticket, c: ChatId, k: Duration, lo: int, hi: int): seq<real> {
    if t.chat == c && StampIn(Ended(t, k), lo, hi) then [Seconds(t.createdAt, Ended(t, k).value)] else []
  }

  function Durations(tickets: seq<Ticket>, c: ChatId, k: Duration, lo: int, hi: int): seq<real> {
    if tickets == [] then []
    else Durations(tickets[..|tickets| - 1], c, k, lo, hi) + DurationOf(tickets[|tickets| - 1], c, k, lo, hi)
  }

  // ---------- One range, one day, all chats ----------

  datatype Stats = Stats(
    ticketsOpened: nat, ticketsClosed: nat, messagesIn: nat, messagesOut: nat,
    avgFirstResponse: Option<int>, avgResolution: Option<int>)

  function StatsFor(tickets: seq<Ticket>, messages: seq<Message>, c: ChatId, lo: int, hi: int): Stats {
    Stats(
      CountIn(OpenedStamps(tickets, c), lo, hi),
      CountIn(ClosedStamps(tickets, c), lo, hi),
      CountIn(RowStamps(tickets, messages, In, c), lo, hi),
      CountIn(RowStamps(tickets, messages, Out, c), lo, hi),
      Average(Durations(tickets, c, FirstResponse, lo, hi)),
      Average(Durations(tickets, c, Resolution, lo, hi)))
  }

  /** The stored rows. Two history variables go with them: the days the nightly job has run for,
      and the tickets each row was last computed from. */
  datatype Rollup = Rollup(rows: map<(ChatId, int), Stats>, days: set<int>, seen: map<(ChatId, int), seq<Ticket>>)

  function DayRows(tickets: seq<Ticket>, messages: seq<Message>, chats: nat, day: int): map<(ChatId, int), Stats> {
    map c: ChatId | 0 <= c < chats :: (c, day) := StatsFor(tickets, messages, c, day, day + DAY)
  }

  function DaySeen(tickets: seq<Ticket>, chats: nat, day: int): map<(ChatId, int), seq<Ticket>> {
    map c: ChatId | 0 <= c < chats :: (c, day) := tickets
  }

  function AggregateDay(r: Rollup, d: Desk, chats: nat, date: int): Rollup {
    var day := StartOfDay(date);
    Rollup(r.rows + DayRows(d.tickets, d.messages, chats, day), r.days + {day},
           r.seen + DaySeen(d.tickets, chats, day))
  }

  /** The nightly job always rolls up the day before the one it runs on. */
  function NightlyJob(r: Rollup, d: Desk, chats: nat, now: int): Rollup {
    AggregateDay(r, d, chats, now - DAY)
  }

  // ---------- The report ----------

  predicate Wanted(r: Rollup, c: ChatId, from: int, to: int, now: int, day: int) {
    (c, day) in r.rows && StartOfDay(from) <= day < StartOfDay(now) && day <= to
  }

  /** The stored days of a request, in whatever order the database returned them. */
  predicate IsStoredOrder(r: Rollup, c: ChatId, from: int, to: int, now: int, order: seq<int>) {
    && (forall i, j :: 0 <= i < j < |order| ==> order[i] != order[j])
    && (forall i :: 0 <= i < |order| ==> Wanted(r, c, from, to, now, order[i]))
    && (forall k | k in r.rows :: k.0 == c && Wanted(r, c, from, to, now, k.1) ==> k.1 in order)
  }

  function StoredRows(rows: map<(ChatId, int), Stats>, c: ChatId, order: seq<int>): (stored: seq<Stats>)
    requires forall i :: 0 <= i < |order| ==> (c, order[i]) in rows
    ensures |stored| == |order|
    ensures forall i :: 0 <= i < |order| ==> stored[i] == rows[(c, order[i])]
  {
    seq(|order|, i requires 0 <= i < |order| => rows[(c, order[i])])
  }

  /** Today's figures, when the request reaches it. */
  function LiveRange(tickets: seq<Ticket>, messages: seq<Message>, c: ChatId, to: int, today: int): seq<Stats> {
    if to >= today then [StatsFor(tickets, messages, c, today, today + DAY)] else []
  }

  /** Stored past days, and today computed live when the request reaches it. */
  function Ranges(r: Rollup, d: Desk, c: ChatId, to: int, now: int, order: seq<int>): seq<Stats>
    requires forall i :: 0 <= i < |order| ==> (c, order[i]) in r.rows
  {
    StoredRows(r.rows, c, order) + LiveRange(d.tickets, d.messages, c, to, StartOfDay(now))
  }

  datatype Measure = Opened | ClosedTickets | Received | Sent

  function Read(s: Stats, m: Measure): nat {
    match m
    case Opened => s.ticketsOpened
    case ClosedTickets => s.ticketsClosed
    case Received => s.messagesIn
    case Sent => s.messagesOut
  }

  function Total(ranges: seq<Stats>, m: Measure): nat {
    if ranges == [] then 0 else Total(ranges[..|ranges| - 1], m) + Read(ranges[|ranges| - 1], m)
  }

  function Mean(s: Stats, k: Duration): Option<int> {
    match k
    case FirstResponse => s.avgFirstResponse
    case Resolution => s.avgResolution
  }

  /** The ranges' averages that are not null. */
  function Means(ranges: seq<Stats>, k: Duration): seq<real> {
    if ranges == [] then []
    else
      var last := Mean(ranges[|ranges| - 1], k);
      Means(ranges[..|ranges| - 1], k) + if last.Some? then [last.value as real] else []
  }

  /** The times a measure counts. */
  function StampsOf(d: Desk, c: ChatId, m: Measure): Stamps {
    match m
    case Opened => OpenedStamps(d.tickets, c)
    case ClosedTickets => ClosedStamps(d.tickets, c)
    case Received => RowStamps(d.tickets, d.messages, In, c)
    case Sent => RowStamps(d.tickets, d.messages, Out, c)
  }
}
