/** A crashed ingest job and its retry, with other jobs and requests in between: what the chat
    ends up with is what one clean run leaves. */
module CrashRetry {
  import opened Types
  import opened DirectorySpec
  import opened DeskSpec
  import opened DeskInvariants
  import opened Engine
  import opened Reachable
  import opened Redelivery

  // ---------- What belongs to a chat ----------

  function Kept<T>(rows: seq<T>, wanted: T -> bool): seq<T> {
    if rows == [] then []
    else Kept(rows[..|rows| - 1], wanted) + if wanted(rows[|rows| - 1]) then [rows[|rows| - 1]] else []
  }

  function ChatRows(d: Desk, c: ChatId): seq<Message> {
    Kept(d.messages, (m: Message) => OfChat(d, m.ticket, c))
  }

  function ChatEvents(d: Desk, c: ChatId): seq<Event> {
    Kept(d.events, (e: Event) => OfChat(d, e.ticket, c))
  }

  function ChatJobs(d: Desk, c: ChatId): seq<Job> {
    Kept(d.outbox, (j: Job) => OfChat(d, j.ticket, c))
  }

  /** Wanted entries stayed where they were, and none was added. */
  ghost predicate KeptAlike<T>(a: seq<T>, f: T -> bool, b: seq<T>, g: T -> bool) {
    && |a| <= |b|
    && (forall i :: 0 <= i < |a| ==> (f(a[i]) <==> g(b[i])) && (f(a[i]) ==> a[i] == b[i]))
    && (forall i :: |a| <= i < |b| ==> !g(b[i]))
  }

  lemma {:induction false} KeptSame<T>(a: seq<T>, f: T -> bool, b: seq<T>, g: T -> bool)
    requires KeptAlike(a, f, b, g)
    ensures Kept(a, f) == Kept(b, g)
    decreases |b|
  {
    if b != [] {
      var n := |b| - 1;
      if |a| == |b| {
        KeptSame(a[..n], f, b[..n], g);
      } else {
        KeptSame(a, f, b[..n], g);
      }
    }
  }

  /** The chat's conversation, log and outbound jobs are the same. */
  ghost predicate SameRecords(d: Desk, e: Desk, c: ChatId) {
    ChatRows(e, c) == ChatRows(d, c) && ChatEvents(e, c) == ChatEvents(d, c) && ChatJobs(e, c) == ChatJobs(d, c)
  }

  // ---------- Steps on other chats leave it alone ----------

  /** Log and queue only gained entries, and none of the chat's. */
  ghost predicate LogsElsewhere(d: Desk, e: Desk, c: ChatId) {
    && d.events <= e.events && d.outbox <= e.outbox
    && (forall k :: |d.events| <= k < |e.events| ==> !OfChat(e, e.events[k].ticket, c))
    && (forall j :: |d.outbox| <= j < |e.outbox| ==> !OfChat(e, e.outbox[j].ticket, c))
  }

  /** Every row, entry and job is of a ticket. */
  ghost predicate Referenced(d: Desk) {
    && (forall m :: 0 <= m < |d.messages| ==> d.messages[m].ticket < |d.tickets|)
    && (forall k :: 0 <= k < |d.events| ==> d.events[k].ticket < |d.tickets|)
    && (forall j :: 0 <= j < |d.outbox| ==> d.outbox[j].ticket < |d.tickets|)
  }

  lemma InvIsReferenced(db: Db)
    requires Inv(db)
    ensures Referenced(db.desk)
  {
    assert forall j :: 0 <= j < |db.desk.outbox| ==> JobFits(db.desk, db.desk.outbox[j]);
  }

  lemma RecordsStay(d: Desk, e: Desk, c: ChatId)
    requires Referenced(d) && Untouched(d, e, c) && LogsElsewhere(d, e, c)
    ensures SameRecords(d, e, c)
  {
    RowsStay(d, e, c);
    assert forall k :: 0 <= k < |d.events| ==> e.events[k] == d.events[k];
    assert forall j :: 0 <= j < |d.outbox| ==> e.outbox[j] == d.outbox[j];
    KeptSame(d.events, (x: Event) => OfChat(d, x.ticket, c), e.events, (x: Event) => OfChat(e, x.ticket, c));
    KeptSame(d.outbox, (x: Job) => OfChat(d, x.ticket, c), e.outbox, (x: Job) => OfChat(e, x.ticket, c));
  }

  lemma RowsStay(d: Desk, e: Desk, c: ChatId)
    requires Referenced(d) && Untouched(d, e, c)
    ensures ChatRows(e, c) == ChatRows(d, c)
  {
    KeptSame(d.messages, (x: Message) => OfChat(d, x.ticket, c), e.messages, (x: Message) => OfChat(e, x.ticket, c));
  }

  /** Whatever an ingest job logs or queues is about its own ticket. */
  lemma IngestLogs(dir: Directory, d: Desk, msg: Incoming, p: Picks, now: int, cut: Cut)
    ensures var e := IngestDesk(dir, d, msg, p, now, cut);
      && d.events <= e.events && d.outbox <= e.outbox
      && (forall k :: |d.events| <= k < |e.events| ==> e.events[k].ticket == Target(dir, d, p, now))
      && (forall j :: |d.outbox| <= j < |e.outbox| ==> e.outbox[j].ticket == Target(dir, d, p, now))
  {
    IngestCases(dir, d, msg, p, now, cut);
  }

  lemma IngestLogsElsewhere(dir: Directory, d: Desk, msg: Incoming, p: Picks, now: int, cut: Cut, c: ChatId)
    requires LegalPicks(dir, d, msg, p, now) && c < |dir.chats| && msg.chatTg != dir.chats[c].telegramId
    ensures LogsElsewhere(d, IngestDesk(dir, d, msg, p, now, cut), c)
  {
    IngestLogs(dir, d, msg, p, now, cut);
    if Accepts(dir, msg, p) && cut.Rank() >= 3 {
      IngestWrites(dir, d, msg, p, now, cut);
    }
  }

  lemma OtherLogsElsewhere(dir: Directory, d: Desk, now: int, s: Step, c: ChatId)
    requires !s.Ingest? && Elsewhere(dir, d, s, c)
    ensures LogsElsewhere(d, StepDesk(dir, d, now, s), c)
  {
  }

  lemma StepLeavesRecords(db: Db, ts: Timed, c: ChatId)
    requires Inv(db) && Legal(db, ts) && c < |db.dir.chats| && Elsewhere(db.dir, db.desk, ts.step, c)
    ensures SameRecords(db.desk, Apply(db, ts).desk, c)
  {
    InvIsReferenced(db);
    StepElsewhere(db, ts, c);
    if ts.step.Ingest? {
      IngestLogsElsewhere(db.dir, db.desk, ts.step.msg, ts.step.picks, ts.now, ts.step.cut, c);
    } else {
      OtherLogsElsewhere(db.dir, db.desk, ts.now, ts.step, c);
    }
    RecordsStay(db.desk, Apply(db, ts).desk, c);
  }

  lemma {:induction false} RunLeavesRecords(db: Db, run: seq<Timed>, c: ChatId)
    requires Inv(db) && LegalRun(db, run) && c < |db.dir.chats| && RunElsewhere(db, run, c)
    ensures SameRecords(db.desk, Exec(db, run).desk, c)
    decreases |run|
  {
    if run != [] {
      StepLeavesRecords(db, run[0], c);
      StepKeepsInv(db, run[0]);
      StepKeepsDir(db.dir, db.desk, run[0].step);
      RunLeavesRecords(Apply(db, run[0]), run[1..], c);
    }
  }

  // ---------- The chat after crash and retry ----------

  function Timeless(t: Ticket): Ticket { t.(createdAt := 0, updatedAt := 0) }

  /** The chat has the same tickets, but for creation and update times, and no others. */
  ghost predicate SameChatTickets(d: Desk, e: Desk, c: ChatId) {
    && (forall i: TicketId :: OfChat(d, i, c) ==> OfChat(e, i, c) && Timeless(e.tickets[i]) == Timeless(d.tickets[i]))
    && (forall i: TicketId :: OfChat(e, i, c) ==> OfChat(d, i, c))
  }

  ghost predicate SameRows(a: seq<Message>, b: seq<Message>) {
    |a| == |b| && forall k :: 0 <= k < |a| ==> a[k].(createdAt := 0) == b[k].(createdAt := 0)
  }

  /** For all the chat can tell, but for times, one desk is the other: tickets, conversation, log
      and outbound jobs. */
  ghost predicate SameChat(d: Desk, e: Desk, c: ChatId) {
    && SameChatTickets(d, e, c) && SameRows(ChatRows(d, c), ChatRows(e, c))
    && ChatEvents(e, c) == ChatEvents(d, c) && ChatJobs(e, c) == ChatJobs(d, c)
  }

  lemma UntouchedIsSame(d: Desk, e: Desk, c: ChatId)
    requires Untouched(d, e, c) && SameRecords(d, e, c)
    ensures SameChat(d, e, c)
  {
  }

  lemma KeptAppend<T>(rows: seq<T>, x: T, wanted: T -> bool)
    ensures Kept(rows + [x], wanted) == Kept(rows, wanted) + if wanted(x) then [x] else []
  {
    assert (rows + [x])[..|rows|] == rows;
  }

  /** What recording a message adds to its chat. */
  lemma RecordAdds(d: Desk, t: TicketId, msg: Incoming, replied: Option<MessageId>, now: int, c: ChatId)
    requires OfChat(d, t, c) && !HasRow(d.messages, t, msg.tgId)
    ensures var e := Record(d, t, msg, replied, now);
      && ChatRows(e, c) == ChatRows(d, c) + [InboundRow(t, msg, now)]
      && ChatEvents(e, c) == ChatEvents(d, c) && ChatJobs(e, c) == ChatJobs(d, c)
  {
    var e := Record(d, t, msg, replied, now);
    var before, after := (x: Message) => OfChat(d, x.ticket, c), (x: Message) => OfChat(e, x.ticket, c);
    KeptSame(d.messages, before, d.messages, after);
    KeptAppend(d.messages, InboundRow(t, msg, now), after);
    KeptSame(d.events, (x: Event) => OfChat(d, x.ticket, c), d.events, (x: Event) => OfChat(e, x.ticket, c));
    KeptSame(d.outbox, (x: Job) => OfChat(d, x.ticket, c), d.outbox, (x: Job) => OfChat(e, x.ticket, c));
  }

  lemma SameRowThere(d: Desk, e: Desk, c: ChatId, t: TicketId, tg: int)
    requires Untouched(d, e, c) && OfChat(d, t, c)
    requires forall m :: 0 <= m < |e.messages| ==> e.messages[m].ticket < |e.tickets|
    ensures HasRow(d.messages, t, tg) <==> HasRow(e.messages, t, tg)
  {
    RowStays(d, e, c, t, tg);
    if HasRow(e.messages, t, tg) {
      var m :| 0 <= m < |e.messages| && e.messages[m].ticket == t && e.messages[m].tgId == Some(tg);
      assert OfChat(e, t, c);
      assert m < |d.messages| && d.messages[m] == e.messages[m];
    }
  }

  /** Recording the same message on both sides of the steps in between. */
  lemma BothRecorded(d: Desk, e: Desk, c: ChatId, t: TicketId, msg: Incoming,
                     r1: Option<MessageId>, r2: Option<MessageId>, t1: int, t2: int)
    requires Untouched(d, e, c) && SameRecords(d, e, c) && OfChat(d, t, c)
    requires forall m :: 0 <= m < |e.messages| ==> e.messages[m].ticket < |e.tickets|
    ensures t < |e.tickets| && SameChat(Record(d, t, msg, r1, t1), Record(e, t, msg, r2, t2), c)
  {
    SameRowThere(d, e, c, t, msg.tgId);
    UntouchedIsSame(d, e, c);
    if !HasRow(d.messages, t, msg.tgId) {
      RecordAdds(d, t, msg, r1, t1, c);
      RecordAdds(e, t, msg, r2, t2, c);
      BothRestamped(d, e, c, t, msg, r1, r2, t1, t2);
    }
  }

  lemma BothRestamped(d: Desk, e: Desk, c: ChatId, t: TicketId, msg: Incoming,
                      r1: Option<MessageId>, r2: Option<MessageId>, t1: int, t2: int)
    requires SameChatTickets(d, e, c) && OfChat(d, t, c)
    requires !HasRow(d.messages, t, msg.tgId) && !HasRow(e.messages, t, msg.tgId)
    ensures SameChatTickets(Record(d, t, msg, r1, t1), Record(e, t, msg, r2, t2), c)
  {
    var d', e' := Record(d, t, msg, r1, t1), Record(e, t, msg, r2, t2);
    forall i: TicketId | OfChat(d, i, c)
      ensures OfChat(e', i, c) && Timeless(e'.tickets[i]) == Timeless(d'.tickets[i])
    {
      assert OfChat(e, i, c) && Timeless(e.tickets[i]) == Timeless(d.tickets[i]);
    }
  }

  /** The clean run: the first delivery carried on at least to recording its message. */
  function CleanRun(db: Db, first: Timed): Db
    requires first.step.Ingest?
  {
    Apply(db, Timed(first.now, Ingest(first.step.msg, first.step.picks, AtLeastRecorded(first.step.cut))))
  }

  /** A job that stopped anywhere after its first write to a ticket, any steps on other chats, and
      a retry that is recognised: the chat's tickets, conversation, log and outbound jobs are, up
      to times, those of one clean run; all of the acknowledgement that may be missing is what
      CompletionAddsOnlyAck names. */
  lemma CrashThenRetry(db: Db, first: Timed, run: seq<Timed>, s: Db, second: Timed)
    requires GoodFirst(db, first)
    requires LegalRun(Apply(db, first), run) && RunElsewhere(Apply(db, first), run, ChatOf(db.dir, first.step.msg.chatTg))
    requires s == Exec(Apply(db, first), run)
    requires second.step.Ingest? && second.step.msg == first.step.msg && Legal(s, second) && second.step.cut.Complete?
    requires Recognised(db, first, second.now) && Accepts(s.dir, first.step.msg, second.step.picks)
    ensures SameChat(CleanRun(db, first).desk, Apply(s, second).desk, ChatOf(db.dir, first.step.msg.chatTg))
  {
    var c := ChatOf(db.dir, first.step.msg.chatTg);
    ChatIsKnown(db, first);
    AfterFirst(db, first, run, c);
    RecordsAfterFirst(db, first, run, c);
    RunKeepsShape(db, first, run);
    RetrySettles(db, first, s, second);
  }

  lemma RecordsAfterFirst(db: Db, first: Timed, run: seq<Timed>, c: ChatId)
    requires Inv(db) && Legal(db, first) && LegalRun(Apply(db, first), run) && c < |Apply(db, first).dir.chats|
    requires RunElsewhere(Apply(db, first), run, c)
    ensures SameRecords(Apply(db, first).desk, Exec(Apply(db, first), run).desk, c)
  {
    StepKeepsInv(db, first);
    RunLeavesRecords(Apply(db, first), run, c);
  }

  lemma RetrySettles(db: Db, first: Timed, s: Db, second: Timed)
    requires GoodFirst(db, first) && Shape(s.desk) && DirInv(s.dir) && Grows(Apply(db, first).dir, s.dir)
    requires Untouched(Apply(db, first).desk, s.desk, ChatOf(db.dir, first.step.msg.chatTg))
    requires SameRecords(Apply(db, first).desk, s.desk, ChatOf(db.dir, first.step.msg.chatTg))
    requires second.step.Ingest? && second.step.msg == first.step.msg && Legal(s, second) && second.step.cut.Complete?
    requires Recognised(db, first, second.now) && Accepts(s.dir, first.step.msg, second.step.picks)
    ensures SameChat(CleanRun(db, first).desk, Apply(s, second).desk, ChatOf(db.dir, first.step.msg.chatTg))
  {
    SecondDecides(db, first, s, second.now, second.step.picks);
    FirstIsOfChat(db, first);
    RetryRecords(s, second);
    SettledRecords(db.dir, db.desk, first.step.msg, first.step.picks, first.now, first.step.cut, Apply(db, first).desk,
                   s.desk, RepliedRow(s.dir, s.desk, second.step.picks, second.now), second.now);
  }

  lemma RetryRecords(s: Db, second: Timed)
    requires second.step.Ingest? && second.step.cut.Complete? && Accepts(s.dir, second.step.msg, second.step.picks)
    requires var r := DecisionFor(s.dir, s.desk, second.step.picks, second.now);
      r.Attach? && !r.revive && r.ticket < |s.desk.tickets|
    ensures Apply(s, second).desk == Record(s.desk, DecisionFor(s.dir, s.desk, second.step.picks, second.now).ticket,
      second.step.msg, RepliedRow(s.dir, s.desk, second.step.picks, second.now), second.now)
  {
    AttachedIngest(s.dir, s.desk, second.step.msg, second.step.picks, second.now, Complete);
  }

  lemma FirstIsOfChat(db: Db, first: Timed)
    requires GoodFirst(db, first)
    ensures OfChat(Apply(db, first).desk, Target(db.dir, db.desk, first.step.picks, first.now), ChatOf(db.dir, first.step.msg.chatTg))
  {
    FirstSettles(db.dir, db.desk, first.step.msg, first.step.picks, first.now, first.step.cut);
  }

  /** The retry of a job that had written its ticket but not its message. */
  lemma RetryAtTicket(dir: Directory, d: Desk, msg: Incoming, p: Picks, now: int, f: Desk, e: Desk, c: ChatId,
                      replied: Option<MessageId>, later: int)
    requires Accepts(dir, msg, p) && f == IngestDesk(dir, d, msg, p, now, AfterTicket)
    requires Untouched(f, e, c) && SameRecords(f, e, c) && OfChat(f, Target(dir, d, p, now), c)
    requires forall m :: 0 <= m < |e.messages| ==> e.messages[m].ticket < |e.tickets|
    ensures Target(dir, d, p, now) < |e.tickets|
    ensures SameChat(IngestDesk(dir, d, msg, p, now, AfterRecord), Record(e, Target(dir, d, p, now), msg, replied, later), c)
  {
    RecordedNext(dir, d, msg, p, now);
    BothRecorded(f, e, c, Target(dir, d, p, now), msg, RepliedRow(dir, d, p, now), replied, now, later);
  }

  lemma SettledRecords(dir: Directory, d: Desk, msg: Incoming, p: Picks, now: int, cut: Cut, f: Desk,
                       e: Desk, replied: Option<MessageId>, later: int)
    requires Accepts(dir, msg, p) && cut.Rank() >= 3 && f == IngestDesk(dir, d, msg, p, now, cut)
    requires Untouched(f, e, ChatOf(dir, msg.chatTg)) && SameRecords(f, e, ChatOf(dir, msg.chatTg))
    requires OfChat(f, Target(dir, d, p, now), ChatOf(dir, msg.chatTg)) && Target(dir, d, p, now) < |e.tickets|
    requires forall m :: 0 <= m < |e.messages| ==> e.messages[m].ticket < |e.tickets|
    requires cut.Rank() >= 4 ==> HasRow(e.messages, Target(dir, d, p, now), msg.tgId)
    ensures SameChat(IngestDesk(dir, d, msg, p, now, AtLeastRecorded(cut)),
                     Record(e, Target(dir, d, p, now), msg, replied, later), ChatOf(dir, msg.chatTg))
  {
    if cut.AfterTicket? {
      RetryAtTicket(dir, d, msg, p, now, f, e, ChatOf(dir, msg.chatTg), replied, later);
    } else {
      UntouchedIsSame(f, e, ChatOf(dir, msg.chatTg));
    }
  }

  /** Carrying a job on from its ticket to its message. */
  lemma RecordedNext(dir: Directory, d: Desk, msg: Incoming, p: Picks, now: int)
    requires Accepts(dir, msg, p)
    ensures Target(dir, d, p, now) < |IngestDesk(dir, d, msg, p, now, AfterTicket).tickets|
    ensures IngestDesk(dir, d, msg, p, now, AfterRecord) ==
      Record(IngestDesk(dir, d, msg, p, now, AfterTicket), Target(dir, d, p, now), msg, RepliedRow(dir, d, p, now), now)
  {
  }

  // ---------- A crash before any ticket was written ----------

  /** The run brings no message of the given Telegram chat. */
  predicate NoMessagesOf(run: seq<Timed>, chatTg: int) {
    forall k :: 0 <= k < |run| && run[k].step.Ingest? ==> run[k].step.msg.chatTg != chatTg
  }

  /** Ticket `i` belongs to the Telegram chat. */
  predicate FromTelegram(db: Db, i: TicketId, chatTg: int) {
    && i < |db.desk.tickets| && db.desk.tickets[i].chat < |db.dir.chats|
    && db.dir.chats[db.desk.tickets[i].chat].telegramId == chatTg
  }

  /** No ticket from position `n` on is of the Telegram chat. */
  ghost predicate NoneSince(db: Db, n: nat, chatTg: int) {
    forall i: TicketId :: n <= i ==> !FromTelegram(db, i, chatTg)
  }

  lemma OldTicketsStay(db: Db, ts: Timed, i: TicketId, chatTg: int)
    requires DirInv(db.dir) && i < |db.desk.tickets| && db.desk.tickets[i].chat < |db.dir.chats|
    ensures FromTelegram(Apply(db, ts), i, chatTg) <==> FromTelegram(db, i, chatTg)
  {
    StepKeepsDir(db.dir, db.desk, ts.step);
    if ts.step.Ingest? {
      IngestCases(db.dir, db.desk, ts.step.msg, ts.step.picks, ts.now, ts.step.cut);
      PlaceFrame(db.dir, db.desk, ts.step.msg, ts.step.picks, ts.now);
    } else {
      OtherStepFrame(db.dir, db.desk, ts.now, ts.step);
    }
  }

  lemma NewTicketIsOfMessage(db: Db, ts: Timed, i: TicketId)
    requires |db.desk.tickets| <= i < |Apply(db, ts).desk.tickets|
    ensures ts.step.Ingest? && i == |db.desk.tickets| && FromTelegram(Apply(db, ts), i, ts.step.msg.chatTg)
  {
    if ts.step.Ingest? {
      IngestCases(db.dir, db.desk, ts.step.msg, ts.step.picks, ts.now, ts.step.cut);
      PlaceFrame(db.dir, db.desk, ts.step.msg, ts.step.picks, ts.now);
    } else {
      OtherStepFrame(db.dir, db.desk, ts.now, ts.step);
    }
  }

  lemma {:induction false} NoneAppear(db: Db, run: seq<Timed>, n: nat, chatTg: int)
    requires Inv(db) && LegalRun(db, run) && NoMessagesOf(run, chatTg)
    requires NoneSince(db, n, chatTg)
    ensures NoneSince(Exec(db, run), n, chatTg)
    decreases |run|
  {
    if run != [] {
      var after := Apply(db, run[0]);
      StepKeepsInv(db, run[0]);
      forall i: TicketId | n <= i
        ensures !FromTelegram(after, i, chatTg)
      {
        if i < |db.desk.tickets| {
          OldTicketsStay(db, run[0], i, chatTg);
        } else if i < |after.desk.tickets| {
          NewTicketIsOfMessage(db, run[0], i);
        }
      }
      NoneAppear(after, run[1..], n, chatTg);
    }
  }

  /** A job that stopped before it wrote to a ticket left the desk as it was. Whatever then happens,
      short of messages to the same Telegram chat, the retry leaves exactly one row of the message
      on the ticket it chooses, and the chat has gained at most one ticket since the crash. */
  lemma EarlyCrashThenLaterRetry(db: Db, first: Timed, run: seq<Timed>, s: Db, second: Timed)
    requires Inv(db) && Legal(db, first) && first.step.Ingest?
    requires !Wrote(db.dir, db.desk, first.step.msg, first.step.picks, first.now, first.step.cut)
    requires LegalRun(Apply(db, first), run) && NoMessagesOf(run, first.step.msg.chatTg)
    requires s == Exec(Apply(db, first), run)
    requires second.step.Ingest? && second.step.msg == first.step.msg && Legal(s, second) && second.step.cut.Complete?
    ensures Apply(db, first).desk == db.desk
    ensures var e, n, tg := Apply(s, second), |db.desk.tickets|, first.step.msg.chatTg;
      && (forall i, j :: n <= i && n <= j && FromTelegram(e, i, tg) && FromTelegram(e, j, tg) ==> i == j)
      && (Accepts(s.dir, first.step.msg, second.step.picks) ==>
            RowsOf(e.desk, Target(s.dir, s.desk, second.step.picks, second.now), first.step.msg.tgId) == 1)
      && (!Accepts(s.dir, first.step.msg, second.step.picks) ==> e.desk == s.desk)
  {
    NothingWritten(db.dir, db.desk, first.step.msg, first.step.picks, first.now, first.step.cut);
    StepKeepsInv(db, first);
    RunKeepsInv(Apply(db, first), run);
    NoneAppear(Apply(db, first), run, |db.desk.tickets|, first.step.msg.chatTg);
    AtMostOneMore(s, second, |db.desk.tickets|);
    if Accepts(s.dir, first.step.msg, second.step.picks) {
      StepKeepsInv(s, second);
      RowOnTarget(s.dir, s.desk, first.step.msg, second.step.picks, second.now);
      RowsAreUnique(Apply(s, second).desk, Target(s.dir, s.desk, second.step.picks, second.now), first.step.msg.tgId);
    }
  }

  lemma AtMostOneMore(s: Db, second: Timed, n: nat)
    requires Inv(s) && Legal(s, second) && second.step.Ingest? && NoneSince(s, n, second.step.msg.chatTg)
    ensures var e, tg := Apply(s, second), second.step.msg.chatTg;
      forall i, j :: n <= i && n <= j && FromTelegram(e, i, tg) && FromTelegram(e, j, tg) ==> i == j
  {
    var e, tg := Apply(s, second), second.step.msg.chatTg;
    forall i: TicketId | n <= i && FromTelegram(e, i, tg)
      ensures i == |s.desk.tickets|
    {
      if i < |s.desk.tickets| {
        OldTicketsStay(s, second, i, tg);
      } else {
        NewTicketIsOfMessage(s, second, i);
      }
    }
  }

  /** How many rows of the ticket carry the Telegram id. */
  function RowsOf(d: Desk, t: TicketId, tg: int): nat {
    |Kept(d.messages, (m: Message) => m.ticket == t && m.tgId == Some(tg))|
  }

  lemma RowOnTarget(dir: Directory, d: Desk, msg: Incoming, p: Picks, now: int)
    requires Accepts(dir, msg, p)
    ensures HasRow(IngestDesk(dir, d, msg, p, now, Complete).messages, Target(dir, d, p, now), msg.tgId)
  {
    var placed, t := Place(dir, d, msg, p, now), Target(dir, d, p, now);
    var recorded := Recorded(dir, d, msg, p, now);
    RecordedOnce(placed, t, msg, RepliedRow(dir, d, p, now), now);
    var m :| 0 <= m < |recorded.messages| && recorded.messages[m].ticket == t && recorded.messages[m].tgId == Some(msg.tgId);
    assert IngestDesk(dir, d, msg, p, now, Complete).messages[m] == recorded.messages[m];
  }

  lemma RowsAreUnique(d: Desk, t: TicketId, tg: int)
    requires Shape(d) && HasRow(d.messages, t, tg)
    ensures RowsOf(d, t, tg) == 1
  {
    var wanted := (m: Message) => m.ticket == t && m.tgId == Some(tg);
    var m :| 0 <= m < |d.messages| && wanted(d.messages[m]);
    assert forall n :: 0 <= n < |d.messages| && wanted(d.messages[n]) ==> n == m;
    KeptOne(d.messages, wanted, m);
  }

  lemma {:induction false} KeptOne<T>(rows: seq<T>, wanted: T -> bool, m: nat)
    requires m < |rows| && wanted(rows[m]) && forall n :: 0 <= n < |rows| && wanted(rows[n]) ==> n == m
    ensures |Kept(rows, wanted)| == 1
  {
    var k := |rows| - 1;
    if m == k {
      KeptNone(rows[..k], wanted);
    } else {
      KeptOne(rows[..k], wanted, m);
    }
  }

  lemma {:induction false} KeptNone<T>(rows: seq<T>, wanted: T -> bool)
    requires forall n :: 0 <= n < |rows| ==> !wanted(rows[n])
    ensures Kept(rows, wanted) == []
  {
    if rows != [] {
      KeptNone(rows[..|rows| - 1], wanted);
    }
  }
}
