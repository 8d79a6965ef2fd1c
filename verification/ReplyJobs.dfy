/** What is sent out: the job of every reply and acknowledgement, where it goes and what it quotes. */
module ReplyJobs {
  import opened Types
  import opened DirectorySpec
  import opened DeskSpec
  import opened DeskInvariants
  import opened DeskKeeps
  import opened Engine
  import opened Reachable
  import opened QuoteRuns
  import opened RunProperties

  // ---------- One agent reply ----------

  /** A zero id quotes nothing. */
  predicate QuotesId(j: Job, id: int) {
    j.replyTo == if id == 0 then None else Some(id)
  }

  /** A row and a job are added, and the row is what the agent wrote. */
  ghost predicate WentOut(d: Desk, e: Desk, t: TicketId, agent: AgentId, text: string, now: int) {
    && |e.messages| == |d.messages| + 1 && d.messages <= e.messages
    && e.messages[|d.messages|] == Message(t, Out, FromAgent, Some(agent), None, Some(text), now)
    && |e.outbox| == |d.outbox| + 1 && d.outbox <= e.outbox
    && e.outbox[|d.outbox|].ticket == t && e.outbox[|d.outbox|].message == |d.messages|
    && e.outbox[|d.outbox|].text == Some(text)
    && e.events == d.events && |e.tickets| == |d.tickets|
  }

  /** Told to quote, a reply quotes the ticket's latest customer message, or its anchor before any
      is recorded; told not to, it quotes nothing. Left to itself it quotes the ticket's latest row
      if that is a customer's, nothing if it is not, and the anchor if there are no rows. */
  ghost predicate QuotesAsTold(d: Desk, t: TicketId, mode: QuoteMode, latest: Option<MessageId>, j: Job)
    requires t < |d.tickets| && IsLatestPick(d, t, latest)
  {
    match mode
    case Force =>
      && (forall m: MessageId | LatestInbound(d.messages, t, m) :: QuotesRow(j, d.messages[m]))
      && (NoInbound(d.messages, t) ==> QuotesId(j, d.tickets[t].anchor))
    case Never => j.replyTo.None?
    case Auto =>
      if latest.None? then QuotesId(j, d.tickets[t].anchor)
      else if d.messages[latest.value].direction.In? then QuotesRow(j, d.messages[latest.value])
      else j.replyTo.None?
  }

  predicate QuotesRow(j: Job, row: Message) { row.tgId.Some? && QuotesId(j, row.tgId.value) }

  ghost predicate ReplyWorked(dir: Directory, d: Desk, e: Desk, r: Step, now: int)
    requires r.ReplyTo? && r.t < |d.tickets| && IsLatestPick(d, r.t, r.latest)
  {
    && WentOut(d, e, r.t, r.agent, r.text, now)
    && e.tickets[r.t].firstResponseAt ==
       (if d.tickets[r.t].firstResponseAt.Some? then d.tickets[r.t].firstResponseAt else Some(now))
    && JobWorked(dir, d, e, r, e.outbox[|d.outbox|])
  }

  ghost predicate JobWorked(dir: Directory, d: Desk, e: Desk, r: Step, j: Job)
    requires r.ReplyTo? && r.t < |d.tickets| && IsLatestPick(d, r.t, r.latest)
  {
    && d.tickets[r.t].chat < |dir.chats| && j.chatTg == dir.chats[d.tickets[r.t].chat].telegramId
    && QuotesAsTold(d, r.t, r.mode, r.latest, j)
    && (|d.messages| in e.past.autoQuoted <==> r.mode.Auto? && j.replyTo.Some?)
  }

  /** In every reachable state: a reply of a known agent on a known ticket adds its row and one job
      to the chat of the ticket, quoting as told; any other changes nothing. */
  lemma ReplyJob(db: Db, run: seq<Timed>, ts: Timed)
    requires Initial(db) && LegalRun(db, run) && Legal(Exec(db, run), ts) && ts.step.ReplyTo?
    ensures var s, e := Exec(db, run), Apply(Exec(db, run), ts).desk;
      if ts.step.t < |s.desk.tickets| && ts.step.agent < |s.dir.agents|
      then ReplyWorked(s.dir, s.desk, e, ts.step, ts.now)
      else e == s.desk
  {
    InitialInv(db);
    RunKeepsInv(db, run);
    InitialQuotes(db);
    RunKeepsQuotes(db, run);
    var s := Exec(db, run);
    if ts.step.t < |s.desk.tickets| && ts.step.agent < |s.dir.agents| {
      ReplyInState(s.dir, s.desk, s.clock, ts.step, ts.now);
    }
  }

  lemma InitialQuotes(db: Db)
    requires Initial(db)
    ensures Quotes(db.desk)
  {
  }

  lemma ReplyInState(dir: Directory, d: Desk, clock: int, r: Step, now: int)
    requires DeskInv(d, clock) && Membership(dir, d) && Quotes(d)
    requires r.ReplyTo? && IsLatestPick(d, r.t, r.latest) && r.t < |d.tickets| && r.agent < |dir.agents|
    ensures ReplyWorked(dir, d, Reply(d, dir, r.t, r.agent, r.text, r.mode, r.latest, now), r, now)
  {
    var e := Reply(d, dir, r.t, r.agent, r.text, r.mode, r.latest, now);
    assert forall q :: q in d.past.autoQuoted ==> Prompted(d.messages, q);
    assert |d.messages| !in d.past.autoQuoted;
    QuoteIsAsTold(d, clock, r, e.outbox[|d.outbox|]);
  }

  lemma QuoteIsAsTold(d: Desk, clock: int, r: Step, j: Job)
    requires DeskInv(d, clock) && r.ReplyTo? && IsLatestPick(d, r.t, r.latest) && r.t < |d.tickets|
    requires j.replyTo == QuoteOf(d, r.t, r.mode, r.latest)
    ensures QuotesAsTold(d, r.t, r.mode, r.latest, j)
  {
    if r.latest.None? {
      assert NoInbound(d.messages, r.t);
    }
  }

  // ---------- The outbound queue over runs ----------

  /** The job sends its row's text to the Telegram chat of the row's ticket. */
  ghost predicate JobTrue(dir: Directory, d: Desk, j: Job) {
    && j.message < |d.messages| && d.messages[j.message].ticket == j.ticket && d.messages[j.message].direction.Out?
    && d.messages[j.message].text == j.text
    && j.ticket < |d.tickets| && d.tickets[j.ticket].chat < |dir.chats|
    && dir.chats[d.tickets[j.ticket].chat].telegramId == j.chatTg
    && (d.messages[j.message].sender.FromBot? ==> j.replyTo == Some(d.tickets[j.ticket].anchor) && j.text == Some(AUTO_ACK_TEXT))
  }

  ghost predicate JobsTrue(dir: Directory, d: Desk) {
    && (forall j :: 0 <= j < |d.outbox| ==> JobTrue(dir, d, d.outbox[j]))
    && (forall j, k :: 0 <= j < k < |d.outbox| ==> d.outbox[j].message != d.outbox[k].message)
  }

  /** Rows keep their ticket, direction, sender and text; tickets their identity. */
  ghost predicate RowsKept(d: Desk, e: Desk) {
    && |d.messages| <= |e.messages| && |d.tickets| <= |e.tickets|
    && (forall m :: 0 <= m < |d.messages| ==>
          && e.messages[m].ticket == d.messages[m].ticket && e.messages[m].direction == d.messages[m].direction
          && e.messages[m].sender == d.messages[m].sender && e.messages[m].text == d.messages[m].text)
    && (forall i :: 0 <= i < |d.tickets| ==> SameIdentity(d.tickets[i], e.tickets[i]))
  }

  lemma JobsStayTrue(dir: Directory, d: Desk, dir': Directory, e: Desk)
    requires JobsTrue(dir, d) && RowsKept(d, e) && Grows(dir, dir') && e.outbox == d.outbox
    ensures JobsTrue(dir', e)
  {
    forall j | 0 <= j < |e.outbox|
      ensures JobTrue(dir', e, e.outbox[j])
    {
      assert JobTrue(dir, d, d.outbox[j]);
    }
  }

  lemma JobAdded(dir: Directory, d: Desk, dir': Directory, e: Desk, job: Job)
    requires JobsTrue(dir, d) && RowsKept(d, e) && Grows(dir, dir') && e.outbox == d.outbox + [job]
    requires JobTrue(dir', e, job) && |d.messages| <= job.message
    ensures JobsTrue(dir', e)
  {
    forall j | 0 <= j < |e.outbox|
      ensures JobTrue(dir', e, e.outbox[j])
    {
      if j < |d.outbox| {
        assert JobTrue(dir, d, d.outbox[j]);
      }
    }
    forall j, k | 0 <= j < k < |e.outbox|
      ensures e.outbox[j].message != e.outbox[k].message
    {
      assert JobTrue(dir, d, d.outbox[j]);
    }
  }

  lemma ReplyKeepsJobs(db: Db, ts: Timed)
    requires Inv(db) && JobsTrue(db.dir, db.desk) && ts.step.ReplyTo?
    ensures JobsTrue(Apply(db, ts).dir, Apply(db, ts).desk)
  {
    var d, r := db.desk, ts.step;
    var e := Reply(d, db.dir, r.t, r.agent, r.text, r.mode, r.latest, ts.now);
    if ReplyOk(d, db.dir, r.t, r.agent) {
      JobAdded(db.dir, d, db.dir, e, e.outbox[|d.outbox|]);
    }
  }

  lemma IngestKeepsJobs(db: Db, ts: Timed)
    requires Inv(db) && Legal(db, ts) && JobsTrue(db.dir, db.desk) && ts.step.Ingest?
    ensures JobsTrue(Apply(db, ts).dir, Apply(db, ts).desk)
  {
    var dir, d, msg, p, now, cut := db.dir, db.desk, ts.step.msg, ts.step.picks, ts.now, ts.step.cut;
    var dir', e := Apply(db, ts).dir, Apply(db, ts).desk;
    StepKeepsDir(dir, d, ts.step);
    IngestRows(dir, d, msg, p, now, cut);
    if e.outbox == d.outbox {
      JobsStayTrue(dir, d, dir', e);
    } else {
      AckIsTrue(dir, d, msg, p, now, cut);
      JobAdded(dir, d, dir', e, e.outbox[|d.outbox|]);
    }
  }

  lemma IngestRows(dir: Directory, d: Desk, msg: Incoming, p: Picks, now: int, cut: Cut)
    ensures RowsKept(d, IngestDesk(dir, d, msg, p, now, cut))
  {
    PlaceFrame(dir, d, msg, p, now);
    IngestCases(dir, d, msg, p, now, cut);
  }

  /** All that ingest sends is the acknowledgement of a new thread, quoting its first message. */
  lemma AckIsTrue(dir: Directory, d: Desk, msg: Incoming, p: Picks, now: int, cut: Cut)
    requires Shape(d) && DirInv(dir)
    requires IngestDesk(dir, d, msg, p, now, cut).outbox != d.outbox
    ensures var e, r := IngestDesk(dir, d, msg, p, now, cut), Resolved(dir, msg);
      && Accepts(dir, msg, p) && cut.Complete? && IngestDir(dir, msg, p, cut) == r
      && |e.outbox| == |d.outbox| + 1 && e.outbox == d.outbox + [e.outbox[|d.outbox|]]
      && |d.messages| <= e.outbox[|d.outbox|].message && JobTrue(r, e, e.outbox[|d.outbox|])
  {
    ResolvedKeeps(dir, msg);
    IngestCases(dir, d, msg, p, now, cut);
    NoOtherJobs(dir, d, msg, p, now);
    NewThreadHasNoBot(dir, d, msg, p, now);
    AckedThread(dir, d, msg, p, now);
  }

  lemma NoOtherJobs(dir: Directory, d: Desk, msg: Incoming, p: Picks, now: int)
    ensures Place(dir, d, msg, p, now).outbox == d.outbox && Recorded(dir, d, msg, p, now).outbox == d.outbox
  {
  }

  lemma AckedThread(dir: Directory, d: Desk, msg: Incoming, p: Picks, now: int)
    requires DecisionFor(dir, d, p, now).CreateNew? && Shape(d)
    ensures var r := Recorded(dir, d, msg, p, now);
      && |r.tickets| == |d.tickets| + 1 && r.tickets[|d.tickets|].anchor == msg.tgId
      && r.tickets[|d.tickets|].chat == ChatOf(dir, msg.chatTg) && r.outbox == d.outbox
  {
    NewThreadHasNoBot(dir, d, msg, p, now);
  }

  lemma OtherKeepsJobs(db: Db, ts: Timed)
    requires Inv(db) && JobsTrue(db.dir, db.desk) && !ts.step.Ingest? && !ts.step.ReplyTo?
    ensures JobsTrue(Apply(db, ts).dir, Apply(db, ts).desk)
  {
    StepKeepsDir(db.dir, db.desk, ts.step);
    OtherRows(db, ts);
    JobsStayTrue(db.dir, db.desk, Apply(db, ts).dir, Apply(db, ts).desk);
  }

  lemma OtherRows(db: Db, ts: Timed)
    requires !ts.step.Ingest? && !ts.step.ReplyTo?
    ensures RowsKept(db.desk, Apply(db, ts).desk) && Apply(db, ts).desk.outbox == db.desk.outbox
  {
  }

  lemma {:induction false} RunKeepsJobs(db: Db, run: seq<Timed>)
    requires Inv(db) && LegalRun(db, run) && JobsTrue(db.dir, db.desk)
    ensures JobsTrue(Exec(db, run).dir, Exec(db, run).desk)
    decreases |run|
  {
    if run != [] {
      StepKeepsJobs(db, run[0]);
      RunKeepsJobs(Apply(db, run[0]), run[1..]);
    }
  }

  lemma StepKeepsJobs(db: Db, ts: Timed)
    requires Inv(db) && Legal(db, ts) && JobsTrue(db.dir, db.desk)
    ensures Inv(Apply(db, ts)) && JobsTrue(Apply(db, ts).dir, Apply(db, ts).desk)
  {
    StepKeepsInv(db, ts);
    if ts.step.Ingest? {
      IngestKeepsJobs(db, ts);
    } else if ts.step.ReplyTo? {
      ReplyKeepsJobs(db, ts);
    } else {
      OtherKeepsJobs(db, ts);
    }
  }

  /** In every reachable state, crashed jobs and all: every outbound job sends the text of one
      outgoing row to the Telegram chat of that row's ticket, no row is sent twice, and an
      acknowledgement quotes the message its thread began with. */
  lemma QueueIsTrue(db: Db, run: seq<Timed>)
    requires Initial(db) && LegalRun(db, run)
    ensures JobsTrue(Exec(db, run).dir, Exec(db, run).desk)
  {
    InitialInv(db);
    RunKeepsJobs(db, run);
  }

  // ---------- The first response ----------

  predicate IsFirstAnswer(messages: seq<Message>, t: TicketId, m: MessageId) {
    && m < |messages| && messages[m].ticket == t && messages[m].sender.FromAgent?
    && forall n :: 0 <= n < m && messages[n].ticket == t ==> !messages[n].sender.FromAgent?
  }

  ghost predicate ResponsesTrue(d: Desk) {
    forall t: TicketId, m: MessageId :: t < |d.tickets| && IsFirstAnswer(d.messages, t, m) ==>
      d.tickets[t].firstResponseAt == Some(d.messages[m].createdAt)
  }

  /** Rows keep ticket, sender and time; tickets that had an answer keep their stamp. */
  ghost predicate AnswersStay(d: Desk, e: Desk) {
    && |d.messages| <= |e.messages| && |d.tickets| <= |e.tickets|
    && (forall m :: 0 <= m < |d.messages| ==>
          e.messages[m].ticket == d.messages[m].ticket && e.messages[m].sender == d.messages[m].sender
          && e.messages[m].createdAt == d.messages[m].createdAt)
    && (forall t :: 0 <= t < |d.tickets| && d.tickets[t].firstResponseAt.Some? ==>
          e.tickets[t].firstResponseAt == d.tickets[t].firstResponseAt)
  }

  lemma SamePrefixAnswer(d: Desk, e: Desk, t: TicketId, m: MessageId)
    requires AnswersStay(d, e) && IsFirstAnswer(e.messages, t, m) && m < |d.messages|
    ensures IsFirstAnswer(d.messages, t, m)
  {
    assert forall n :: 0 <= n <= m ==> e.messages[n].ticket == d.messages[n].ticket && e.messages[n].sender == d.messages[n].sender;
  }

  lemma NoNewAnswers(d: Desk, e: Desk)
    requires ResponsesTrue(d) && AnswersStay(d, e) && forall m :: 0 <= m < |d.messages| ==> d.messages[m].ticket < |d.tickets|
    requires forall m :: |d.messages| <= m < |e.messages| ==> !e.messages[m].sender.FromAgent?
    ensures ResponsesTrue(e)
  {
    forall t: TicketId, m: MessageId | t < |e.tickets| && IsFirstAnswer(e.messages, t, m)
      ensures e.tickets[t].firstResponseAt == Some(e.messages[m].createdAt)
    {
      SamePrefixAnswer(d, e, t, m);
    }
  }

  lemma ReplyKeepsResponses(d: Desk, clock: int, dir: Directory, r: Step, now: int)
    requires r.ReplyTo? && DeskInv(d, clock) && ResponsesTrue(d)
    ensures ResponsesTrue(Reply(d, dir, r.t, r.agent, r.text, r.mode, r.latest, now))
  {
    var e := Reply(d, dir, r.t, r.agent, r.text, r.mode, r.latest, now);
    if ReplyOk(d, dir, r.t, r.agent) {
      assert AnswersStay(d, e);
      forall t: TicketId, m: MessageId | t < |e.tickets| && IsFirstAnswer(e.messages, t, m)
        ensures e.tickets[t].firstResponseAt == Some(e.messages[m].createdAt)
      {
        if m < |d.messages| {
          SamePrefixAnswer(d, e, t, m);
        } else {
          StillUnanswered(d, e, t, m);
        }
      }
    }
  }

  lemma StillUnanswered(d: Desk, e: Desk, t: TicketId, m: MessageId)
    requires AnswersStay(d, e) && IsFirstAnswer(e.messages, t, m) && |d.messages| <= m
    ensures !HasAgentRow(d.messages, t)
  {
    assert forall n :: 0 <= n < |d.messages| ==> e.messages[n].ticket == d.messages[n].ticket && e.messages[n].sender == d.messages[n].sender;
  }

  lemma IngestAnswersStay(dir: Directory, d: Desk, msg: Incoming, p: Picks, now: int, cut: Cut)
    ensures var e := IngestDesk(dir, d, msg, p, now, cut);
      AnswersStay(d, e) && forall m :: |d.messages| <= m < |e.messages| ==> !e.messages[m].sender.FromAgent?
  {
    var placed := Place(dir, d, msg, p, now);
    assert placed.messages == d.messages && AnswersStay(d, placed);
    IngestCases(dir, d, msg, p, now, cut);
  }

  lemma OtherAnswersStay(db: Db, ts: Timed)
    requires !ts.step.Ingest? && !ts.step.ReplyTo?
    ensures var d, e := db.desk, Apply(db, ts).desk;
      AnswersStay(d, e) && |e.messages| == |d.messages|
  {
  }

  lemma StepKeepsResponses(db: Db, ts: Timed)
    requires Inv(db) && ResponsesTrue(db.desk)
    ensures ResponsesTrue(Apply(db, ts).desk)
  {
    if ts.step.Ingest? {
      IngestAnswersStay(db.dir, db.desk, ts.step.msg, ts.step.picks, ts.now, ts.step.cut);
      NoNewAnswers(db.desk, Apply(db, ts).desk);
    } else if ts.step.ReplyTo? {
      ReplyKeepsResponses(db.desk, db.clock, db.dir, ts.step, ts.now);
    } else {
      OtherAnswersStay(db, ts);
      NoNewAnswers(db.desk, Apply(db, ts).desk);
    }
  }

  lemma {:induction false} RunKeepsResponses(db: Db, run: seq<Timed>)
    requires Inv(db) && LegalRun(db, run) && ResponsesTrue(db.desk)
    ensures ResponsesTrue(Exec(db, run).desk)
    decreases |run|
  {
    if run != [] {
      StepKeepsResponses(db, run[0]);
      StepKeepsInv(db, run[0]);
      RunKeepsResponses(Apply(db, run[0]), run[1..]);
    }
  }

  /** In every reachable state the first response of a ticket is the time of its first row by an
      agent, and is missing exactly if there is none. */
  lemma FirstResponseIsFirstAnswer(db: Db, run: seq<Timed>, t: TicketId)
    requires Initial(db) && LegalRun(db, run) && t < |Exec(db, run).desk.tickets|
    ensures var d := Exec(db, run).desk;
      && (forall m: MessageId :: IsFirstAnswer(d.messages, t, m) ==> d.tickets[t].firstResponseAt == Some(d.messages[m].createdAt))
      && (d.tickets[t].firstResponseAt.None? <==>
            forall m :: 0 <= m < |d.messages| && d.messages[m].ticket == t ==> !d.messages[m].sender.FromAgent?)
  {
    InitialInv(db);
    RunKeepsResponses(db, run);
    LifecycleStamps(db, run);
  }
}
