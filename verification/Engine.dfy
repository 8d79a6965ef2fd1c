/** The whole system as one state machine: every service call is a step on the database, and an
    ingest job may stop after any of its writes. */
module Engine {
  import opened Types
  import opened DirectorySpec
  import opened ThreadGrouping
  import opened RoutingSpec
  import opened DeskSpec
  import opened AnalyticsSpec

  // ---------- Ingest ----------

  /** The last write an ingest job performs before it stops. */
  datatype Cut = AfterClassify | AfterChat | AfterCustomer | AfterTicket | AfterRecord | AfterAckRow | Complete {
    function Rank(): nat {
      match this
      case AfterClassify => 0
      case AfterChat => 1
      case AfterCustomer => 2
      case AfterTicket => 3
      case AfterRecord => 4
      case AfterAckRow => 5
      case Complete => 6
    }
  }

  /** How the database resolved the choices the queries leave open, and when the job ended. */
  datatype Picks = Picks(
    excluded: Option<ExcludedId>, anchor: Option<MessageId>, active: Option<TicketId>,
    members: seq<AgentId>, doneAt: int)

  function Resolved(dir: Directory, msg: Incoming): (r: Directory)
    ensures ChatOf(dir, msg.chatTg) < |r.chats| && r.chats[ChatOf(dir, msg.chatTg)].telegramId == msg.chatTg
    ensures r.idleMinutes == dir.idleMinutes && r.agents == dir.agents && r.members == dir.members
  {
    WithCustomer(WithChat(dir, msg.chatTg, msg.chatTitle), msg.fromTg, msg.username, msg.name)
  }

  predicate Accepts(dir: Directory, msg: Incoming, p: Picks) {
    Classify(dir, msg.fromTg, p.excluded).FromClient?
  }

  function IngestDir(dir: Directory, msg: Incoming, p: Picks, cut: Cut): Directory {
    if !Accepts(dir, msg, p) then ClassifyWrites(dir, msg.fromTg, p.excluded)
    else match cut
      case AfterClassify => dir
      case AfterChat => WithChat(dir, msg.chatTg, msg.chatTitle)
      case _ => Resolved(dir, msg)
  }

  function DecisionFor(dir: Directory, d: Desk, p: Picks, now: int): (r: Decision)
    ensures r.Attach? ==> r.ticket < |d.tickets| && !d.tickets[r.ticket].status.Terminal()
    ensures r.Attach? ==> r.revive == !d.tickets[r.ticket].status.Open?
  {
    Decide(d, dir.idleMinutes, now, p.anchor, p.active)
  }

  function Target(dir: Directory, d: Desk, p: Picks, now: int): TicketId {
    match DecisionFor(dir, d, p, now)
    case Attach(t, _, _) => t
    case CreateNew => |d.tickets|
  }

  function Newborn(dir: Directory, d: Desk, msg: Incoming, p: Picks, now: int): Ticket {
    var chat := Resolved(dir, msg).chats[ChatOf(dir, msg.chatTg)];
    NewTicket(ChatOf(dir, msg.chatTg), CustomerOf(dir, msg.fromTg), msg.tgId, chat.priority, chat.team,
              AssigneeFor(d.tickets, chat, p.members), now)
  }

  /** Revives the thread found, or starts a new one. */
  function Place(dir: Directory, d: Desk, msg: Incoming, p: Picks, now: int): (r: Desk)
    ensures Target(dir, d, p, now) < |r.tickets|
  {
    match DecisionFor(dir, d, p, now)
    case Attach(t, revive, _) => if revive then Patch(d, dir, t, StatusOnly(Open), None, now) else d
    case CreateNew => Create(d, Newborn(dir, d, msg, p, now))
  }

  function RepliedRow(dir: Directory, d: Desk, p: Picks, now: int): Option<MessageId> {
    match DecisionFor(dir, d, p, now)
    case Attach(_, _, rule) => if rule == 1 then p.anchor else None
    case CreateNew => None
  }

  function Recorded(dir: Directory, d: Desk, msg: Incoming, p: Picks, now: int): Desk {
    Record(Place(dir, d, msg, p, now), Target(dir, d, p, now), msg, RepliedRow(dir, d, p, now), now)
  }

  function IngestDesk(dir: Directory, d: Desk, msg: Incoming, p: Picks, now: int, cut: Cut): Desk {
    if !Accepts(dir, msg, p) || cut.Rank() < 3 then d
    else if cut.AfterTicket? then Place(dir, d, msg, p, now)
    else
      var recorded := Recorded(dir, d, msg, p, now);
      if cut.AfterRecord? || DecisionFor(dir, d, p, now).Attach? then recorded
      else
        var t := Target(dir, d, p, now);
        var acked := AckRow(recorded, t, p.doneAt);
        if cut.AfterAckRow? then acked
        else AckJob(acked, t, |recorded.messages|, msg.chatTg, msg.tgId)
  }

  /** What the queries of the job may have returned. */
  predicate LegalPicks(dir: Directory, d: Desk, msg: Incoming, p: Picks, now: int) {
    && now <= p.doneAt
    && IsUsernamePick(dir.excluded, msg.username, p.excluded)
    && (Accepts(dir, msg, p) ==>
        var chat := ChatOf(dir, msg.chatTg);
        && IsAnchorPick(d, chat, msg.replyTo, p.anchor)
        && IsActivePick(d, chat, CustomerOf(dir, msg.fromTg), p.active)
        && IsRoutingOrder(Resolved(dir, msg), Resolved(dir, msg).chats[chat], p.members))
  }

  // ---------- The state machine ----------

  datatype Db = Db(clock: int, dir: Directory, desk: Desk, rollup: Rollup)

  datatype Step =
    | Ingest(msg: Incoming, picks: Picks, cut: Cut)
    | PatchTicket(t: TicketId, dto: PatchDto, author: AgentId)
    | AssignTicket(t: TicketId, agent: AgentId, author: AgentId, reason: Option<string>)
    | MarkNotCustomer(t: TicketId, author: AgentId)
    | ReplyTo(t: TicketId, agent: AgentId, text: string, mode: QuoteMode, latest: Option<MessageId>)
    | ConfirmSent(job: nat, tg: int)
    | AddExcluded(telegramId: Option<int>, username: Option<string>, about: About, author: AgentId)
    | EditExcluded(e: ExcludedId, about: About, switch: Option<bool>)
    | DropExcluded(e: ExcludedId)
    | EditChat(c: ChatId, settings: Settings)
    | EditAgent(a: AgentId, isActive: bool)
    | JoinTeam(team: TeamId, a: AgentId)
    | LeaveTeam(team: TeamId, a: AgentId)
    | Nightly

  datatype Timed = Timed(now: int, step: Step)

  function EndOf(ts: Timed): int {
    if ts.step.Ingest? then ts.step.picks.doneAt else ts.now
  }

  predicate Legal(db: Db, ts: Timed) {
    && db.clock <= ts.now
    && (ts.step.Ingest? ==> LegalPicks(db.dir, db.desk, ts.step.msg, ts.step.picks, ts.now))
    && (ts.step.ReplyTo? ==> IsLatestPick(db.desk, ts.step.t, ts.step.latest))
  }

  /** No two writes share a millisecond. */
  predicate Strict(db: Db, ts: Timed) {
    db.clock < ts.now && (ts.step.Ingest? ==> ts.now < ts.step.picks.doneAt)
  }

  /** Mark-not-customer bars the sender first; without a ticket it fails before that. */
  function MarkDir(dir: Directory, d: Desk, t: TicketId, author: AgentId): Directory {
    if t < |d.tickets| && d.tickets[t].customer < |dir.customers| then
      Bar(dir, dir.customers[d.tickets[t].customer], author)
    else dir
  }

  function StepDir(dir: Directory, d: Desk, s: Step): Directory {
    match s
    case Ingest(msg, p, cut) => IngestDir(dir, msg, p, cut)
    case MarkNotCustomer(t, author) => MarkDir(dir, d, t, author)
    case AddExcluded(tg, username, about, author) => CreateExcluded(dir, tg, username, about, author)
    case EditExcluded(e, about, isActive) => UpdateExcluded(dir, e, about, isActive)
    case DropExcluded(e) => RemoveExcluded(dir, e)
    case EditChat(c, settings) => UpdateSettings(dir, c, settings)
    case EditAgent(a, isActive) => SetAgentActive(dir, a, isActive)
    case JoinTeam(team, a) => AddMember(dir, team, a)
    case LeaveTeam(team, a) => RemoveMember(dir, team, a)
    case _ => dir
  }

  function StepDesk(dir: Directory, d: Desk, now: int, s: Step): Desk {
    match s
    case Ingest(msg, p, cut) => IngestDesk(dir, d, msg, p, now, cut)
    case PatchTicket(t, dto, author) => Patch(d, dir, t, dto, Some(author), now)
    case AssignTicket(t, agent, author, reason) => Assign(d, dir, t, agent, author, reason, now)
    case MarkNotCustomer(t, author) => MarkClosed(d, dir, t, author, now)
    case ReplyTo(t, agent, text, mode, latest) => Reply(d, dir, t, agent, text, mode, latest, now)
    case ConfirmSent(job, tg) => if job < |d.outbox| then Confirm(d, d.outbox[job].message, tg) else d
    case _ => d
  }

  function Apply(db: Db, ts: Timed): Db {
    Db(EndOf(ts),
       StepDir(db.dir, db.desk, ts.step),
       StepDesk(db.dir, db.desk, ts.now, ts.step),
       if ts.step.Nightly? then NightlyJob(db.rollup, db.desk, |db.dir.chats|, ts.now) else db.rollup)
  }

  function Exec(db: Db, run: seq<Timed>): Db
    decreases |run|
  {
    if run == [] then db else Exec(Apply(db, run[0]), run[1..])
  }

  predicate LegalRun(db: Db, run: seq<Timed>)
    decreases |run|
  {
    run == [] || (Legal(db, run[0]) && LegalRun(Apply(db, run[0]), run[1..]))
  }

  predicate StrictRun(db: Db, run: seq<Timed>)
    decreases |run|
  {
    run == [] || (Strict(db, run[0]) && StrictRun(Apply(db, run[0]), run[1..]))
  }

  const EMPTY_DESK := Desk([], [], [], [], History([], map[], {}, {}, map[]))

  /** Any directory, no tickets yet. */
  ghost predicate Initial(db: Db) {
    0 < db.clock && DirInv(db.dir) && db.desk == EMPTY_DESK && db.rollup == Rollup(map[], {}, map[])
  }
}
