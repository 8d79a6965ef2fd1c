/** The lookups in the database amount to splitting at gaps: placing messages one by one by
    "most recent active ticket" gives exactly the sessions of the reference. */
module Sessionization {
  import opened Types
  import opened Counting
  import opened DirectorySpec
  import opened ThreadGrouping
  import opened DeskSpec
  import opened DeskInvariants
  import opened Engine
  import opened Reachable
  import opened Sessions

  function VisitOf(ts: Timed): Visit {
    if ts.step.Ingest? then Visit(ts.step.msg.chatTg, ts.step.msg.fromTg, ts.now) else Visit(0, 0, ts.now)
  }

  /** Completed ingest of a message that replies to nothing. */
  predicate PlainIngest(ts: Timed) {
    ts.step.Ingest? && ts.step.cut.Complete? && ts.step.msg.replyTo.None?
  }

  predicate SameMessage(a: Incoming, b: Incoming) {
    a.chatTg == b.chatTg && a.tgId == b.tgId
  }

  predicate IsAccepted(db: Db, ts: Timed) {
    ts.step.Ingest? && Accepts(db.dir, ts.step.msg, ts.step.picks)
  }

  /** The messages a run accepts, the others being from agents or excluded senders. */
  function Accepted(db: Db, run: seq<Timed>): seq<Timed>
    decreases |run|
  {
    if run == [] then []
    else
      (if IsAccepted(db, run[0]) then [run[0]] else [])
      + Accepted(Apply(db, run[0]), run[1..])
  }

  /** The tickets they are placed on. */
  function PlacedOn(db: Db, run: seq<Timed>): seq<TicketId>
    decreases |run|
  {
    if run == [] then []
    else
      (if IsAccepted(db, run[0])
       then [Target(db.dir, db.desk, run[0].step.picks, run[0].now)] else [])
      + PlacedOn(Apply(db, run[0]), run[1..])
  }

  predicate AllPlain(run: seq<Timed>) {
    && (forall k :: 0 <= k < |run| ==> PlainIngest(run[k]))
    && (forall i, j :: 0 <= i < j < |run| ==> !SameMessage(run[i].step.msg, run[j].step.msg))
  }

  function Visits(done: seq<Timed>): (v: seq<Visit>)
    ensures |v| == |done|
    ensures forall k :: 0 <= k < |done| ==> v[k] == VisitOf(done[k])
  {
    seq(|done|, k requires 0 <= k < |done| => VisitOf(done[k]))
  }

  // ---------- The invariant that ties the tables to the reference ----------

  /** The ticket is of this sender in this chat. */
  predicate Of(dir: Directory, t: Ticket, v: Visit) {
    && t.chat < |dir.chats| && dir.chats[t.chat].telegramId == v.chatTg
    && t.customer < |dir.customers| && dir.customers[t.customer].telegramId == v.fromTg
  }

  /** The sender's latest session is the one ticket of theirs with the latest activity. */
  ghost predicate LatestIsLive(dir: Directory, tickets: seq<Ticket>, clock: int, visits: seq<Visit>, window: int, v: Visit) {
    var l := Previous(visits, v);
    && (l.None? ==> forall i :: 0 <= i < |tickets| ==> !Of(dir, tickets[i], v))
    && (l.Some? ==>
          var s := SessionOf(visits, window)[l.value];
          && s < |tickets| && Of(dir, tickets[s], v)
          && tickets[s].updatedAt == visits[l.value].time <= clock
          && forall i :: 0 <= i < |tickets| && i != s && Of(dir, tickets[i], v) && 0 < window ==>
               tickets[i].updatedAt < visits[l.value].time)
  }

  function OfFlags(dir: Directory, tickets: seq<Ticket>, v: Visit): (flags: seq<bool>)
    ensures |flags| == |tickets|
    ensures forall i :: 0 <= i < |tickets| ==> flags[i] == Of(dir, tickets[i], v)
  {
    seq(|tickets|, i requires 0 <= i < |tickets| => Of(dir, tickets[i], v))
  }

  /** The sender has one ticket per burst of messages. */
  ghost predicate OnePerBurst(dir: Directory, tickets: seq<Ticket>, visits: seq<Visit>, window: int, v: Visit) {
    Count(OfFlags(dir, tickets, v)) == Bursts(TimesOf(visits, v), window)
  }

  /** Outgoing rows carry no Telegram id yet, and inbound rows are of messages already done. */
  ghost predicate OnlyFrom(d: Desk, done: seq<Timed>)
  {
    && (forall m :: 0 <= m < |d.messages| ==> d.messages[m].direction.Out? ==> d.messages[m].tgId.None?)
    && (forall m :: m in d.past.arrivals ==>
          exists k :: 0 <= k < |done| && done[k].step.Ingest? && done[k].step.msg == d.past.arrivals[m].incoming)
  }

  ghost predicate Tracks(db: Db, done: seq<Timed>, window: int)
  {
    var visits := Visits(done);
    && |db.desk.tickets| == Started(visits, window)
    && (forall i :: 0 <= i < |db.desk.tickets| ==> db.desk.tickets[i].status.Open?)
    && (forall v: Visit :: LatestIsLive(db.dir, db.desk.tickets, db.clock, visits, window, v))
    && (forall v: Visit :: OnePerBurst(db.dir, db.desk.tickets, visits, window, v))
    && OnlyFrom(db.desk, done)
  }

  // ---------- One message ----------

  /** The chat and customer the job resolves are those of the sender's tickets. */
  lemma ResolvedIsOf(dir: Directory, t: Ticket, msg: Incoming, now: int)
    requires DirInv(dir) && t.chat < |dir.chats| && t.customer < |dir.customers|
    ensures t.chat == ChatOf(dir, msg.chatTg) && t.customer == CustomerOf(dir, msg.fromTg) <==>
      Of(dir, t, Visit(msg.chatTg, msg.fromTg, now))
  {
  }

  lemma PlacesLikeReference(dir: Directory, d: Desk, clock: int, msg: Incoming, p: Picks, now: int,
                            visits: seq<Visit>, window: int)
    requires DirInv(dir) && LegalPicks(dir, d, msg, p, now) && Accepts(dir, msg, p) && msg.replyTo.None?
    requires clock <= now && window == dir.idleMinutes * MINUTE && |d.tickets| == Started(visits, window)
    requires forall i :: 0 <= i < |d.tickets| ==> d.tickets[i].status.Open? && d.tickets[i].updatedAt <= clock
    requires forall i :: 0 <= i < |d.tickets| ==> d.tickets[i].chat < |dir.chats| && d.tickets[i].customer < |dir.customers|
    requires LatestIsLive(dir, d.tickets, clock, visits, window, Visit(msg.chatTg, msg.fromTg, now))
    ensures var v, r := Visit(msg.chatTg, msg.fromTg, now), DecisionFor(dir, d, p, now);
      && (r.Attach? <==> Continues(visits, v, window))
      && (r.Attach? ==> r.ticket == SessionOf(visits, window)[Previous(visits, v).value] && !r.revive && 0 < window)
  {
    var v := Visit(msg.chatTg, msg.fromTg, now);
    forall i | 0 <= i < |d.tickets|
      ensures Candidate(d, ChatOf(dir, msg.chatTg), CustomerOf(dir, msg.fromTg), i) <==> Of(dir, d.tickets[i], v)
    {
      ResolvedIsOf(dir, d.tickets[i], msg, now);
    }
    var l := Previous(visits, v);
    if l.Some? {
      var s := SessionOf(visits, window)[l.value];
      assert p.active.Some?;
      assert 0 < window ==> p.active.value == s;
    }
  }

  lemma FreshMessage(dir: Directory, d: Desk, done: seq<Timed>, msg: Incoming, t: TicketId)
    requires Shape(d) && Arrivals(d) && Membership(dir, d)
    requires OnlyFrom(d, done)
    requires forall k :: 0 <= k < |done| && done[k].step.Ingest? ==> !SameMessage(done[k].step.msg, msg)
    requires t < |d.tickets| ==> dir.chats[d.tickets[t].chat].telegramId == msg.chatTg
    ensures !HasRow(d.messages, t, msg.tgId)
  {
    forall m: MessageId | m < |d.messages| && d.messages[m].ticket == t
      ensures d.messages[m].tgId != Some(msg.tgId)
    {
      if d.messages[m].direction.In? {
        assert ArrivalFits(d, m) && Belongs(dir, d, m);
      }
    }
  }

  /** What a message that is new to its ticket leaves behind when nothing had to be revived. */
  lemma MessageLands(dir: Directory, d: Desk, msg: Incoming, p: Picks, now: int)
    requires Accepts(dir, msg, p) && !HasRow(d.messages, Target(dir, d, p, now), msg.tgId)
    requires DecisionFor(dir, d, p, now).Attach? ==> !DecisionFor(dir, d, p, now).revive
    ensures var s, e := Target(dir, d, p, now), IngestDesk(dir, d, msg, p, now, Complete);
      && |e.tickets| == (if s == |d.tickets| then s + 1 else |d.tickets|)
      && (forall i :: 0 <= i < |d.tickets| && i != s ==> e.tickets[i] == d.tickets[i])
      && s < |e.tickets| && e.tickets[s].updatedAt == now && e.tickets[s].status.Open?
      && (s < |d.tickets| ==> SameIdentity(e.tickets[s], d.tickets[s]))
      && (s == |d.tickets| ==> e.tickets[s].chat == ChatOf(dir, msg.chatTg)
                               && e.tickets[s].customer == CustomerOf(dir, msg.fromTg))
      && |d.messages| < |e.messages| && e.messages[..|d.messages|] == d.messages
      && e.messages[|d.messages|] == InboundRow(s, msg, now)
      && (forall m :: |d.messages| < m < |e.messages| ==> e.messages[m].tgId.None?)
      && (exists replied :: e.past.arrivals == d.past.arrivals[|d.messages| := Arrival(msg, replied)])
  {
    var placed, recorded := Place(dir, d, msg, p, now), Recorded(dir, d, msg, p, now);
    assert placed.messages == d.messages && placed.past.arrivals == d.past.arrivals;
    assert recorded.past.arrivals == d.past.arrivals[|d.messages| := Arrival(msg, RepliedRow(dir, d, p, now))];
  }

  ghost predicate InTables(dir: Directory, tickets: seq<Ticket>) {
    forall i :: 0 <= i < |tickets| ==> tickets[i].chat < |dir.chats| && tickets[i].customer < |dir.customers|
  }

  /** The tables after a message of `v` came to ticket `s`. */
  ghost predicate CameTo(dir: Directory, tickets: seq<Ticket>, dir': Directory, tickets': seq<Ticket>, v: Visit, s: TicketId) {
    && Grows(dir, dir') && InTables(dir, tickets)
    && s <= |tickets| && |tickets'| == (if s == |tickets| then s + 1 else |tickets|)
    && (forall i :: 0 <= i < |tickets| && i != s ==> tickets'[i] == tickets[i])
    && (s < |tickets| ==> SameIdentity(tickets'[s], tickets[s]))
    && tickets'[s].updatedAt == v.time && Of(dir', tickets'[s], v)
  }

  /** Ticket `s` is the session the reference continues, or a new one. */
  ghost predicate AsReference(count: nat, visits: seq<Visit>, window: int, v: Visit, s: TicketId) {
    && count == Started(visits, window)
    && (s < count <==> Continues(visits, v, window))
    && (s < count ==> s == SessionOf(visits, window)[Previous(visits, v).value] && 0 < window)
  }

  ghost predicate Landed(dir: Directory, tickets: seq<Ticket>, dir': Directory, tickets': seq<Ticket>,
                         visits: seq<Visit>, window: int, v: Visit, s: TicketId)
  {
    CameTo(dir, tickets, dir', tickets', v, s) && AsReference(|tickets|, visits, window, v, s)
  }

  lemma LandedOf(dir: Directory, tickets: seq<Ticket>, dir': Directory, tickets': seq<Ticket>,
                 visits: seq<Visit>, window: int, v: Visit, s: TicketId, u: Visit)
    requires Landed(dir, tickets, dir', tickets', visits, window, v, s)
    ensures forall i :: 0 <= i < |tickets| ==> (Of(dir', tickets'[i], u) <==> Of(dir, tickets[i], u))
    ensures Of(dir', tickets'[s], u) <==> u.SameSender(v)
  {
  }

  lemma LatestAfterOwn(dir: Directory, tickets: seq<Ticket>, clock: int, dir': Directory, tickets': seq<Ticket>, clock': int,
                       visits: seq<Visit>, window: int, u: Visit, v: Visit, s: TicketId)
    requires Landed(dir, tickets, dir', tickets', visits, window, v, s) && clock <= v.time <= clock' && u.SameSender(v)
    requires LatestIsLive(dir, tickets, clock, visits, window, v)
    ensures LatestIsLive(dir', tickets', clock', visits + [v], window, u)
  {
    LandedOf(dir, tickets, dir', tickets', visits, window, v, s, v);
    SessionAppend(visits, v, window);
    assert Previous(visits + [v], u) == Some(|visits|);
    forall i | 0 <= i < |tickets'| && i != s && Of(dir', tickets'[i], u) && 0 < window
      ensures tickets'[i].updatedAt < v.time
    {
      assert Of(dir', tickets'[i], v) && Of(dir, tickets[i], v);
    }
  }

  lemma LatestAfterOther(dir: Directory, tickets: seq<Ticket>, clock: int, dir': Directory, tickets': seq<Ticket>, clock': int,
                         visits: seq<Visit>, window: int, u: Visit, v: Visit, s: TicketId)
    requires Landed(dir, tickets, dir', tickets', visits, window, v, s) && clock <= v.time <= clock' && !u.SameSender(v)
    requires LatestIsLive(dir, tickets, clock, visits, window, u)
    ensures LatestIsLive(dir', tickets', clock', visits + [v], window, u)
  {
    LandedOf(dir, tickets, dir', tickets', visits, window, v, s, u);
    SessionAppend(visits, v, window);
    assert (visits + [v])[..|visits|] == visits;
    assert Previous(visits + [v], u) == Previous(visits, u);
    if Previous(visits, u).Some? {
      assert SessionOf(visits + [v], window)[Previous(visits, u).value] == SessionOf(visits, window)[Previous(visits, u).value];
    }
  }

  lemma LatestAfter(dir: Directory, tickets: seq<Ticket>, clock: int, dir': Directory, tickets': seq<Ticket>, clock': int,
                    visits: seq<Visit>, window: int, u: Visit, v: Visit, s: TicketId)
    requires Landed(dir, tickets, dir', tickets', visits, window, v, s) && clock <= v.time <= clock'
    requires LatestIsLive(dir, tickets, clock, visits, window, u) && LatestIsLive(dir, tickets, clock, visits, window, v)
    ensures LatestIsLive(dir', tickets', clock', visits + [v], window, u)
  {
    if u.SameSender(v) {
      LatestAfterOwn(dir, tickets, clock, dir', tickets', clock', visits, window, u, v, s);
    } else {
      LatestAfterOther(dir, tickets, clock, dir', tickets', clock', visits, window, u, v, s);
    }
  }

  lemma BurstAfter(dir: Directory, tickets: seq<Ticket>, dir': Directory, tickets': seq<Ticket>,
                   visits: seq<Visit>, window: int, u: Visit, v: Visit, s: TicketId)
    requires Landed(dir, tickets, dir', tickets', visits, window, v, s) && OnePerBurst(dir, tickets, visits, window, u)
    ensures OnePerBurst(dir', tickets', visits + [v], window, u)
  {
    LandedOf(dir, tickets, dir', tickets', visits, window, v, s, u);
    BurstsAppend(visits, v, u, window);
    var flags := OfFlags(dir, tickets, u);
    if s < |tickets| {
      assert OfFlags(dir', tickets', u) == flags;
    } else {
      assert OfFlags(dir', tickets', u) == flags + [Of(dir', tickets'[s], u)];
      CountAppend(flags, Of(dir', tickets'[s], u));
    }
  }

  lemma OnlyFromAfter(d: Desk, e: Desk, done: seq<Timed>, ts: Timed, k: nat)
    requires OnlyFrom(d, done) && ts.step.Ingest?
    requires k == |d.messages| < |e.messages| && e.messages[..k] == d.messages && e.messages[k].direction.In?
    requires forall m :: k < m < |e.messages| ==> e.messages[m].tgId.None?
    requires exists replied :: e.past.arrivals == d.past.arrivals[k := Arrival(ts.step.msg, replied)]
    ensures OnlyFrom(e, done + [ts])
  {
    forall m | 0 <= m < |e.messages| && e.messages[m].direction.Out?
      ensures e.messages[m].tgId.None?
    {
      assert m < k ==> e.messages[m] == d.messages[m];
    }
    forall m | m in e.past.arrivals
      ensures exists j :: 0 <= j < |done + [ts]| && (done + [ts])[j].step.Ingest? && (done + [ts])[j].step.msg == e.past.arrivals[m].incoming
    {
      if m == k {
        assert (done + [ts])[|done|] == ts;
      } else {
        var j :| 0 <= j < |done| && done[j].step.Ingest? && done[j].step.msg == d.past.arrivals[m].incoming;
        assert (done + [ts])[j] == done[j];
      }
    }
  }

  /** What the state machine's invariant contributes. */
  ghost predicate Ground(db: Db) {
    && DirInv(db.dir) && Shape(db.desk) && Arrivals(db.desk) && Membership(db.dir, db.desk)
    && forall i :: 0 <= i < |db.desk.tickets| ==> db.desk.tickets[i].updatedAt <= db.clock
  }

  lemma LandsWhereReferenceSays(db: Db, ts: Timed, done: seq<Timed>, window: int)
    requires Ground(db) && Legal(db, ts) && PlainIngest(ts) && Accepts(db.dir, ts.step.msg, ts.step.picks)
    requires Tracks(db, done, window)
    requires window == db.dir.idleMinutes * MINUTE
    requires forall k :: 0 <= k < |done| && done[k].step.Ingest? ==> !SameMessage(done[k].step.msg, ts.step.msg)
    ensures var v, s := VisitOf(ts), Target(db.dir, db.desk, ts.step.picks, ts.now);
      && (s < |db.desk.tickets| <==> Continues(Visits(done), v, window))
      && (s < |db.desk.tickets| ==> (
            && s == SessionOf(Visits(done), window)[Previous(Visits(done), v).value]
            && 0 < window && Of(db.dir, db.desk.tickets[s], v)))
      && s <= |db.desk.tickets|
      && !HasRow(db.desk.messages, s, ts.step.msg.tgId)
      && (DecisionFor(db.dir, db.desk, ts.step.picks, ts.now).Attach? ==>
            !DecisionFor(db.dir, db.desk, ts.step.picks, ts.now).revive)
  {
    var dir, d, msg, p, now := db.dir, db.desk, ts.step.msg, ts.step.picks, ts.now;
    var visits, v, s := Visits(done), VisitOf(ts), Target(dir, d, p, now);
    assert LatestIsLive(dir, d.tickets, db.clock, visits, window, v);
    PlacesLikeReference(dir, d, db.clock, msg, p, now, visits, window);
    FreshMessage(dir, d, done, msg, s);
  }

  lemma TracksStep(db: Db, ts: Timed, done: seq<Timed>, window: int)
    requires Ground(db) && Legal(db, ts) && PlainIngest(ts) && Accepts(db.dir, ts.step.msg, ts.step.picks)
    requires Tracks(db, done, window)
    requires window == db.dir.idleMinutes * MINUTE
    requires forall k :: 0 <= k < |done| && done[k].step.Ingest? ==> !SameMessage(done[k].step.msg, ts.step.msg)
    ensures Visits(done + [ts]) == Visits(done) + [VisitOf(ts)]
    ensures Tracks(Apply(db, ts), done + [ts], window)
    ensures SessionOf(Visits(done + [ts]), window) ==
      SessionOf(Visits(done), window) + [Target(db.dir, db.desk, ts.step.picks, ts.now)]
  {
    var visits, v, s := Visits(done), VisitOf(ts), Target(db.dir, db.desk, ts.step.picks, ts.now);
    assert Visits(done + [ts]) == visits + [v];
    SessionAppend(visits, v, window);
    StepLands(db, ts, done, window);
    StepRecords(db, ts, done, window);
    SendersAfter(db.dir, db.desk.tickets, db.clock, Apply(db, ts).dir, Apply(db, ts).desk.tickets, EndOf(ts), visits, window, v, s);
  }

  lemma SendersAfter(dir: Directory, tickets: seq<Ticket>, clock: int, dir': Directory, tickets': seq<Ticket>, clock': int,
                     visits: seq<Visit>, window: int, v: Visit, s: TicketId)
    requires Landed(dir, tickets, dir', tickets', visits, window, v, s) && clock <= v.time <= clock'
    requires forall u: Visit :: LatestIsLive(dir, tickets, clock, visits, window, u)
    requires forall u: Visit :: OnePerBurst(dir, tickets, visits, window, u)
    ensures forall u: Visit :: LatestIsLive(dir', tickets', clock', visits + [v], window, u)
    ensures forall u: Visit :: OnePerBurst(dir', tickets', visits + [v], window, u)
  {
    forall u: Visit
      ensures LatestIsLive(dir', tickets', clock', visits + [v], window, u)
      ensures OnePerBurst(dir', tickets', visits + [v], window, u)
    {
      assert LatestIsLive(dir, tickets, clock, visits, window, u) && LatestIsLive(dir, tickets, clock, visits, window, v);
      LatestAfter(dir, tickets, clock, dir', tickets', clock', visits, window, u, v, s);
      assert OnePerBurst(dir, tickets, visits, window, u);
      BurstAfter(dir, tickets, dir', tickets', visits, window, u, v, s);
    }
  }

  /** One accepted message, as the tables and the reference see it. */
  lemma StepLands(db: Db, ts: Timed, done: seq<Timed>, window: int)
    requires Ground(db) && Legal(db, ts) && PlainIngest(ts) && Accepts(db.dir, ts.step.msg, ts.step.picks)
    requires Tracks(db, done, window)
    requires window == db.dir.idleMinutes * MINUTE
    requires forall k :: 0 <= k < |done| && done[k].step.Ingest? ==> !SameMessage(done[k].step.msg, ts.step.msg)
    ensures Landed(db.dir, db.desk.tickets, Apply(db, ts).dir, Apply(db, ts).desk.tickets, Visits(done), window, VisitOf(ts),
                   Target(db.dir, db.desk, ts.step.picks, ts.now))
  {
    LandsWhereReferenceSays(db, ts, done, window);
    StepComesTo(db, ts);
  }

  lemma StepComesTo(db: Db, ts: Timed)
    requires Ground(db) && PlainIngest(ts) && Accepts(db.dir, ts.step.msg, ts.step.picks)
    requires var s := Target(db.dir, db.desk, ts.step.picks, ts.now);
      && s <= |db.desk.tickets| && (s < |db.desk.tickets| ==> Of(db.dir, db.desk.tickets[s], VisitOf(ts)))
      && !HasRow(db.desk.messages, s, ts.step.msg.tgId)
    requires var r := DecisionFor(db.dir, db.desk, ts.step.picks, ts.now);
      r.Attach? ==> !r.revive
    ensures CameTo(db.dir, db.desk.tickets, Apply(db, ts).dir, Apply(db, ts).desk.tickets, VisitOf(ts),
                   Target(db.dir, db.desk, ts.step.picks, ts.now))
  {
    MessageLands(db.dir, db.desk, ts.step.msg, ts.step.picks, ts.now);
    ResolvedKeeps(db.dir, ts.step.msg);
    ComesTo(db.dir, db.desk.tickets, Apply(db, ts).dir, Apply(db, ts).desk.tickets, ts.step.msg, ts.now,
            Target(db.dir, db.desk, ts.step.picks, ts.now));
  }

  lemma ComesTo(dir: Directory, tickets: seq<Ticket>, dir': Directory, tickets': seq<Ticket>, msg: Incoming, now: int, s: TicketId)
    requires Grows(dir, dir') && InTables(dir, tickets) && dir' == Resolved(dir, msg)
    requires CustomerOf(dir, msg.fromTg) < |dir'.customers|
    requires dir'.customers[CustomerOf(dir, msg.fromTg)].telegramId == msg.fromTg
    requires s <= |tickets| && |tickets'| == if s == |tickets| then s + 1 else |tickets|
    requires forall i :: 0 <= i < |tickets| && i != s ==> tickets'[i] == tickets[i]
    requires if s < |tickets|
      then SameIdentity(tickets'[s], tickets[s]) && Of(dir, tickets[s], Visit(msg.chatTg, msg.fromTg, now))
      else tickets'[s].chat == ChatOf(dir, msg.chatTg) && tickets'[s].customer == CustomerOf(dir, msg.fromTg)
    requires tickets'[s].updatedAt == now
    ensures CameTo(dir, tickets, dir', tickets', Visit(msg.chatTg, msg.fromTg, now), s)
  {
  }

  lemma StepRecords(db: Db, ts: Timed, done: seq<Timed>, window: int)
    requires Ground(db) && Legal(db, ts) && PlainIngest(ts) && Accepts(db.dir, ts.step.msg, ts.step.picks)
    requires Tracks(db, done, window)
    requires window == db.dir.idleMinutes * MINUTE
    requires forall k :: 0 <= k < |done| && done[k].step.Ingest? ==> !SameMessage(done[k].step.msg, ts.step.msg)
    ensures OnlyFrom(Apply(db, ts).desk, done + [ts])
    ensures forall i :: 0 <= i < |Apply(db, ts).desk.tickets| ==> Apply(db, ts).desk.tickets[i].status.Open?
    ensures Apply(db, ts).clock == EndOf(ts) && db.clock <= VisitOf(ts).time <= EndOf(ts)
  {
    LandsWhereReferenceSays(db, ts, done, window);
    MessageLands(db.dir, db.desk, ts.step.msg, ts.step.picks, ts.now);
    OnlyFromAfter(db.desk, Apply(db, ts).desk, done, ts, |db.desk.messages|);
  }

  // ---------- Whole runs ----------

  lemma Associative<T>(a: seq<T>, b: seq<T>, c: seq<T>)
    ensures a + (b + c) == (a + b) + c
  {
  }

  /** Moving an accepted message from the run to what is done. */
  lemma TakeOne(db: Db, run: seq<Timed>, done: seq<Timed>, sessions: seq<nat>)
    requires run != [] && IsAccepted(db, run[0])
    ensures done + Accepted(db, run) == (done + [run[0]]) + Accepted(Apply(db, run[0]), run[1..])
    ensures sessions + PlacedOn(db, run) ==
      (sessions + [Target(db.dir, db.desk, run[0].step.picks, run[0].now)]) + PlacedOn(Apply(db, run[0]), run[1..])
  {
    var t := Target(db.dir, db.desk, run[0].step.picks, run[0].now);
    Associative(done, [run[0]], Accepted(Apply(db, run[0]), run[1..]));
    Associative(sessions, [t], PlacedOn(Apply(db, run[0]), run[1..]));
  }

  /** The run brings no message that is already done. */
  ghost predicate Unseen(done: seq<Timed>, run: seq<Timed>) {
    forall k, l :: 0 <= k < |done| && 0 <= l < |run| && done[k].step.Ingest? && run[l].step.Ingest? ==>
      !SameMessage(done[k].step.msg, run[l].step.msg)
  }

  /** Before the run: what is done is tracked. */
  ghost predicate Ready(db: Db, run: seq<Timed>, done: seq<Timed>, window: int) {
    && LegalRun(db, run) && AllPlain(run) && Unseen(done, run)
    && Inv(db) && Tracks(db, done, window) && window == db.dir.idleMinutes * MINUTE
  }

  lemma UnseenStep(done: seq<Timed>, run: seq<Timed>)
    requires run != [] && AllPlain(run) && Unseen(done, run)
    ensures Unseen(done + [run[0]], run[1..]) && Unseen(done, run[1..]) && AllPlain(run[1..])
    ensures forall k :: 0 <= k < |done| && done[k].step.Ingest? ==> !SameMessage(done[k].step.msg, run[0].step.msg)
  {
  }

  lemma InvIsGround(db: Db)
    requires Inv(db)
    ensures Ground(db)
  {
  }

  lemma ReadyStep(db: Db, run: seq<Timed>, done: seq<Timed>, window: int)
    requires run != [] && Ready(db, run, done, window)
    ensures Ready(Apply(db, run[0]), run[1..], if IsAccepted(db, run[0]) then done + [run[0]] else done, window)
    ensures IsAccepted(db, run[0]) ==> (SessionOf(Visits(done + [run[0]]), window) ==
      SessionOf(Visits(done), window) + [Target(db.dir, db.desk, run[0].step.picks, run[0].now)])
  {
    UnseenStep(done, run);
    InvIsGround(db);
    ReadyTracks(db, run[0], done, window);
    StepKeepsInv(db, run[0]);
    assert Apply(db, run[0]).dir.idleMinutes == db.dir.idleMinutes by {
      StepKeepsDir(db.dir, db.desk, run[0].step);
    }
  }

  lemma ReadyTracks(db: Db, ts: Timed, done: seq<Timed>, window: int)
    requires Ground(db) && Legal(db, ts) && PlainIngest(ts) && Tracks(db, done, window)
    requires window == db.dir.idleMinutes * MINUTE
    requires forall k :: 0 <= k < |done| && done[k].step.Ingest? ==> !SameMessage(done[k].step.msg, ts.step.msg)
    ensures Tracks(Apply(db, ts), if IsAccepted(db, ts) then done + [ts] else done, window)
    ensures IsAccepted(db, ts) ==> (SessionOf(Visits(done + [ts]), window) ==
      SessionOf(Visits(done), window) + [Target(db.dir, db.desk, ts.step.picks, ts.now)])
  {
    if IsAccepted(db, ts) {
      TracksStep(db, ts, done, window);
    } else {
      IgnoredTracks(db, ts, done, window);
    }
  }

  lemma {:induction false} RunTracks(db: Db, run: seq<Timed>, done: seq<Timed>, window: int)
    requires Ready(db, run, done, window)
    ensures Tracks(Exec(db, run), done + Accepted(db, run), window)
    ensures SessionOf(Visits(done + Accepted(db, run)), window) == SessionOf(Visits(done), window) + PlacedOn(db, run)
    decreases |run|
  {
    if run == [] {
      assert done + Accepted(db, run) == done;
    } else {
      ReadyStep(db, run, done, window);
      if IsAccepted(db, run[0]) {
        RunTracks(Apply(db, run[0]), run[1..], done + [run[0]], window);
        TakeOne(db, run, done, SessionOf(Visits(done), window));
      } else {
        RunTracks(Apply(db, run[0]), run[1..], done, window);
        SkipOne(db, run);
      }
    }
  }

  lemma SkipOne(db: Db, run: seq<Timed>)
    requires run != [] && !IsAccepted(db, run[0])
    ensures Accepted(db, run) == Accepted(Apply(db, run[0]), run[1..])
    ensures PlacedOn(db, run) == PlacedOn(Apply(db, run[0]), run[1..])
  {
  }

  lemma IgnoredTracks(db: Db, ts: Timed, done: seq<Timed>, window: int)
    requires Legal(db, ts) && PlainIngest(ts) && !Accepts(db.dir, ts.step.msg, ts.step.picks)
    requires Tracks(db, done, window)
    ensures Tracks(Apply(db, ts), done, window)
  {
    forall v: Visit
      ensures LatestIsLive(Apply(db, ts).dir, db.desk.tickets, EndOf(ts), Visits(done), window, v)
    {
      assert LatestIsLive(db.dir, db.desk.tickets, db.clock, Visits(done), window, v);
    }
    forall v: Visit
      ensures OnePerBurst(Apply(db, ts).dir, db.desk.tickets, Visits(done), window, v)
    {
      assert OnePerBurst(db.dir, db.desk.tickets, Visits(done), window, v);
      assert OfFlags(Apply(db, ts).dir, db.desk.tickets, v) == OfFlags(db.dir, db.desk.tickets, v);
    }
  }

  lemma InitialReady(db: Db, run: seq<Timed>)
    requires Initial(db) && LegalRun(db, run) && AllPlain(run)
    ensures Ready(db, run, [], db.dir.idleMinutes * MINUTE)
  {
    InitialInv(db);
    assert Visits([]) == [];
  }

  lemma FromEmpty(db: Db, run: seq<Timed>, accepted: seq<Timed>, placed: seq<nat>, window: int)
    requires Ready(db, run, [], window) && accepted == Accepted(db, run) && placed == PlacedOn(db, run)
    ensures Tracks(Exec(db, run), accepted, window) && placed == SessionOf(Visits(accepted), window)
  {
    RunTracks(db, run, [], window);
    assert [] + accepted == accepted && [] + placed == placed;
    assert Visits([]) == [];
  }

  lemma RunFromEmpty(db: Db, run: seq<Timed>)
    requires Initial(db) && LegalRun(db, run) && AllPlain(run)
    ensures Tracks(Exec(db, run), Accepted(db, run), db.dir.idleMinutes * MINUTE)
    ensures PlacedOn(db, run) == SessionOf(Visits(Accepted(db, run)), db.dir.idleMinutes * MINUTE)
  {
    InitialReady(db, run);
    FromEmpty(db, run, Accepted(db, run), PlacedOn(db, run), db.dir.idleMinutes * MINUTE);
  }

  lemma TrackedCounts(s: Db, done: seq<Timed>, window: int)
    requires Tracks(s, done, window)
    ensures |s.desk.tickets| == Started(Visits(done), window)
    ensures forall v: Visit :: Count(OfFlags(s.dir, s.desk.tickets, v)) == Bursts(TimesOf(Visits(done), v), window)
  {
    forall v: Visit
      ensures Count(OfFlags(s.dir, s.desk.tickets, v)) == Bursts(TimesOf(Visits(done), v), window)
    {
      assert OnePerBurst(s.dir, s.desk.tickets, Visits(done), window, v);
    }
  }

  /** From an empty desk, however many chats and senders interleave: the tickets messages are
      placed on are the sessions of the reference, there is one ticket per session, and each
      sender has in each chat one ticket plus one for every gap that reaches the window. */
  lemma LookupIsSessionization(db: Db, run: seq<Timed>)
    requires Initial(db) && LegalRun(db, run) && AllPlain(run)
    ensures var visits, window, s := Visits(Accepted(db, run)), db.dir.idleMinutes * MINUTE, Exec(db, run);
      && PlacedOn(db, run) == SessionOf(visits, window)
      && |s.desk.tickets| == Started(visits, window)
      && forall v: Visit :: Count(OfFlags(s.dir, s.desk.tickets, v)) == Bursts(TimesOf(visits, v), window)
  {
    RunFromEmpty(db, run);
    TrackedCounts(Exec(db, run), Accepted(db, run), db.dir.idleMinutes * MINUTE);
  }

  lemma NoTieWhenTracked(dir: Directory, d: Desk, clock: int, visits: seq<Visit>, window: int, v: Visit,
                         chat: ChatId, customer: CustomerId, a: Option<TicketId>, b: Option<TicketId>)
    requires LatestIsLive(dir, d.tickets, clock, visits, window, v) && 0 < window
    requires forall i :: 0 <= i < |d.tickets| ==> d.tickets[i].status.Open?
    requires chat < |dir.chats| && dir.chats[chat].telegramId == v.chatTg
    requires customer < |dir.customers| && dir.customers[customer].telegramId == v.fromTg
    requires DirInv(dir)
    requires forall i :: 0 <= i < |d.tickets| ==> d.tickets[i].chat < |dir.chats| && d.tickets[i].customer < |dir.customers|
    requires IsActivePick(d, chat, customer, a) && IsActivePick(d, chat, customer, b)
    ensures a == b
  {
    forall i | 0 <= i < |d.tickets|
      ensures Candidate(d, chat, customer, i) <==> Of(dir, d.tickets[i], v)
    {
    }
    if a.Some? && b.Some? {
      assert Of(dir, d.tickets[a.value], v) && Of(dir, d.tickets[b.value], v);
      var s := SessionOf(visits, window)[Previous(visits, v).value];
      assert Candidate(d, chat, customer, s);
    }
  }

  /** With a positive window the most recent lookup never has a tie. */
  lemma NoTies(db: Db, run: seq<Timed>, chat: ChatId, customer: CustomerId, a: Option<TicketId>, b: Option<TicketId>)
    requires Initial(db) && LegalRun(db, run) && AllPlain(run) && 0 < db.dir.idleMinutes
    requires chat < |Exec(db, run).dir.chats| && customer < |Exec(db, run).dir.customers|
    requires IsActivePick(Exec(db, run).desk, chat, customer, a) && IsActivePick(Exec(db, run).desk, chat, customer, b)
    ensures a == b
  {
    var s, visits, window := Exec(db, run), Visits(Accepted(db, run)), db.dir.idleMinutes * MINUTE;
    RunFromEmpty(db, run);
    InitialInv(db);
    RunKeepsInv(db, run);
    var v := Visit(s.dir.chats[chat].telegramId, s.dir.customers[customer].telegramId, 0);
    assert LatestIsLive(s.dir, s.desk.tickets, s.clock, visits, window, v);
    NoTieWhenTracked(s.dir, s.desk, s.clock, visits, window, v, chat, customer, a, b);
  }

  /** Two consecutive accepted messages of one sender in one chat land on the same ticket exactly
      when the gap between them is below the idle window. */
  lemma SameTicketIffShortGap(db: Db, run: seq<Timed>, i: nat, j: nat)
    requires Initial(db) && LegalRun(db, run) && AllPlain(run)
    requires var a := Accepted(db, run);
      && i < j < |a|
      && VisitOf(a[i]).SameSender(VisitOf(a[j]))
      && (forall k :: i < k < j ==> !VisitOf(a[k]).SameSender(VisitOf(a[j])))
    ensures |PlacedOn(db, run)| == |Accepted(db, run)|
    ensures PlacedOn(db, run)[i] == PlacedOn(db, run)[j] <==>
      Accepted(db, run)[j].now - Accepted(db, run)[i].now < db.dir.idleMinutes * MINUTE
  {
    LookupIsSessionization(db, run);
    SplitAtGaps(Visits(Accepted(db, run)), db.dir.idleMinutes * MINUTE, i, j);
  }
}
