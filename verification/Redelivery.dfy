/** The ingest queue delivers at least once: what a second delivery of the same message does,
    after a job that completed and after one that stopped half-way. */
module Redelivery {
  import opened Types
  import opened DirectorySpec
  import opened ThreadGrouping
  import opened DeskSpec
  import opened DeskInvariants
  import opened Engine
  import opened Reachable
  import opened StrictTime

  // ---------- Steps on other chats ----------

  predicate OfChat(d: Desk, t: TicketId, c: ChatId) {
    t < |d.tickets| && d.tickets[t].chat == c
  }

  /** The step is a message to another chat, or an action on a ticket of another chat. */
  predicate Elsewhere(dir: Directory, d: Desk, s: Step, c: ChatId) {
    match s
    case Ingest(msg, _, _) => c < |dir.chats| ==> msg.chatTg != dir.chats[c].telegramId
    case PatchTicket(t, _, _) => !OfChat(d, t, c)
    case AssignTicket(t, _, _, _) => !OfChat(d, t, c)
    case MarkNotCustomer(t, _) => !OfChat(d, t, c)
    case ReplyTo(t, _, _, _, _) => !OfChat(d, t, c)
    case ConfirmSent(job, _) =>
      job < |d.outbox| && d.outbox[job].message < |d.messages| ==>
        !OfChat(d, d.messages[d.outbox[job].message].ticket, c)
    case _ => true
  }

  predicate RunElsewhere(db: Db, run: seq<Timed>, c: ChatId)
    decreases |run|
  {
    run == [] || (Elsewhere(db.dir, db.desk, run[0].step, c) && RunElsewhere(Apply(db, run[0]), run[1..], c))
  }

  /** Tickets and rows of the chat are as they were, and it has gained none. */
  ghost predicate Untouched(d: Desk, e: Desk, c: ChatId) {
    && |d.tickets| <= |e.tickets| && |d.messages| <= |e.messages|
    && (forall i :: 0 <= i < |d.tickets| ==> e.tickets[i].chat == d.tickets[i].chat)
    && (forall i :: 0 <= i < |d.tickets| && d.tickets[i].chat == c ==> e.tickets[i] == d.tickets[i])
    && (forall i :: |d.tickets| <= i < |e.tickets| ==> e.tickets[i].chat != c)
    && (forall m :: 0 <= m < |d.messages| ==> e.messages[m].ticket == d.messages[m].ticket)
    && (forall m :: 0 <= m < |d.messages| && OfChat(d, d.messages[m].ticket, c) ==> e.messages[m] == d.messages[m])
    && (forall m :: |d.messages| <= m < |e.messages| ==> !OfChat(e, e.messages[m].ticket, c))
  }

  lemma UntouchedTransitive(d: Desk, e: Desk, f: Desk, c: ChatId)
    requires Shape(d) && Untouched(d, e, c) && Untouched(e, f, c)
    requires forall m :: 0 <= m < |e.messages| ==> e.messages[m].ticket < |e.tickets|
    ensures Untouched(d, f, c)
  {
  }

  /** A ticket of another chat was rewritten or added, and rows were added to it. */
  lemma WritesElsewhere(d: Desk, e: Desk, t: TicketId, c: ChatId)
    requires Shape(d) && |d.tickets| <= |e.tickets| <= |d.tickets| + 1 && d.messages <= e.messages
    requires t < |e.tickets| && e.tickets[t].chat != c && (|d.tickets| < |e.tickets| ==> t == |d.tickets|)
    requires t < |d.tickets| ==> d.tickets[t].chat == e.tickets[t].chat
    requires forall i :: 0 <= i < |d.tickets| && i != t ==> e.tickets[i] == d.tickets[i]
    requires forall m :: |d.messages| <= m < |e.messages| ==> e.messages[m].ticket == t
    ensures Untouched(d, e, c)
  {
  }

  lemma IngestWrites(dir: Directory, d: Desk, msg: Incoming, p: Picks, now: int, cut: Cut)
    requires LegalPicks(dir, d, msg, p, now) && Accepts(dir, msg, p) && cut.Rank() >= 3
    ensures var e, t := IngestDesk(dir, d, msg, p, now, cut), Target(dir, d, p, now);
      && |d.tickets| <= |e.tickets| <= |d.tickets| + 1 && d.messages <= e.messages
      && t < |e.tickets| && e.tickets[t].chat == ChatOf(dir, msg.chatTg)
      && (|d.tickets| < |e.tickets| ==> t == |d.tickets|)
      && (t < |d.tickets| ==> d.tickets[t].chat == e.tickets[t].chat)
      && (forall i :: 0 <= i < |d.tickets| && i != t ==> e.tickets[i] == d.tickets[i])
      && (forall m :: |d.messages| <= m < |e.messages| ==> e.messages[m].ticket == t)
  {
    var placed := Place(dir, d, msg, p, now);
    assert placed.messages == d.messages;
    if DecisionFor(dir, d, p, now).Attach? {
      AttachMeaning(d, ChatOf(dir, msg.chatTg), CustomerOf(dir, msg.fromTg), msg.replyTo, dir.idleMinutes, now,
                    p.anchor, p.active);
    }
  }

  lemma IngestElsewhere(dir: Directory, d: Desk, msg: Incoming, p: Picks, now: int, cut: Cut, c: ChatId)
    requires Shape(d) && LegalPicks(dir, d, msg, p, now) && c < |dir.chats| && msg.chatTg != dir.chats[c].telegramId
    ensures Untouched(d, IngestDesk(dir, d, msg, p, now, cut), c)
  {
    if Accepts(dir, msg, p) && cut.Rank() >= 3 {
      IngestWrites(dir, d, msg, p, now, cut);
      WritesElsewhere(d, IngestDesk(dir, d, msg, p, now, cut), Target(dir, d, p, now), c);
    }
  }

  lemma StepElsewhere(db: Db, ts: Timed, c: ChatId)
    requires Shape(db.desk) && Legal(db, ts) && c < |db.dir.chats| && Elsewhere(db.dir, db.desk, ts.step, c)
    ensures Untouched(db.desk, Apply(db, ts).desk, c)
  {
    if ts.step.Ingest? {
      IngestElsewhere(db.dir, db.desk, ts.step.msg, ts.step.picks, ts.now, ts.step.cut, c);
    }
  }

  lemma {:induction false} RunLeavesChat(db: Db, run: seq<Timed>, c: ChatId)
    requires Inv(db) && LegalRun(db, run) && c < |db.dir.chats| && RunElsewhere(db, run, c)
    ensures Untouched(db.desk, Exec(db, run).desk, c) && Grows(db.dir, Exec(db, run).dir)
    decreases |run|
  {
    if run != [] {
      StepLeavesChat(db, run[0], c);
      RunLeavesChat(Apply(db, run[0]), run[1..], c);
      UntouchedTransitive(db.desk, Apply(db, run[0]).desk, Exec(db, run).desk, c);
    }
  }

  lemma StepLeavesChat(db: Db, ts: Timed, c: ChatId)
    requires Inv(db) && Legal(db, ts) && c < |db.dir.chats| && Elsewhere(db.dir, db.desk, ts.step, c)
    ensures Inv(Apply(db, ts)) && Untouched(db.desk, Apply(db, ts).desk, c) && Grows(db.dir, Apply(db, ts).dir)
  {
    StepElsewhere(db, ts, c);
    StepKeepsInv(db, ts);
    StepKeepsDir(db.dir, db.desk, ts.step);
  }

  // ---------- The chat after a first delivery ----------

  /** Since `d`, the chat has seen ticket `a` opened or reopened at `at`, perhaps the message with
      id `tg` and its acknowledgement recorded on it, and nothing else. */
  ghost predicate Settled(d: Desk, e: Desk, c: ChatId, a: TicketId, at: int, tg: int) {
    && OfChat(e, a, c) && e.tickets[a].status.Open? && e.tickets[a].updatedAt == at
    && |d.tickets| <= |e.tickets| && |d.messages| <= |e.messages|
    && (a < |d.tickets| ==> !d.tickets[a].status.Terminal() && SameIdentity(d.tickets[a], e.tickets[a]))
    && (forall i :: 0 <= i < |d.tickets| ==> e.tickets[i].chat == d.tickets[i].chat)
    && (forall i :: 0 <= i < |e.tickets| && e.tickets[i].chat == c && i != a ==>
          i < |d.tickets| && e.tickets[i] == d.tickets[i])
    && (forall m :: 0 <= m < |e.messages| && OfChat(e, e.messages[m].ticket, c) ==>
          || (m < |d.messages| && e.messages[m] == d.messages[m])
          || (m >= |d.messages| && (e.messages[m].tgId == Some(tg) || e.messages[m].tgId == None)))
    && (forall m :: 0 <= m < |d.messages| && OfChat(d, d.messages[m].ticket, c) ==> e.messages[m] == d.messages[m])
  }

  lemma SettledStays(d: Desk, e: Desk, f: Desk, c: ChatId, a: TicketId, at: int, tg: int)
    requires Settled(d, e, c, a, at, tg) && Untouched(e, f, c)
    requires forall m :: 0 <= m < |e.messages| ==> e.messages[m].ticket < |e.tickets|
    requires forall m :: 0 <= m < |d.messages| ==> d.messages[m].ticket < |d.tickets|
    ensures Settled(d, f, c, a, at, tg)
  {
  }

  /** The job wrote to its ticket: created or revived it, or recorded a message new to it. */
  predicate Wrote(dir: Directory, d: Desk, msg: Incoming, p: Picks, now: int, cut: Cut) {
    && Accepts(dir, msg, p) && cut.Rank() >= 3
    && (|| DecisionFor(dir, d, p, now).CreateNew?
        || DecisionFor(dir, d, p, now).revive
        || (cut.Rank() >= 4 && !HasRow(d.messages, Target(dir, d, p, now), msg.tgId)))
  }

  lemma NothingWritten(dir: Directory, d: Desk, msg: Incoming, p: Picks, now: int, cut: Cut)
    requires !Wrote(dir, d, msg, p, now, cut)
    ensures IngestDesk(dir, d, msg, p, now, cut) == d
  {
  }

  lemma FirstSettles(dir: Directory, d: Desk, msg: Incoming, p: Picks, now: int, cut: Cut)
    requires Shape(d) && LegalPicks(dir, d, msg, p, now) && Wrote(dir, d, msg, p, now, cut)
    ensures Settled(d, IngestDesk(dir, d, msg, p, now, cut), ChatOf(dir, msg.chatTg), Target(dir, d, p, now), now, msg.tgId)
  {
    IngestWrites(dir, d, msg, p, now, cut);
    IngestOpens(dir, d, msg, p, now, cut);
    IngestIds(dir, d, msg, p, now, cut);
    OnlyTargetSettles(d, IngestDesk(dir, d, msg, p, now, cut), ChatOf(dir, msg.chatTg), Target(dir, d, p, now), now, msg.tgId);
  }

  lemma IngestOpens(dir: Directory, d: Desk, msg: Incoming, p: Picks, now: int, cut: Cut)
    requires LegalPicks(dir, d, msg, p, now) && Wrote(dir, d, msg, p, now, cut)
    ensures var e, t := IngestDesk(dir, d, msg, p, now, cut), Target(dir, d, p, now);
      && t < |e.tickets| && e.tickets[t].status.Open? && e.tickets[t].updatedAt == now
      && (t < |d.tickets| ==> !d.tickets[t].status.Terminal() && SameIdentity(d.tickets[t], e.tickets[t]))
  {
    assert Place(dir, d, msg, p, now).messages == d.messages;
    if DecisionFor(dir, d, p, now).Attach? {
      AttachMeaning(d, ChatOf(dir, msg.chatTg), CustomerOf(dir, msg.fromTg), msg.replyTo, dir.idleMinutes, now,
                    p.anchor, p.active);
    }
  }

  /** All ids a job writes are its message's. */
  lemma IngestIds(dir: Directory, d: Desk, msg: Incoming, p: Picks, now: int, cut: Cut)
    ensures var e := IngestDesk(dir, d, msg, p, now, cut);
      forall m :: |d.messages| <= m < |e.messages| ==> e.messages[m].tgId == Some(msg.tgId) || e.messages[m].tgId == None
  {
    assert Place(dir, d, msg, p, now).messages == d.messages;
  }

  lemma OnlyTargetSettles(d: Desk, e: Desk, c: ChatId, t: TicketId, at: int, tg: int)
    requires forall m :: 0 <= m < |d.messages| ==> d.messages[m].ticket < |d.tickets|
    requires |d.tickets| <= |e.tickets| <= |d.tickets| + 1 && d.messages <= e.messages
    requires t < |e.tickets| && e.tickets[t].chat == c && (|d.tickets| < |e.tickets| ==> t == |d.tickets|)
    requires forall i :: 0 <= i < |d.tickets| && i != t ==> e.tickets[i] == d.tickets[i]
    requires e.tickets[t].status.Open? && e.tickets[t].updatedAt == at
    requires t < |d.tickets| ==> !d.tickets[t].status.Terminal() && SameIdentity(d.tickets[t], e.tickets[t])
    requires forall m :: |d.messages| <= m < |e.messages| ==> e.messages[m].tgId == Some(tg) || e.messages[m].tgId == None
    ensures Settled(d, e, c, t, at, tg)
  {
  }

  // ---------- The second delivery finds the same ticket ----------

  /** All answers the reply lookup may give name the same ticket. */
  ghost predicate Unambiguous(d: Desk, c: ChatId, reply: Option<int>) {
    forall m: MessageId, n: MessageId ::
      IsAnchorPick(d, c, reply, Some(m)) && IsAnchorPick(d, c, reply, Some(n)) ==>
      d.messages[m].ticket == d.messages[n].ticket
  }

  /** Every live ticket the customer has in the chat, other than `t`, was last updated before. */
  predicate AloneLatest(d: Desk, c: ChatId, customer: CustomerId, t: TicketId, at: int) {
    forall i: TicketId :: i < |d.tickets| && i != t && Candidate(d, c, customer, i) ==> d.tickets[i].updatedAt < at
  }

  lemma SameAnchors(d: Desk, e: Desk, c: ChatId, a: TicketId, at: int, tg: int, reply: Option<int>, pick: Option<MessageId>)
    requires Settled(d, e, c, a, at, tg) && Shape(d) && reply != Some(tg)
    ensures IsAnchorPick(e, c, reply, pick) <==> IsAnchorPick(d, c, reply, pick)
    ensures IsAnchorPick(d, c, reply, pick) && pick.Some? ==> e.messages[pick.value] == d.messages[pick.value]
  {
    if reply.Some? {
      forall m: MessageId
        ensures Carries(e, c, reply.value, m) <==> Carries(d, c, reply.value, m)
        ensures Carries(d, c, reply.value, m) ==> e.messages[m] == d.messages[m]
      {
        if m < |d.messages| {
          assert OfChat(d, d.messages[m].ticket, c) ==> e.messages[m] == d.messages[m];
        }
      }
    }
  }

  lemma FindsAgain(d: Desk, e: Desk, c: ChatId, customer: CustomerId, reply: Option<int>, tg: int, idleMinutes: int,
                   at: int, anchor: Option<MessageId>, active: Option<TicketId>, a: TicketId,
                   later: int, anchor': Option<MessageId>, active': Option<TicketId>)
    requires Shape(d) && IsAnchorPick(d, c, reply, anchor) && IsActivePick(d, c, customer, active)
    requires var r := Decide(d, idleMinutes, at, anchor, active);
      if r.Attach? then a == r.ticket else a == |d.tickets|
    requires Settled(d, e, c, a, at, tg) && reply != Some(tg) && Unambiguous(d, c, reply)
    requires a == |d.tickets| ==> e.tickets[a].customer == customer
    requires AloneLatest(d, c, customer, a, at)
    requires IsAnchorPick(e, c, reply, anchor') && IsActivePick(e, c, customer, active')
    ensures var r := Decide(e, idleMinutes, later, anchor', active');
      if Anchored(d, anchor) || WithinWindow(idleMinutes, later, at) then r.Attach? && r.ticket == a && !r.revive
      else r.CreateNew?
  {
    SameAnchors(d, e, c, a, at, tg, reply, anchor');
    SameAnchors(d, e, c, a, at, tg, reply, anchor);
    assert anchor.Some? == anchor'.Some? by {
      if anchor.Some? { assert Carries(d, c, reply.value, anchor.value); }
      if anchor'.Some? { assert Carries(d, c, reply.value, anchor'.value); }
    }
    if Anchored(d, anchor) {
      assert d.messages[anchor'.value].ticket == a;
      assert Anchored(e, anchor');
    } else {
      if anchor'.Some? {
        var t := d.messages[anchor.value].ticket;
        assert d.messages[anchor'.value].ticket == t && OfChat(d, t, c) && t != a;
        assert e.tickets[t] == d.tickets[t];
      }
      assert !Anchored(e, anchor');
      assert Candidate(e, c, customer, a);
      assert active'.Some?;
      var b := active'.value;
      assert e.tickets[b].updatedAt >= at;
      assert b == a;
    }
  }

  // ---------- Redelivery ----------

  /** The ids resolved by the first delivery are resolved again by every later one. */
  lemma SameIds(dir: Directory, dir': Directory, msg: Incoming)
    requires DirInv(dir) && DirInv(dir') && Grows(Resolved(dir, msg), dir')
    ensures ChatOf(dir', msg.chatTg) == ChatOf(dir, msg.chatTg) < |dir'.chats|
    ensures CustomerOf(dir', msg.fromTg) == CustomerOf(dir, msg.fromTg) < |dir'.customers|
    ensures dir'.idleMinutes == dir.idleMinutes
  {
    ResolvedKeeps(dir, msg);
    var r := Resolved(dir, msg);
    assert dir'.chats[ChatOf(dir, msg.chatTg)].telegramId == msg.chatTg;
    assert dir'.customers[CustomerOf(dir, msg.fromTg)].telegramId == msg.fromTg;
  }

  /** What the theorems ask of a first delivery: later than the last update of any other live ticket
      its sender has in the chat, an unambiguous reply target, and no message that replies to itself. */
  ghost predicate GoodFirst(db: Db, first: Timed) {
    && Inv(db) && Legal(db, first) && first.step.Ingest?
    && Wrote(db.dir, db.desk, first.step.msg, first.step.picks, first.now, first.step.cut)
    && first.step.msg.replyTo != Some(first.step.msg.tgId)
    && Unambiguous(db.desk, ChatOf(db.dir, first.step.msg.chatTg), first.step.msg.replyTo)
    && AloneLatest(db.desk, ChatOf(db.dir, first.step.msg.chatTg), CustomerOf(db.dir, first.step.msg.fromTg),
                   Target(db.dir, db.desk, first.step.picks, first.now), first.now)
  }

  /** When no two writes share a millisecond, nothing but the last two demands is left to ask. */
  lemma StrictFirstIsGood(db: Db, first: Timed)
    requires StrictInv(db) && Legal(db, first) && Strict(db, first) && first.step.Ingest?
    requires Wrote(db.dir, db.desk, first.step.msg, first.step.picks, first.now, first.step.cut)
    requires first.step.msg.replyTo != Some(first.step.msg.tgId)
    ensures GoodFirst(db, first)
  {
    var d, c, reply := db.desk, ChatOf(db.dir, first.step.msg.chatTg), first.step.msg.replyTo;
    forall m: MessageId, n: MessageId | IsAnchorPick(d, c, reply, Some(m)) && IsAnchorPick(d, c, reply, Some(n))
      ensures m == n
    {
      LookupsUnambiguous(d, c, CustomerOf(db.dir, first.step.msg.fromTg), reply, Some(m), Some(n),
                         first.step.picks.active, first.step.picks.active);
    }
  }

  /** The chat as the second delivery finds it. */
  lemma StillSettled(db: Db, first: Timed, s: Db)
    requires GoodFirst(db, first)
    requires Untouched(Apply(db, first).desk, s.desk, ChatOf(db.dir, first.step.msg.chatTg))
    ensures var dir, d, msg, p, now := db.dir, db.desk, first.step.msg, first.step.picks, first.now;
      var a := Target(dir, d, p, now);
      && Settled(d, s.desk, ChatOf(dir, msg.chatTg), a, now, msg.tgId)
      && (first.step.cut.Rank() >= 4 ==> HasRow(s.desk.messages, a, msg.tgId))
      && (a == |d.tickets| ==> s.desk.tickets[a].customer == CustomerOf(dir, msg.fromTg))
  {
    var dir, d, msg, p, now := db.dir, db.desk, first.step.msg, first.step.picks, first.now;
    FirstSettles(dir, d, msg, p, now, first.step.cut);
    FirstShape(db, first);
    SettledStays(d, Apply(db, first).desk, s.desk, ChatOf(dir, msg.chatTg), Target(dir, d, p, now), now, msg.tgId);
    FirstRow(dir, d, msg, p, now, first.step.cut);
    RowStays(Apply(db, first).desk, s.desk, ChatOf(dir, msg.chatTg), Target(dir, d, p, now), msg.tgId);
  }

  lemma RowStays(d: Desk, e: Desk, c: ChatId, t: TicketId, tg: int)
    requires Untouched(d, e, c) && OfChat(d, t, c)
    ensures HasRow(d.messages, t, tg) ==> HasRow(e.messages, t, tg)
    ensures e.tickets[t] == d.tickets[t]
  {
    if HasRow(d.messages, t, tg) {
      var m :| 0 <= m < |d.messages| && d.messages[m].ticket == t && d.messages[m].tgId == Some(tg);
      assert e.messages[m] == d.messages[m];
    }
  }

  /** A second delivery is recognised: it comes within the idle window, or it replies to a message
      whose thread was live when it came first. */
  predicate Recognised(db: Db, first: Timed, later: int)
    requires first.step.Ingest?
  {
    WithinWindow(db.dir.idleMinutes, later, first.now) || Anchored(db.desk, first.step.picks.anchor)
  }

  lemma SecondDecides(db: Db, first: Timed, s: Db, later: int, p': Picks)
    requires GoodFirst(db, first)
    requires DirInv(s.dir) && Grows(Apply(db, first).dir, s.dir)
    requires Untouched(Apply(db, first).desk, s.desk, ChatOf(db.dir, first.step.msg.chatTg))
    requires LegalPicks(s.dir, s.desk, first.step.msg, p', later) && Accepts(s.dir, first.step.msg, p')
    ensures var r := DecisionFor(s.dir, s.desk, p', later);
      if Recognised(db, first, later)
      then r.Attach? && !r.revive && r.ticket == Target(db.dir, db.desk, first.step.picks, first.now)
      else r.CreateNew?
    ensures first.step.cut.Rank() >= 4 ==>
      HasRow(s.desk.messages, Target(db.dir, db.desk, first.step.picks, first.now), first.step.msg.tgId)
  {
    var dir, d, msg, p, now := db.dir, db.desk, first.step.msg, first.step.picks, first.now;
    StillSettled(db, first, s);
    FirstResolves(db, first);
    SecondFinds(dir, d, msg, p, now, s.dir, s.desk, p', later);
  }

  lemma FirstResolves(db: Db, first: Timed)
    requires GoodFirst(db, first)
    ensures Apply(db, first).dir == Resolved(db.dir, first.step.msg)
  {
  }

  lemma SecondFinds(dir: Directory, d: Desk, msg: Incoming, p: Picks, now: int, dir': Directory, e: Desk, p': Picks, later: int)
    requires DirInv(dir) && DirInv(dir') && Grows(Resolved(dir, msg), dir')
    requires Shape(d) && Accepts(dir, msg, p) && LegalPicks(dir, d, msg, p, now)
    requires Accepts(dir', msg, p') && LegalPicks(dir', e, msg, p', later)
    requires msg.replyTo != Some(msg.tgId) && Unambiguous(d, ChatOf(dir, msg.chatTg), msg.replyTo)
    requires AloneLatest(d, ChatOf(dir, msg.chatTg), CustomerOf(dir, msg.fromTg), Target(dir, d, p, now), now)
    requires Settled(d, e, ChatOf(dir, msg.chatTg), Target(dir, d, p, now), now, msg.tgId)
    requires Target(dir, d, p, now) == |d.tickets| ==> e.tickets[Target(dir, d, p, now)].customer == CustomerOf(dir, msg.fromTg)
    ensures var r := DecisionFor(dir', e, p', later);
      if WithinWindow(dir.idleMinutes, later, now) || Anchored(d, p.anchor)
      then r.Attach? && !r.revive && r.ticket == Target(dir, d, p, now)
      else r.CreateNew?
  {
    SameIds(dir, dir', msg);
    FindsAgain(d, e, ChatOf(dir, msg.chatTg), CustomerOf(dir, msg.fromTg), msg.replyTo, msg.tgId, dir.idleMinutes, now,
               p.anchor, p.active, Target(dir, d, p, now), later, p'.anchor, p'.active);
  }

  lemma FirstShape(db: Db, first: Timed)
    requires Inv(db) && Legal(db, first)
    ensures forall m :: 0 <= m < |db.desk.messages| ==> db.desk.messages[m].ticket < |db.desk.tickets|
    ensures var e := Apply(db, first).desk;
      forall m :: 0 <= m < |e.messages| ==> e.messages[m].ticket < |e.tickets|
    ensures Shape(db.desk)
  {
    StepKeepsInv(db, first);
  }

  /** A job that got as far as recording leaves the row on its ticket; a new ticket is its sender's. */
  lemma FirstRow(dir: Directory, d: Desk, msg: Incoming, p: Picks, now: int, cut: Cut)
    requires Wrote(dir, d, msg, p, now, cut)
    ensures var e, a := IngestDesk(dir, d, msg, p, now, cut), Target(dir, d, p, now);
      && a < |e.tickets|
      && (cut.Rank() >= 4 ==> HasRow(e.messages, a, msg.tgId))
      && (a == |d.tickets| ==> e.tickets[a].customer == CustomerOf(dir, msg.fromTg))
  {
    var recorded, a := Recorded(dir, d, msg, p, now), Target(dir, d, p, now);
    assert Place(dir, d, msg, p, now).messages == d.messages;
    if cut.Rank() >= 4 {
      if !HasRow(d.messages, a, msg.tgId) {
        assert recorded.messages[|d.messages|] == InboundRow(a, msg, now);
      }
      var m :| 0 <= m < |recorded.messages| && recorded.messages[m].ticket == a && recorded.messages[m].tgId == Some(msg.tgId);
      assert IngestDesk(dir, d, msg, p, now, cut).messages[m] == recorded.messages[m];
    }
  }

  lemma AfterFirst(db: Db, first: Timed, run: seq<Timed>, c: ChatId)
    requires Inv(db) && Legal(db, first) && LegalRun(Apply(db, first), run) && c < |Apply(db, first).dir.chats|
    requires RunElsewhere(Apply(db, first), run, c)
    ensures var s := Exec(Apply(db, first), run);
      DirInv(s.dir) && Grows(Apply(db, first).dir, s.dir) && Untouched(Apply(db, first).desk, s.desk, c)
  {
    StepKeepsInv(db, first);
    RunLeavesChat(Apply(db, first), run, c);
    RunKeepsInv(Apply(db, first), run);
  }

  /** A job that attaches without reviving does no more than record. */
  lemma AttachedIngest(dir: Directory, d: Desk, msg: Incoming, p: Picks, now: int, cut: Cut)
    requires Accepts(dir, msg, p) && DecisionFor(dir, d, p, now).Attach? && !DecisionFor(dir, d, p, now).revive
    ensures HasRow(d.messages, Target(dir, d, p, now), msg.tgId) ==> IngestDesk(dir, d, msg, p, now, cut) == d
    ensures cut.Rank() >= 4 ==>
      IngestDesk(dir, d, msg, p, now, cut) == Record(d, Target(dir, d, p, now), msg, RepliedRow(dir, d, p, now), now)
  {
  }

  /** A message that was recorded and is delivered again, in full and after any steps on other
      chats, leaves tickets, messages, log and outbound queue exactly as they were, whichever rule
      placed it first, if and only if it is recognised or its sender is no longer accepted. The
      unique pair of message id and ticket is no protection otherwise: the message opens a second
      ticket and is recorded there again. */
  lemma RedeliveryIsNoOp(db: Db, first: Timed, run: seq<Timed>, s: Db, second: Timed)
    requires GoodFirst(db, first) && first.step.cut.Rank() >= 4
    requires LegalRun(Apply(db, first), run) && RunElsewhere(Apply(db, first), run, ChatOf(db.dir, first.step.msg.chatTg))
    requires s == Exec(Apply(db, first), run)
    requires second.step.Ingest? && second.step.msg == first.step.msg && Legal(s, second)
    requires second.step.cut.Complete?
    ensures var e := Apply(s, second).desk;
      if Recognised(db, first, second.now) || !Accepts(s.dir, first.step.msg, second.step.picks) then e == s.desk
      else |e.tickets| == |s.desk.tickets| + 1 && HasRow(e.messages, |s.desk.tickets|, first.step.msg.tgId)
  {
    ChatIsKnown(db, first);
    AfterFirst(db, first, run, ChatOf(db.dir, first.step.msg.chatTg));
    RunKeepsShape(db, first, run);
    SecondLeavesDesk(db, first, s, second);
  }

  lemma RunKeepsShape(db: Db, first: Timed, run: seq<Timed>)
    requires Inv(db) && Legal(db, first) && LegalRun(Apply(db, first), run)
    ensures Shape(Exec(Apply(db, first), run).desk)
  {
    StepKeepsInv(db, first);
    RunKeepsInv(Apply(db, first), run);
  }

  lemma SecondLeavesDesk(db: Db, first: Timed, s: Db, second: Timed)
    requires GoodFirst(db, first) && first.step.cut.Rank() >= 4
    requires DirInv(s.dir) && Shape(s.desk) && Grows(Apply(db, first).dir, s.dir)
    requires Untouched(Apply(db, first).desk, s.desk, ChatOf(db.dir, first.step.msg.chatTg))
    requires second.step.Ingest? && second.step.msg == first.step.msg && Legal(s, second) && second.step.cut.Complete?
    ensures var e := Apply(s, second).desk;
      if Recognised(db, first, second.now) || !Accepts(s.dir, first.step.msg, second.step.picks) then e == s.desk
      else |e.tickets| == |s.desk.tickets| + 1 && HasRow(e.messages, |s.desk.tickets|, first.step.msg.tgId)
  {
    var msg, p := first.step.msg, second.step.picks;
    if Accepts(s.dir, msg, p) {
      SecondDecides(db, first, s, second.now, p);
      if Recognised(db, first, second.now) {
        AttachedIngest(s.dir, s.desk, msg, p, second.now, Complete);
      } else {
        CreatedIngest(s.dir, s.desk, msg, p, second.now);
      }
    }
  }

  lemma CreatedIngest(dir: Directory, d: Desk, msg: Incoming, p: Picks, now: int)
    requires Shape(d) && Accepts(dir, msg, p) && DecisionFor(dir, d, p, now).CreateNew?
    ensures var e := IngestDesk(dir, d, msg, p, now, Complete);
      |e.tickets| == |d.tickets| + 1 && HasRow(e.messages, |d.tickets|, msg.tgId)
  {
    NewThreadHasNoBot(dir, d, msg, p, now);
    var e := IngestDesk(dir, d, msg, p, now, Complete);
    assert e.messages[|d.messages|] == InboundRow(|d.tickets|, msg, now);
  }

  /** A job that stopped right after creating or reviving its ticket: the retry, after any steps on
      other chats, adds to that same ticket the one missing row, and no ticket. */
  lemma RetryCompletes(db: Db, first: Timed, run: seq<Timed>, s: Db, second: Timed)
    requires GoodFirst(db, first) && first.step.cut.AfterTicket?
    requires LegalRun(Apply(db, first), run) && RunElsewhere(Apply(db, first), run, ChatOf(db.dir, first.step.msg.chatTg))
    requires s == Exec(Apply(db, first), run)
    requires second.step.Ingest? && second.step.msg == first.step.msg && Legal(s, second)
    requires second.step.cut.Complete? && Recognised(db, first, second.now)
    requires Accepts(s.dir, first.step.msg, second.step.picks)
    ensures MissingRowAdded(s.desk, Apply(s, second).desk, Target(db.dir, db.desk, first.step.picks, first.now),
                     first.step.msg, second.now)
  {
    ChatIsKnown(db, first);
    AfterFirst(db, first, run, ChatOf(db.dir, first.step.msg.chatTg));
    SecondAddsRow(db, first, s, second);
  }

  lemma ChatIsKnown(db: Db, first: Timed)
    requires GoodFirst(db, first)
    ensures ChatOf(db.dir, first.step.msg.chatTg) < |Apply(db, first).dir.chats|
  {
    ResolvedKeeps(db.dir, first.step.msg);
  }

  /** The message is on the ticket; if it was not before, its row, the client pointer and the
      update time are all that is new, and else nothing is. */
  ghost predicate MissingRowAdded(d: Desk, e: Desk, t: TicketId, msg: Incoming, now: int) {
    && t < |d.tickets| && HasRow(e.messages, t, msg.tgId) && e.events == d.events && e.outbox == d.outbox
    && (if HasRow(d.messages, t, msg.tgId) then e.messages == d.messages && e.tickets == d.tickets
        else && e.messages == d.messages + [InboundRow(t, msg, now)]
             && e.tickets == d.tickets[t := d.tickets[t].(lastClient := Some(msg.tgId), updatedAt := now)])
  }

  lemma SecondAddsRow(db: Db, first: Timed, s: Db, second: Timed)
    requires GoodFirst(db, first) && first.step.cut.AfterTicket?
    requires DirInv(s.dir) && Grows(Apply(db, first).dir, s.dir)
    requires Untouched(Apply(db, first).desk, s.desk, ChatOf(db.dir, first.step.msg.chatTg))
    requires second.step.Ingest? && second.step.msg == first.step.msg && Legal(s, second)
    requires second.step.cut.Complete? && Recognised(db, first, second.now)
    requires Accepts(s.dir, first.step.msg, second.step.picks)
    ensures MissingRowAdded(s.desk, Apply(s, second).desk, Target(db.dir, db.desk, first.step.picks, first.now),
                     first.step.msg, second.now)
  {
    SecondDecides(db, first, s, second.now, second.step.picks);
    AttachedAddsRow(s.dir, s.desk, first.step.msg, second.step.picks, second.now,
                    Target(db.dir, db.desk, first.step.picks, first.now));
  }

  lemma AttachedAddsRow(dir: Directory, d: Desk, msg: Incoming, p: Picks, now: int, t: TicketId)
    requires Accepts(dir, msg, p)
    requires var r := DecisionFor(dir, d, p, now); r.Attach? && !r.revive && r.ticket == t
    ensures MissingRowAdded(d, IngestDesk(dir, d, msg, p, now, Complete), t, msg, now)
  {
    AttachedIngest(dir, d, msg, p, now, Complete);
    RecordedOnce(d, t, msg, RepliedRow(dir, d, p, now), now);
  }

  lemma RecordedOnce(d: Desk, t: TicketId, msg: Incoming, replied: Option<MessageId>, now: int)
    requires t < |d.tickets|
    ensures MissingRowAdded(d, Record(d, t, msg, replied, now), t, msg, now)
  {
    if !HasRow(d.messages, t, msg.tgId) {
      assert (d.messages + [InboundRow(t, msg, now)])[|d.messages|] == InboundRow(t, msg, now);
    }
  }

  // ---------- A crash and its retry amount to one clean run ----------

  /** Equal but for creation and update times. */
  ghost predicate SameUpToTimes(d: Desk, e: Desk) {
    && |d.tickets| == |e.tickets| && |d.messages| == |e.messages| && |d.events| == |e.events| && d.outbox == e.outbox
    && (forall i :: 0 <= i < |d.tickets| ==> d.tickets[i].(createdAt := 0, updatedAt := 0) == e.tickets[i].(createdAt := 0, updatedAt := 0))
    && (forall m :: 0 <= m < |d.messages| ==> d.messages[m].(createdAt := 0) == e.messages[m].(createdAt := 0))
    && (forall k :: 0 <= k < |d.events| ==> d.events[k].(createdAt := 0) == e.events[k].(createdAt := 0))
  }

  function AtLeastRecorded(cut: Cut): Cut {
    if cut.Rank() < 4 then AfterRecord else cut
  }

  lemma ChatAgain(dir: Directory, tg: int, title: string)
    requires DirInv(dir)
    ensures var w := WithChat(dir, tg, title);
      && FindChat(w.chats, tg) == Some(ChatOf(dir, tg)) && WithChat(w, tg, title) == w && ChatOf(w, tg) == ChatOf(dir, tg)
  {
    WithChatKeeps(dir, tg, title);
  }

  lemma CustomerAgain(dir: Directory, tg: int, username: Option<string>, name: string)
    requires DirInv(dir)
    ensures var w := WithCustomer(dir, tg, username, name);
      && FindCustomer(w.customers, tg) == Some(CustomerOf(dir, tg)) && CustomerOf(w, tg) == CustomerOf(dir, tg)
      && WithCustomer(w, tg, username, name) == w
  {
    WithCustomerKeeps(dir, tg, username, name);
  }

  /** Resolving chat and customer twice is resolving them once. */
  lemma ResolvedTwice(dir: Directory, msg: Incoming)
    requires DirInv(dir)
    ensures Resolved(Resolved(dir, msg), msg) == Resolved(dir, msg)
    ensures Resolved(WithChat(dir, msg.chatTg, msg.chatTitle), msg) == Resolved(dir, msg)
    ensures ChatOf(Resolved(dir, msg), msg.chatTg) == ChatOf(dir, msg.chatTg)
    ensures ChatOf(WithChat(dir, msg.chatTg, msg.chatTitle), msg.chatTg) == ChatOf(dir, msg.chatTg)
    ensures CustomerOf(Resolved(dir, msg), msg.fromTg) == CustomerOf(dir, msg.fromTg)
    ensures CustomerOf(WithChat(dir, msg.chatTg, msg.chatTitle), msg.fromTg) == CustomerOf(dir, msg.fromTg)
  {
    var w := WithChat(dir, msg.chatTg, msg.chatTitle);
    ChatAgain(dir, msg.chatTg, msg.chatTitle);
    assert DirInv(w) by {
      WithChatKeeps(dir, msg.chatTg, msg.chatTitle);
    }
    CustomerAgain(w, msg.fromTg, msg.username, msg.name);
    assert Resolved(dir, msg).chats == w.chats && w.customers == dir.customers;
  }

  /** The directory after a job that stopped resolves the message as before it. */
  lemma CrashedDirectory(dir: Directory, msg: Incoming, p: Picks, cut: Cut)
    requires DirInv(dir) && Accepts(dir, msg, p)
    ensures var dir' := IngestDir(dir, msg, p, cut);
      && Resolved(dir', msg) == Resolved(dir, msg) && ChatOf(dir', msg.chatTg) == ChatOf(dir, msg.chatTg)
      && CustomerOf(dir', msg.fromTg) == CustomerOf(dir, msg.fromTg)
      && dir'.excluded == dir.excluded && dir'.agents == dir.agents && dir'.idleMinutes == dir.idleMinutes
  {
    ResolvedTwice(dir, msg);
  }

  /** The outcome of a job depends on the directory only through what it resolves. */
  lemma SameResolutionSameIngest(dir: Directory, dir': Directory, d: Desk, msg: Incoming, p: Picks, now: int, cut: Cut)
    requires Resolved(dir', msg) == Resolved(dir, msg) && ChatOf(dir', msg.chatTg) == ChatOf(dir, msg.chatTg)
    requires CustomerOf(dir', msg.fromTg) == CustomerOf(dir, msg.fromTg)
    requires dir'.excluded == dir.excluded && dir'.agents == dir.agents && dir'.idleMinutes == dir.idleMinutes
    ensures IngestDesk(dir', d, msg, p, now, cut) == IngestDesk(dir, d, msg, p, now, cut)
    ensures Accepts(dir, msg, p) ==> IngestDir(dir', msg, p, Complete) == IngestDir(dir, msg, p, Complete)
  {
    SamePlace(dir, dir', d, msg, p, now);
    assert Accepts(dir', msg, p) == Accepts(dir, msg, p);
    assert Target(dir', d, p, now) == Target(dir, d, p, now);
    assert Recorded(dir', d, msg, p, now) == Recorded(dir, d, msg, p, now);
  }

  lemma SamePlace(dir: Directory, dir': Directory, d: Desk, msg: Incoming, p: Picks, now: int)
    requires Resolved(dir', msg) == Resolved(dir, msg) && ChatOf(dir', msg.chatTg) == ChatOf(dir, msg.chatTg)
    requires CustomerOf(dir', msg.fromTg) == CustomerOf(dir, msg.fromTg) && dir'.idleMinutes == dir.idleMinutes
    ensures DecisionFor(dir', d, p, now) == DecisionFor(dir, d, p, now)
    ensures Place(dir', d, msg, p, now) == Place(dir, d, msg, p, now)
  {
    match DecisionFor(dir, d, p, now)
    case Attach(t, revive, _) => ReviveNeedsNoDirectory(d, dir, dir', t, now);
    case CreateNew => assert Newborn(dir', d, msg, p, now) == Newborn(dir, d, msg, p, now);
  }

  lemma ReviveNeedsNoDirectory(d: Desk, dir: Directory, dir': Directory, t: TicketId, now: int)
    ensures Patch(d, dir, t, StatusOnly(Open), None, now) == Patch(d, dir', t, StatusOnly(Open), None, now)
  {
  }

  /** Before its ticket is written, a job that stops leaves no trace that its retry could notice:
      the retry's result is exactly that of a single run at the retry's time. */
  lemma EarlyCrashThenRetry(db: Db, first: Timed, second: Timed)
    requires Inv(db) && Legal(db, first) && first.step.Ingest?
    requires !Wrote(db.dir, db.desk, first.step.msg, first.step.picks, first.now, first.step.cut)
    requires second.step.Ingest? && second.step.msg == first.step.msg && second.step.cut.Complete?
    requires Legal(Apply(db, first), second)
    ensures var p := second.step.picks.(excluded := first.step.picks.excluded);
      Apply(Apply(db, first), second) == Apply(db, Timed(second.now, Ingest(first.step.msg, p, Complete)))
  {
    var dir, msg, p, cut := db.dir, first.step.msg, first.step.picks, first.step.cut;
    NothingWritten(dir, db.desk, msg, p, first.now, cut);
    EarlyCrash(db, msg, p, cut, second.step.picks, second.now);
  }

  lemma EarlyCrash(db: Db, msg: Incoming, p: Picks, cut: Cut, p': Picks, later: int)
    requires DirInv(db.dir) && IsUsernamePick(db.dir.excluded, msg.username, p.excluded)
    requires IsUsernamePick(IngestDir(db.dir, msg, p, cut).excluded, msg.username, p'.excluded)
    ensures var dir', q := IngestDir(db.dir, msg, p, cut), p'.(excluded := p.excluded);
      && IngestDesk(dir', db.desk, msg, p', later, Complete) == IngestDesk(db.dir, db.desk, msg, q, later, Complete)
      && IngestDir(dir', msg, p', Complete) == IngestDir(db.dir, msg, q, Complete)
  {
    var dir, dir', q := db.dir, IngestDir(db.dir, msg, p, cut), p'.(excluded := p.excluded);
    if Accepts(dir, msg, p) {
      CrashedDirectory(dir, msg, p, cut);
      assert p.excluded.None? && p'.excluded.None?;
      assert p' == q;
      SameResolutionSameIngest(dir, dir', db.desk, msg, q, later, Complete);
    } else if dir' != dir {
      BackfillBars(dir, msg.fromTg, p.excluded, msg.username);
      BarredIsIgnored(dir', msg.fromTg, p'.excluded);
    } else {
      SameVerdict(dir, msg, p, p');
    }
  }

  /** Whatever record the lookup by username returns, a sender that was turned away without a
      write is turned away again without one. */
  lemma SameVerdict(dir: Directory, msg: Incoming, p: Picks, p': Picks)
    requires IsUsernamePick(dir.excluded, msg.username, p.excluded)
    requires IsUsernamePick(dir.excluded, msg.username, p'.excluded)
    requires !Accepts(dir, msg, p) && ClassifyWrites(dir, msg.fromTg, p.excluded) == dir
    ensures !Accepts(dir, msg, p') && ClassifyWrites(dir, msg.fromTg, p'.excluded) == dir
  {
  }

  /** From the moment its ticket is written, a job that stops and its retry within the window
      amount, up to times, to the first run carried on at least to recording the message. */
  lemma LateCrashThenRetry(db: Db, first: Timed, second: Timed)
    requires GoodFirst(db, first)
    requires second.step.Ingest? && second.step.msg == first.step.msg && second.step.cut.Complete?
    requires Legal(Apply(db, first), second) && Recognised(db, first, second.now)
    ensures var clean := Apply(db, Timed(first.now, Ingest(first.step.msg, first.step.picks, AtLeastRecorded(first.step.cut))));
      var retried := Apply(Apply(db, first), second);
      && SameUpToTimes(retried.desk, clean.desk)
      && retried.dir == clean.dir && retried.rollup == clean.rollup
      && (first.step.cut.Rank() >= 4 ==> retried.desk == clean.desk)
  {
    StepKeepsInv(db, first);
    LateCrashDirectory(db.dir, first.step.msg, first.step.picks, first.step.cut, second.step.picks);
    SecondDecides(db, first, Apply(db, first), second.now, second.step.picks);
    LateCrash(db.dir, db.desk, Apply(db, first).dir, first.step.msg, first.step.picks, first.now, first.step.cut,
              second.step.picks, second.now);
  }

  lemma LateCrashDirectory(dir: Directory, msg: Incoming, p: Picks, cut: Cut, p': Picks)
    requires DirInv(dir) && Accepts(dir, msg, p) && cut.Rank() >= 3
    requires IsUsernamePick(dir.excluded, msg.username, p.excluded)
    requires IsUsernamePick(IngestDir(dir, msg, p, cut).excluded, msg.username, p'.excluded)
    ensures var dir' := IngestDir(dir, msg, p, cut);
      && Accepts(dir', msg, p')
      && IngestDir(dir', msg, p', Complete) == IngestDir(dir, msg, p, AtLeastRecorded(cut))
  {
    CrashedDirectory(dir, msg, p, cut);
    SameUsernamePick(dir, msg, p, p');
  }

  lemma LateCrash(dir: Directory, d: Desk, dir': Directory, msg: Incoming, p: Picks, now: int, cut: Cut, p': Picks, later: int)
    requires cut.Rank() >= 3 && Accepts(dir, msg, p) && Accepts(dir', msg, p')
    requires var e := IngestDesk(dir, d, msg, p, now, cut);
      var r := DecisionFor(dir', e, p', later);
      && r.Attach? && !r.revive && r.ticket == Target(dir, d, p, now)
      && (cut.Rank() >= 4 ==> HasRow(e.messages, r.ticket, msg.tgId))
    ensures var e := IngestDesk(dir, d, msg, p, now, cut);
      var retried := IngestDesk(dir', e, msg, p', later, Complete);
      var clean := IngestDesk(dir, d, msg, p, now, AtLeastRecorded(cut));
      && SameUpToTimes(retried, clean)
      && (cut.Rank() >= 4 ==> retried == clean)
  {
    var e := IngestDesk(dir, d, msg, p, now, cut);
    AttachedIngest(dir', e, msg, p', later, Complete);
    if cut.AfterTicket? {
      RecordTimes(e, Target(dir, d, p, now), msg, RepliedRow(dir', e, p', later), RepliedRow(dir, d, p, now), later, now);
    }
  }

  /** An accepted sender matches no record by username, before or after. */
  lemma SameUsernamePick(dir: Directory, msg: Incoming, p: Picks, p': Picks)
    requires IsUsernamePick(dir.excluded, msg.username, p.excluded) && Accepts(dir, msg, p)
    requires IsUsernamePick(dir.excluded, msg.username, p'.excluded)
    ensures Accepts(dir, msg, p') && p.excluded == p'.excluded
  {
  }

  lemma RecordTimes(d: Desk, t: TicketId, msg: Incoming, r1: Option<MessageId>, r2: Option<MessageId>, t1: int, t2: int)
    requires t < |d.tickets|
    ensures SameUpToTimes(Record(d, t, msg, r1, t1), Record(d, t, msg, r2, t2))
  {
  }

  /** Completing a run that has recorded its message adds at most the acknowledgement: one bot row
      on the new ticket and its outbound job. */
  lemma CompletionAddsOnlyAck(dir: Directory, d: Desk, msg: Incoming, p: Picks, now: int)
    requires Accepts(dir, msg, p)
    ensures var r, e, t := IngestDesk(dir, d, msg, p, now, AfterRecord), IngestDesk(dir, d, msg, p, now, Complete), Target(dir, d, p, now);
      && e.tickets == r.tickets && e.events == r.events
      && (DecisionFor(dir, d, p, now).Attach? ==> e == r)
      && (DecisionFor(dir, d, p, now).CreateNew? ==>
            && e.messages == r.messages + [Message(t, Out, FromBot, None, None, Some(AUTO_ACK_TEXT), p.doneAt)]
            && e.outbox == r.outbox + [Job(t, |r.messages|, msg.chatTg, Some(AUTO_ACK_TEXT), Some(msg.tgId))])
  {
  }
}
