/** When an agent was last given a ticket, by creation, assignment or patch, and what round-robin
    knows of it: it sees only when the tickets an agent holds now were created. */
module LastGivenRuns {
  import opened Types
  import opened DirectorySpec
  import opened RoutingSpec
  import opened DeskSpec
  import opened DeskInvariants
  import opened Engine
  import opened Reachable
  import opened RoutingServices

  /** Never given a ticket counts as the epoch. */
  function LastGiven(past: History, a: AgentId): int {
    if a in past.given then past.given[a] else 0
  }

  // ---------- What the tables tell of the past ----------

  /** Who holds a ticket was given one, and not before that ticket was created. */
  ghost predicate GivenFits(d: Desk, clock: int) {
    && (forall i :: 0 <= i < |d.tickets| && d.tickets[i].assignee.Some? ==> HolderGiven(d, i))
    && (forall a :: a in d.past.given ==> 0 < d.past.given[a] <= clock)
  }

  ghost predicate HolderGiven(d: Desk, i: int)
    requires 0 <= i < |d.tickets| && d.tickets[i].assignee.Some?
  {
    var a := d.tickets[i].assignee.value;
    a in d.past.given && d.tickets[i].createdAt <= d.past.given[a]
  }

  ghost predicate CreatedBy(d: Desk, clock: int) {
    forall i :: 0 <= i < |d.tickets| ==> 0 < d.tickets[i].createdAt <= clock
  }

  lemma InvIsCreatedBy(db: Db)
    requires Inv(db)
    ensures CreatedBy(db.desk, db.clock) && 0 < db.clock
  {
    assert forall i :: 0 <= i < |db.desk.tickets| ==> TicketTimes(db.desk.tickets[i], db.clock);
  }

  lemma PatchFits(d: Desk, dir: Directory, t: TicketId, dto: PatchDto, author: Option<AgentId>, clock: int, now: int)
    requires GivenFits(d, clock) && CreatedBy(d, clock) && 0 < clock <= now
    ensures GivenFits(Patch(d, dir, t, dto, author, now), now)
  {
    var e := Patch(d, dir, t, dto, author, now);
    forall i | 0 <= i < |e.tickets| && e.tickets[i].assignee.Some?
      ensures HolderGiven(e, i)
    {
      assert d.tickets[i].assignee.Some? ==> HolderGiven(d, i);
    }
  }

  lemma AssignFits(d: Desk, dir: Directory, t: TicketId, agent: AgentId, author: AgentId, reason: Option<string>,
                   clock: int, now: int)
    requires GivenFits(d, clock) && CreatedBy(d, clock) && 0 < clock <= now
    ensures GivenFits(Assign(d, dir, t, agent, author, reason, now), now)
  {
    var e := Assign(d, dir, t, agent, author, reason, now);
    forall i | 0 <= i < |e.tickets| && e.tickets[i].assignee.Some?
      ensures HolderGiven(e, i)
    {
      assert d.tickets[i].assignee.Some? ==> HolderGiven(d, i);
    }
  }

  lemma CreateFits(d: Desk, t: Ticket, clock: int)
    requires GivenFits(d, clock) && CreatedBy(d, clock) && 0 < clock <= t.createdAt
    ensures GivenFits(Create(d, t), t.createdAt)
  {
    var e := Create(d, t);
    forall i | 0 <= i < |e.tickets| && e.tickets[i].assignee.Some?
      ensures HolderGiven(e, i)
    {
      assert i < |d.tickets| && d.tickets[i].assignee.Some? ==> HolderGiven(d, i);
    }
  }

  /** Steps that change neither assignees nor what was given. */
  ghost predicate KeepsHolders(d: Desk, e: Desk) {
    && |d.tickets| == |e.tickets| && e.past.given == d.past.given
    && forall i :: 0 <= i < |d.tickets| ==>
         e.tickets[i].assignee == d.tickets[i].assignee && e.tickets[i].createdAt == d.tickets[i].createdAt
  }

  lemma KeptFits(d: Desk, e: Desk, clock: int, now: int)
    requires GivenFits(d, clock) && KeepsHolders(d, e) && clock <= now
    ensures GivenFits(e, now)
  {
    forall i | 0 <= i < |e.tickets| && e.tickets[i].assignee.Some?
      ensures HolderGiven(e, i)
    {
      assert HolderGiven(d, i);
    }
  }

  /** After its ticket is placed, an ingest job gives nobody anything. */
  lemma IngestAfterPlace(dir: Directory, d: Desk, msg: Incoming, p: Picks, now: int, cut: Cut)
    ensures var e := IngestDesk(dir, d, msg, p, now, cut);
      e == d || KeepsHolders(Place(dir, d, msg, p, now), e)
  {
    IngestCases(dir, d, msg, p, now, cut);
  }

  lemma IngestFits(dir: Directory, d: Desk, msg: Incoming, p: Picks, clock: int, now: int, cut: Cut)
    requires GivenFits(d, clock) && CreatedBy(d, clock) && 0 < clock <= now <= p.doneAt
    ensures GivenFits(IngestDesk(dir, d, msg, p, now, cut), p.doneAt)
  {
    var placed, e := Place(dir, d, msg, p, now), IngestDesk(dir, d, msg, p, now, cut);
    IngestAfterPlace(dir, d, msg, p, now, cut);
    if e == d {
      KeptFits(d, e, clock, p.doneAt);
    } else {
      match DecisionFor(dir, d, p, now) {
        case Attach(t, revive, _) =>
          PatchFits(d, dir, t, StatusOnly(Open), None, clock, now);
          KeptFits(d, d, clock, now);
        case CreateNew => CreateFits(d, Newborn(dir, d, msg, p, now), clock);
      }
      KeptFits(placed, e, now, p.doneAt);
    }
  }

  lemma StepFits(db: Db, ts: Timed)
    requires GivenFits(db.desk, db.clock) && CreatedBy(db.desk, db.clock) && 0 < db.clock && Legal(db, ts)
    ensures GivenFits(Apply(db, ts).desk, EndOf(ts))
  {
    match ts.step
    case Ingest(msg, p, cut) => IngestFits(db.dir, db.desk, msg, p, db.clock, ts.now, cut);
    case PatchTicket(t, dto, author) => PatchFits(db.desk, db.dir, t, dto, Some(author), db.clock, ts.now);
    case AssignTicket(t, agent, author, reason) =>
      AssignFits(db.desk, db.dir, t, agent, author, reason, db.clock, ts.now);
    case _ => KeptFits(db.desk, Apply(db, ts).desk, db.clock, ts.now);
  }

  lemma {:induction false} RunFits(db: Db, run: seq<Timed>)
    requires Inv(db) && GivenFits(db.desk, db.clock) && LegalRun(db, run)
    ensures GivenFits(Exec(db, run).desk, Exec(db, run).clock)
    decreases |run|
  {
    if run != [] {
      InvIsCreatedBy(db);
      StepFits(db, run[0]);
      StepKeepsInv(db, run[0]);
      RunFits(Apply(db, run[0]), run[1..]);
    }
  }

  lemma SeenNoLater(d: Desk, clock: int, a: AgentId)
    requires GivenFits(d, clock)
    ensures LastAssigned(d.tickets, a) <= LastGiven(d.past, a)
    ensures LastAssigned(d.tickets, a) == LastGiven(d.past, a) <==>
      a in d.past.given ==> HoldsSince(d, a, d.past.given[a])
  {
    var last := LastCreated(d.tickets, a);
    if last.Some? {
      var i :| 0 <= i < |d.tickets| && d.tickets[i].assignee == Some(a) && d.tickets[i].createdAt == last.value;
      assert HolderGiven(d, i);
    }
  }

  /** The agent holds a ticket created at that time. */
  predicate HoldsSince(d: Desk, a: AgentId, time: int) {
    exists i :: 0 <= i < |d.tickets| && d.tickets[i].assignee == Some(a) && d.tickets[i].createdAt == time
  }

  /** In every reachable state, what round-robin sees of an agent is never later than when it was
      last given a ticket, and is that time exactly if the agent has never been given one or still
      holds one that was created just then. */
  lemma RoundRobinSeesLastGift(db: Db, run: seq<Timed>, a: AgentId)
    requires Initial(db) && LegalRun(db, run)
    ensures var d := Exec(db, run).desk;
      && LastAssigned(d.tickets, a) <= LastGiven(d.past, a)
      && (LastAssigned(d.tickets, a) == LastGiven(d.past, a) <==>
            (a in d.past.given ==> HoldsSince(d, a, d.past.given[a])))
  {
    InitialInv(db);
    RunFits(db, run);
    SeenNoLater(Exec(db, run).desk, Exec(db, run).clock, a);
  }

  // ---------- Runs without reassignment ----------

  /** The request says who is to hold a ticket. */
  predicate Reassigns(s: Step) {
    s.AssignTicket? || (s.PatchTicket? && !s.dto.assignee.Keep?)
  }

  predicate NeverReassigns(run: seq<Timed>) {
    forall k :: 0 <= k < |run| ==> !Reassigns(run[k].step)
  }

  ghost predicate AllHeld(d: Desk) {
    forall a :: a in d.past.given ==> HoldsSince(d, a, d.past.given[a])
  }

  lemma KeptHeld(d: Desk, e: Desk)
    requires AllHeld(d) && KeepsHolders(d, e)
    ensures AllHeld(e)
  {
    forall a | a in e.past.given
      ensures HoldsSince(e, a, e.past.given[a])
    {
      assert HoldsSince(d, a, d.past.given[a]);
      var i :| 0 <= i < |d.tickets| && d.tickets[i].assignee == Some(a) && d.tickets[i].createdAt == d.past.given[a];
      assert e.tickets[i].assignee == Some(a);
    }
  }

  lemma CreateHeld(d: Desk, t: Ticket)
    requires AllHeld(d)
    ensures AllHeld(Create(d, t))
  {
    var e := Create(d, t);
    assert e.tickets[|d.tickets|] == t;
    forall a | a in e.past.given
      ensures HoldsSince(e, a, e.past.given[a])
    {
      if t.assignee != Some(a) {
        assert HoldsSince(d, a, d.past.given[a]);
        var i :| 0 <= i < |d.tickets| && d.tickets[i].assignee == Some(a) && d.tickets[i].createdAt == d.past.given[a];
        assert e.tickets[i] == d.tickets[i];
      }
    }
  }

  lemma StepHeld(db: Db, ts: Timed)
    requires AllHeld(db.desk) && !Reassigns(ts.step)
    ensures AllHeld(Apply(db, ts).desk)
  {
    if ts.step.Ingest? {
      IngestHeld(db.dir, db.desk, ts.step.msg, ts.step.picks, ts.now, ts.step.cut);
    } else {
      KeptHeld(db.desk, Apply(db, ts).desk);
    }
  }

  lemma IngestHeld(dir: Directory, d: Desk, msg: Incoming, p: Picks, now: int, cut: Cut)
    requires AllHeld(d)
    ensures AllHeld(IngestDesk(dir, d, msg, p, now, cut))
  {
    IngestAfterPlace(dir, d, msg, p, now, cut);
    match DecisionFor(dir, d, p, now) {
      case Attach(t, revive, _) => KeptHeld(d, Place(dir, d, msg, p, now));
      case CreateNew => CreateHeld(d, Newborn(dir, d, msg, p, now));
    }
    if IngestDesk(dir, d, msg, p, now, cut) != d {
      KeptHeld(Place(dir, d, msg, p, now), IngestDesk(dir, d, msg, p, now, cut));
    }
  }

  lemma {:induction false} RunHeld(db: Db, run: seq<Timed>)
    requires AllHeld(db.desk) && NeverReassigns(run)
    ensures AllHeld(Exec(db, run).desk)
    decreases |run|
  {
    if run != [] {
      StepHeld(db, run[0]);
      assert NeverReassigns(run[1..]);
      RunHeld(Apply(db, run[0]), run[1..]);
    }
  }

  // ---------- Whom round-robin chooses ----------

  /** No active member was last given a ticket earlier. */
  ghost predicate WaitedLongest(dir: Directory, past: History, team: TeamId, a: AgentId) {
    IsActiveMember(dir, team, a) && forall b :: IsActiveMember(dir, team, b) ==> LastGiven(past, a) <= LastGiven(past, b)
  }

  /** No active member holds only older tickets. */
  ghost predicate HoldsOldest(dir: Directory, tickets: seq<Ticket>, team: TeamId, a: AgentId) {
    IsActiveMember(dir, team, a) && forall b :: IsActiveMember(dir, team, b) ==> LastAssigned(tickets, a) <= LastAssigned(tickets, b)
  }

  /** The agent chosen, for members listed in this order. */
  function Chosen(tickets: seq<Ticket>, order: seq<AgentId>): AgentId
    requires order != []
  {
    FirstMin(order, LastKey(tickets, order))
  }

  lemma MembersListed(dir: Directory, team: TeamId, order: seq<AgentId>, a: AgentId)
    requires IsMemberOrder(dir, team, order)
    ensures a in order <==> IsActiveMember(dir, team, a)
  {
    if IsActiveMember(dir, team, a) {
      assert (team, a) in dir.members && (team, a).0 == team && (team, a).1 == a;
    }
  }

  lemma ChosenHoldsOldest(dir: Directory, tickets: seq<Ticket>, team: TeamId, order: seq<AgentId>)
    requires IsMemberOrder(dir, team, order) && order != []
    ensures HoldsOldest(dir, tickets, team, Chosen(tickets, order))
  {
    var key, a := LastKey(tickets, order), Chosen(tickets, order);
    MembersListed(dir, team, order, a);
    forall b | IsActiveMember(dir, team, b)
      ensures LastAssigned(tickets, a) <= LastAssigned(tickets, b)
    {
      MembersListed(dir, team, order, b);
      assert key[a] <= key[b];
    }
  }

  /** Whoever holds the oldest tickets is chosen when listed first. */
  lemma OldestMayBeChosen(dir: Directory, tickets: seq<Ticket>, team: TeamId, a: AgentId) returns (order: seq<AgentId>)
    requires HoldsOldest(dir, tickets, team, a)
    ensures IsMemberOrder(dir, team, order) && order != [] && Chosen(tickets, order) == a
  {
    var any := AnyMemberOrder(dir, team);
    MembersListed(dir, team, any, a);
    var k :| 0 <= k < |any| && any[k] == a;
    order := [a] + any[..k] + any[k + 1..];
    FirstToFront(dir, team, any, k, order);
    var key := LastKey(tickets, order);
    forall j | 0 <= j < |order|
      ensures key[a] <= key[order[j]]
    {
      assert IsActiveMember(dir, team, order[j]);
    }
    assert order[0] == a;
    assert IsFirstMin(order, key, a);
    FirstMinUnique(order, key, a, Chosen(tickets, order));
  }

  lemma FirstToFront(dir: Directory, team: TeamId, any: seq<AgentId>, k: nat, order: seq<AgentId>)
    requires IsMemberOrder(dir, team, any) && k < |any| && order == [any[k]] + any[..k] + any[k + 1..]
    ensures IsMemberOrder(dir, team, order)
  {
    assert forall j :: 0 <= j < |order| ==>
      order[j] == any[if j == 0 then k else if j <= k then j - 1 else j];
    forall m | m in dir.members && m.0 == team && IsActiveMember(dir, team, m.1)
      ensures m.1 in order
    {
      var j :| 0 <= j < |any| && any[j] == m.1;
      assert order[if j < k then j + 1 else if j == k then 0 else j] == m.1;
    }
  }

  /** Round-robin chooses a member assigned longest ago, whatever order the database lists the
      members in, if and only if every member whose held tickets are the oldest was also given its
      last one longest ago. */
  lemma RoundRobinAgreesIff(dir: Directory, d: Desk, team: TeamId)
    ensures (forall order: seq<AgentId> :: IsMemberOrder(dir, team, order) && order != [] ==>
              WaitedLongest(dir, d.past, team, Chosen(d.tickets, order)))
      <==> (forall a :: HoldsOldest(dir, d.tickets, team, a) ==> WaitedLongest(dir, d.past, team, a))
  {
    if forall a :: HoldsOldest(dir, d.tickets, team, a) ==> WaitedLongest(dir, d.past, team, a) {
      forall order: seq<AgentId> | IsMemberOrder(dir, team, order) && order != []
        ensures WaitedLongest(dir, d.past, team, Chosen(d.tickets, order))
      {
        ChosenHoldsOldest(dir, d.tickets, team, order);
      }
    } else {
      var a :| HoldsOldest(dir, d.tickets, team, a) && !WaitedLongest(dir, d.past, team, a);
      var order := OldestMayBeChosen(dir, d.tickets, team, a);
      assert Chosen(d.tickets, order) == a;
    }
  }

  /** In every reachable state: an agent is only chosen out of turn if it no longer holds any ticket
      created when it was last given one. */
  lemma OutOfTurnMeansTaken(db: Db, run: seq<Timed>, team: TeamId, order: seq<AgentId>)
    requires Initial(db) && LegalRun(db, run)
    requires IsMemberOrder(Exec(db, run).dir, team, order) && order != []
    ensures var s := Exec(db, run);
      var a := Chosen(s.desk.tickets, order);
      !WaitedLongest(s.dir, s.desk.past, team, a) ==> a in s.desk.past.given && !HoldsSince(s.desk, a, s.desk.past.given[a])
  {
    InitialInv(db);
    RunFits(db, run);
    InTurnUnlessTaken(Exec(db, run), team, order);
  }

  lemma InTurnUnlessTaken(s: Db, team: TeamId, order: seq<AgentId>)
    requires GivenFits(s.desk, s.clock) && IsMemberOrder(s.dir, team, order) && order != []
    ensures var a := Chosen(s.desk.tickets, order);
      !WaitedLongest(s.dir, s.desk.past, team, a) ==> a in s.desk.past.given && !HoldsSince(s.desk, a, s.desk.past.given[a])
  {
    ChosenHoldsOldest(s.dir, s.desk.tickets, team, order);
    forall b: AgentId
      ensures LastAssigned(s.desk.tickets, b) <= LastGiven(s.desk.past, b)
    {
      SeenNoLater(s.desk, s.clock, b);
    }
    SeenNoLater(s.desk, s.clock, Chosen(s.desk.tickets, order));
  }

  /** As long as nobody is given or deprived of a ticket by hand, round-robin does what its comment
      says: in every reachable state the agent chosen was assigned longest ago. */
  lemma RoundRobinIsLongestAgo(db: Db, run: seq<Timed>, team: TeamId, order: seq<AgentId>)
    requires Initial(db) && LegalRun(db, run) && NeverReassigns(run)
    requires IsMemberOrder(Exec(db, run).dir, team, order) && order != []
    ensures var s := Exec(db, run);
      WaitedLongest(s.dir, s.desk.past, team, Chosen(s.desk.tickets, order))
  {
    InitialInv(db);
    RunFits(db, run);
    RunHeld(db, run);
    var s := Exec(db, run);
    forall a: AgentId
      ensures LastAssigned(s.desk.tickets, a) == LastGiven(s.desk.past, a)
    {
      SeenNoLater(s.desk, s.clock, a);
    }
    ChosenHoldsOldest(s.dir, s.desk.tickets, team, order);
  }
}
