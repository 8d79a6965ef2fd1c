/** The two stateless queries behave, over whole runs, like a scheduler with a cursor and like one
    with counters. */
module Fairness {
  import opened Types
  import opened Counting
  import opened DirectorySpec
  import opened RoutingSpec
  import opened DeskInvariants
  import opened Engine
  import opened Reachable
  import opened Rota

  function MembersOf(dir: Directory, team: TeamId): set<AgentId> {
    set a: AgentId | a < |dir.agents| && IsActiveMember(dir, team, a)
  }

  function ChatFor(dir: Directory, msg: Incoming): Chat {
    Resolved(dir, msg).chats[ChatOf(dir, msg.chatTg)]
  }

  /** The step creates a ticket in a chat that is routed to the team by the strategy. */
  predicate TeamCreation(db: Db, ts: Timed, team: TeamId, strategy: Strategy) {
    && ts.step.Ingest? && Accepts(db.dir, ts.step.msg, ts.step.picks) && ts.step.cut.Rank() >= 3
    && DecisionFor(db.dir, db.desk, ts.step.picks, ts.now).CreateNew?
    && ChatFor(db.dir, ts.step.msg).team == Some(team)
    && ChatFor(db.dir, ts.step.msg).strategy == strategy
  }

  /** Creates no ticket assigned to a member and changes no assignee. */
  ghost predicate Quiet(d: Desk, e: Desk, members: set<AgentId>) {
    && |d.tickets| <= |e.tickets|
    && (forall i :: 0 <= i < |d.tickets| ==>
          e.tickets[i].assignee == d.tickets[i].assignee && e.tickets[i].createdAt == d.tickets[i].createdAt)
    && (forall i :: |d.tickets| <= i < |e.tickets| ==>
          e.tickets[i].assignee.None? || e.tickets[i].assignee.value !in members)
  }

  /** The assignee the new ticket gets. */
  function Winner(db: Db, ts: Timed): AgentId
    requires ts.step.Ingest?
  {
    var a := AssigneeFor(db.desk.tickets, ChatFor(db.dir, ts.step.msg), ts.step.picks.members);
    if a.Some? then a.value else 0
  }

  function Winners(db: Db, run: seq<Timed>, team: TeamId, strategy: Strategy): seq<AgentId>
    decreases |run|
  {
    if run == [] then []
    else
      (if TeamCreation(db, run[0], team, strategy) then [Winner(db, run[0])] else [])
      + Winners(Apply(db, run[0]), run[1..], team, strategy)
  }

  function CreationTimes(db: Db, run: seq<Timed>, team: TeamId, strategy: Strategy): (times: seq<int>)
    ensures |times| == |Winners(db, run, team, strategy)|
    decreases |run|
  {
    if run == [] then []
    else
      (if TeamCreation(db, run[0], team, strategy) then [run[0].now] else [])
      + CreationTimes(Apply(db, run[0]), run[1..], team, strategy)
  }

  // ---------- A creation and its winner ----------

  lemma OrderListsMembers(dir: Directory, team: TeamId, order: seq<AgentId>, a: AgentId)
    requires IsMemberOrder(dir, team, order)
    ensures a in order <==> a in MembersOf(dir, team)
  {
    if a in MembersOf(dir, team) {
      assert (team, a) in dir.members;
      assert (team, a).0 == team && (team, a).1 == a;
    }
  }

  lemma WinnerIsMin(db: Db, ts: Timed, team: TeamId, strategy: Strategy)
    requires Legal(db, ts) && TeamCreation(db, ts, team, strategy) && strategy != Manual
    requires MembersOf(db.dir, team) != {}
    ensures AssigneeFor(db.desk.tickets, ChatFor(db.dir, ts.step.msg), ts.step.picks.members) == Some(Winner(db, ts))
    ensures Winner(db, ts) in MembersOf(db.dir, team)
    ensures forall b | b in MembersOf(db.dir, team) ::
      if strategy.LeastBusy? then Load(db.desk.tickets, Winner(db, ts)) <= Load(db.desk.tickets, b)
      else LastAssigned(db.desk.tickets, Winner(db, ts)) <= LastAssigned(db.desk.tickets, b)
  {
    var order := ts.step.picks.members;
    assert IsMemberOrder(Resolved(db.dir, ts.step.msg), team, order);
    assert IsMemberOrder(db.dir, team, order);
    forall a: AgentId
      ensures a in order <==> a in MembersOf(db.dir, team)
    {
      OrderListsMembers(db.dir, team, order, a);
    }
    var m :| m in MembersOf(db.dir, team);
    assert m in order && order != [];
  }

  lemma NewTicketStays(dir: Directory, d: Desk, msg: Incoming, p: Picks, now: int, cut: Cut)
    requires Accepts(dir, msg, p) && cut.Rank() >= 3 && DecisionFor(dir, d, p, now).CreateNew?
    ensures var e, t := IngestDesk(dir, d, msg, p, now, cut).tickets, Newborn(dir, d, msg, p, now);
      && |e| == |d.tickets| + 1 && e[..|d.tickets|] == d.tickets
      && e[|d.tickets|].assignee == t.assignee && e[|d.tickets|].createdAt == now && e[|d.tickets|].status.Open?
  {
    var t := Newborn(dir, d, msg, p, now);
    assert Place(dir, d, msg, p, now).tickets == d.tickets + [t];
    var r := Recorded(dir, d, msg, p, now).tickets;
    assert |r| == |d.tickets| + 1 && r[..|d.tickets|] == d.tickets && r[|d.tickets|].assignee == t.assignee;
  }

  /** What a creation does to the tickets, as far as routing can see. */
  lemma CreationAddsWinner(db: Db, ts: Timed, team: TeamId, strategy: Strategy)
    requires Legal(db, ts) && TeamCreation(db, ts, team, strategy) && strategy != Manual
    requires MembersOf(db.dir, team) != {}
    ensures AddsWinner(db.desk.tickets, Apply(db, ts).desk.tickets, Winner(db, ts), ts.now)
  {
    WinnerIsMin(db, ts, team, strategy);
    NewTicketStays(db.dir, db.desk, ts.step.msg, ts.step.picks, ts.now, ts.step.cut);
  }

  ghost predicate AddsWinner(d: seq<Ticket>, e: seq<Ticket>, winner: AgentId, now: int) {
    && |e| == |d| + 1 && e[..|d|] == d
    && e[|d|].assignee == Some(winner) && e[|d|].createdAt == now && e[|d|].status.Open?
  }

  lemma WinnersStep(db: Db, run: seq<Timed>, team: TeamId, strategy: Strategy)
    requires run != []
    ensures Winners(db, run, team, strategy) ==
      (if TeamCreation(db, run[0], team, strategy) then [Winner(db, run[0])] else [])
      + Winners(Apply(db, run[0]), run[1..], team, strategy)
    ensures CreationTimes(db, run, team, strategy) ==
      (if TeamCreation(db, run[0], team, strategy) then [run[0].now] else [])
      + CreationTimes(Apply(db, run[0]), run[1..], team, strategy)
  {
  }

  // ---------- Longest ago first ----------

  lemma LastSame(a: seq<Ticket>, b: seq<Ticket>, x: AgentId)
    requires |a| <= |b|
    requires forall i :: 0 <= i < |a| ==> b[i].assignee == a[i].assignee && b[i].createdAt == a[i].createdAt
    requires forall i :: |a| <= i < |b| ==> b[i].assignee != Some(x)
    ensures LastAssigned(b, x) == LastAssigned(a, x)
  {
    var la, lb := LastCreated(a, x), LastCreated(b, x);
    if la.Some? {
      var i :| 0 <= i < |a| && a[i].assignee == Some(x) && a[i].createdAt == la.value;
      assert b[i].assignee == Some(x);
    }
    if lb.Some? {
      var i :| 0 <= i < |b| && b[i].assignee == Some(x) && b[i].createdAt == lb.value;
      assert a[i].assignee == Some(x);
    }
  }

  lemma LastGrows(d: seq<Ticket>, e: seq<Ticket>, x: AgentId, now: int)
    requires |e| == |d| + 1 && e[..|d|] == d && e[|d|].createdAt == now
    requires forall i :: 0 <= i < |d| ==> d[i].createdAt < now
    ensures e[|d|].assignee == Some(x) ==> LastAssigned(e, x) == now
    ensures e[|d|].assignee != Some(x) ==> LastAssigned(e, x) == LastAssigned(d, x)
  {
    assert forall i :: 0 <= i < |d| ==> e[i] == d[i];
    if e[|d|].assignee != Some(x) {
      LastSame(d, e, x);
    }
  }

  function LastMap(tickets: seq<Ticket>, members: set<AgentId>): map<AgentId, int> {
    map a | a in members :: LastAssigned(tickets, a)
  }

  /** Throughout the run the team's active members are the given ones, creations happen at
      strictly later times than anything before, and other steps are quiet. */
  ghost predicate Rotation(db: Db, run: seq<Timed>, team: TeamId, members: set<AgentId>)
    decreases |run|
  {
    run == [] ||
    (&& MembersOf(db.dir, team) == members
     && (if TeamCreation(db, run[0], team, RoundRobin) then db.clock < run[0].now
         else Quiet(db.desk, Apply(db, run[0]).desk, members))
     && Rotation(Apply(db, run[0]), run[1..], team, members))
  }

  lemma RotationStep(db: Db, ts: Timed, team: TeamId, members: set<AgentId>)
    requires Inv(db) && Legal(db, ts) && MembersOf(db.dir, team) == members && members != {}
    requires if TeamCreation(db, ts, team, RoundRobin) then db.clock < ts.now
             else Quiet(db.desk, Apply(db, ts).desk, members)
    ensures var last, after := LastMap(db.desk.tickets, members), LastMap(Apply(db, ts).desk.tickets, members);
      if TeamCreation(db, ts, team, RoundRobin)
      then IsMin(last, Winner(db, ts)) && (forall a | a in last :: last[a] < ts.now) && after == last[Winner(db, ts) := ts.now]
      else after == last
  {
    if TeamCreation(db, ts, team, RoundRobin) {
      EarlierTickets(db);
      RotationCreates(db, ts, team, members);
    } else {
      QuietKeepsLast(db.desk.tickets, Apply(db, ts).desk.tickets, members);
    }
  }

  lemma RotationCreates(db: Db, ts: Timed, team: TeamId, members: set<AgentId>)
    requires Legal(db, ts) && TeamCreation(db, ts, team, RoundRobin) && MembersOf(db.dir, team) == members && members != {}
    requires 0 < db.clock < ts.now && forall i :: 0 <= i < |db.desk.tickets| ==> db.desk.tickets[i].createdAt <= db.clock
    ensures var last, after := LastMap(db.desk.tickets, members), LastMap(Apply(db, ts).desk.tickets, members);
      IsMin(last, Winner(db, ts)) && (forall a | a in last :: last[a] < ts.now) && after == last[Winner(db, ts) := ts.now]
  {
    WinnerIsMin(db, ts, team, RoundRobin);
    CreationAddsWinner(db, ts, team, RoundRobin);
    WinnerIsLast(db.desk.tickets, Apply(db, ts).desk.tickets, members, Winner(db, ts), db.clock, ts.now);
  }

  lemma QuietKeepsLast(d: seq<Ticket>, e: seq<Ticket>, members: set<AgentId>)
    requires |d| <= |e|
    requires forall i :: 0 <= i < |d| ==> e[i].assignee == d[i].assignee && e[i].createdAt == d[i].createdAt
    requires forall i :: |d| <= i < |e| ==> forall a | a in members :: e[i].assignee != Some(a)
    ensures LastMap(e, members) == LastMap(d, members)
  {
    forall a | a in members
      ensures LastAssigned(e, a) == LastAssigned(d, a)
    {
      LastSame(d, e, a);
    }
  }

  lemma EarlierTickets(db: Db)
    requires Inv(db)
    ensures forall i :: 0 <= i < |db.desk.tickets| ==> db.desk.tickets[i].createdAt <= db.clock
    ensures 0 < db.clock
  {
    assert forall i :: 0 <= i < |db.desk.tickets| ==> TicketTimes(db.desk.tickets[i], db.clock);
  }

  lemma WinnerIsLast(d: seq<Ticket>, e: seq<Ticket>, members: set<AgentId>, winner: AgentId, clock: int, now: int)
    requires AddsWinner(d, e, winner, now) && winner in members && 0 < clock < now
    requires forall i :: 0 <= i < |d| ==> d[i].createdAt <= clock
    ensures LastMap(e, members) == LastMap(d, members)[winner := now]
    ensures forall a | a in members :: LastMap(d, members)[a] < now
  {
    forall a | a in members
      ensures LastAssigned(e, a) == if a == winner then now else LastAssigned(d, a)
      ensures LastAssigned(d, a) < now
    {
      LastGrows(d, e, a, now);
    }
  }

  lemma {:induction false} RunIsRota(db: Db, run: seq<Timed>, team: TeamId, members: set<AgentId>)
    requires Inv(db) && LegalRun(db, run) && Rotation(db, run, team, members) && members != {}
    ensures RotaRun(LastMap(db.desk.tickets, members), Winners(db, run, team, RoundRobin), CreationTimes(db, run, team, RoundRobin))
    decreases |run|
  {
    if run != [] {
      var after, rest := Apply(db, run[0]), run[1..];
      RotationStep(db, run[0], team, members);
      StepKeepsInv(db, run[0]);
      RunIsRota(after, rest, team, members);
      WinnersStep(db, run, team, RoundRobin);
      var w, t := Winners(after, rest, team, RoundRobin), CreationTimes(after, rest, team, RoundRobin);
      if TeamCreation(db, run[0], team, RoundRobin) {
        RotaCons(LastMap(db.desk.tickets, members), Winner(db, run[0]), run[0].now, w, t);
      } else {
        assert [] + w == w && [] + t == t;
      }
    }
  }

  /** From any history, with n fixed active members and in whatever order the database lists them:
      any n consecutive creations go to n distinct agents, and after k creations every member has
      received k/n of them, rounded down or up. */
  lemma RoundRobinIsFair(db: Db, run: seq<Timed>, team: TeamId, members: set<AgentId>)
    requires Inv(db) && LegalRun(db, run) && Rotation(db, run, team, members) && members != {}
    ensures var w := Winners(db, run, team, RoundRobin);
      && (forall i, j :: 0 <= i < j < |w| && j < i + |members| ==> w[i] != w[j])
      && (forall k: nat, a :: k <= |w| && a in members ==> Share(Occurrences(w[..k], a), k, |members|))
  {
    RunIsRota(db, run, team, members);
    var last, w, times := LastMap(db.desk.tickets, members), Winners(db, run, team, RoundRobin), CreationTimes(db, run, team, RoundRobin);
    assert last.Keys == members && |last| == |members|;
    forall i, j | 0 <= i < j < |w| && j < i + |members|
      ensures w[i] != w[j]
    {
      WindowDistinct(last, w, times, i, j);
    }
    forall k: nat, a | k <= |w| && a in members
      ensures Share(Occurrences(w[..k], a), k, |members|)
    {
      RotaIsFair(last, w, times, k, a);
    }
  }

  // ---------- Fewest tickets first ----------

  function LoadMap(tickets: seq<Ticket>, members: set<AgentId>): map<AgentId, int> {
    map a | a in members :: Load(tickets, a)
  }

  /** Steps other than creations leave every member's load as it was. */
  ghost predicate CreationsOnly(db: Db, run: seq<Timed>, team: TeamId, members: set<AgentId>)
    decreases |run|
  {
    run == [] ||
    (&& MembersOf(db.dir, team) == members
     && (TeamCreation(db, run[0], team, LeastBusy)
         || LoadMap(Apply(db, run[0]).desk.tickets, members) == LoadMap(db.desk.tickets, members))
     && CreationsOnly(Apply(db, run[0]), run[1..], team, members))
  }

  lemma LoadGrows(d: seq<Ticket>, e: seq<Ticket>, a: AgentId)
    requires |e| == |d| + 1 && e[..|d|] == d && e[|d|].status.Open?
    ensures Load(e, a) == Load(d, a) + if e[|d|].assignee == Some(a) then 1 else 0
  {
    assert forall i :: 0 <= i < |d| ==> e[i] == d[i];
    assert LoadFlags(e, a) == LoadFlags(d, a) + [e[|d|].assignee == Some(a)];
    CountAppend(LoadFlags(d, a), e[|d|].assignee == Some(a));
  }

  /** One creation, as the members' loads see it. */
  ghost predicate LoadGained(d: seq<Ticket>, e: seq<Ticket>, members: set<AgentId>, winner: AgentId) {
    && IsMin(LoadMap(d, members), winner)
    && LoadMap(e, members) == LoadMap(d, members)[winner := LoadMap(d, members)[winner] + 1]
  }

  lemma {:induction false} RunIsLoadRun(db: Db, run: seq<Timed>, team: TeamId, members: set<AgentId>)
    requires LegalRun(db, run) && CreationsOnly(db, run, team, members) && members != {}
    ensures LoadsFollow(LoadMap(db.desk.tickets, members), Winners(db, run, team, LeastBusy),
                        LoadMap(Exec(db, run).desk.tickets, members))
    decreases |run|
  {
    if run != [] {
      var after, rest := Apply(db, run[0]), run[1..];
      RunIsLoadRun(after, rest, team, members);
      WinnersStep(db, run, team, LeastBusy);
      var w := Winners(after, rest, team, LeastBusy);
      if TeamCreation(db, run[0], team, LeastBusy) {
        LoadStep(db, run[0], team, members);
        LoadsFollowCons(db.desk.tickets, after.desk.tickets, members, Winner(db, run[0]), w,
                        LoadMap(Exec(after, rest).desk.tickets, members));
      } else {
        assert [] + w == w;
      }
    }
  }

  ghost predicate LoadsFollow(load: map<AgentId, int>, picks: seq<AgentId>, result: map<AgentId, int>) {
    LoadRun(load, picks) && LoadAfter(load, picks) == result
  }

  lemma LoadsFollowCons(d: seq<Ticket>, e: seq<Ticket>, members: set<AgentId>, winner: AgentId, picks: seq<AgentId>,
                        result: map<AgentId, int>)
    requires LoadGained(d, e, members, winner) && LoadsFollow(LoadMap(e, members), picks, result)
    ensures LoadsFollow(LoadMap(d, members), [winner] + picks, result)
  {
    LoadCons(LoadMap(d, members), winner, picks);
  }

  lemma LoadStep(db: Db, ts: Timed, team: TeamId, members: set<AgentId>)
    requires Legal(db, ts) && TeamCreation(db, ts, team, LeastBusy) && MembersOf(db.dir, team) == members
    requires members != {}
    ensures LoadGained(db.desk.tickets, Apply(db, ts).desk.tickets, members, Winner(db, ts))
  {
    WinnerIsMin(db, ts, team, LeastBusy);
    CreationAddsWinner(db, ts, team, LeastBusy);
    WinnerGains(db.desk.tickets, Apply(db, ts).desk.tickets, members, Winner(db, ts), ts.now);
  }

  lemma LoadsAfter(d: seq<Ticket>, e: seq<Ticket>, members: set<AgentId>, winner: AgentId, now: int)
    requires AddsWinner(d, e, winner, now)
    ensures forall a | a in members :: LoadMap(e, members)[a] == LoadMap(d, members)[a] + if a == winner then 1 else 0
  {
    forall a | a in members
      ensures LoadMap(e, members)[a] == LoadMap(d, members)[a] + if a == winner then 1 else 0
    {
      LoadGrows(d, e, a);
    }
  }

  lemma OneGained(load: map<AgentId, int>, after: map<AgentId, int>, winner: AgentId)
    requires winner in load && load.Keys == after.Keys
    requires forall a | a in load :: after[a] == load[a] + if a == winner then 1 else 0
    ensures after == load[winner := load[winner] + 1]
  {
  }

  lemma WinnerGains(d: seq<Ticket>, e: seq<Ticket>, members: set<AgentId>, winner: AgentId, now: int)
    requires AddsWinner(d, e, winner, now) && winner in members
    requires forall b | b in members :: Load(d, winner) <= Load(d, b)
    ensures LoadGained(d, e, members, winner)
  {
    LoadsAfter(d, e, members, winner, now);
    OneGained(LoadMap(d, members), LoadMap(e, members), winner);
  }

  /** Over runs of creations the loads never spread further than they did, or than one; and once
      there have been as many creations as the members were, together, below the highest load, no
      two loads differ by more than one. */
  lemma LeastBusyBalances(db: Db, run: seq<Timed>, team: TeamId, members: set<AgentId>, order: seq<AgentId>,
                          gap: int, level: int)
    requires LegalRun(db, run) && CreationsOnly(db, run, team, members) && members != {}
    requires 1 <= gap && Spread(LoadMap(db.desk.tickets, members), gap)
    requires ListsLoads(order, LoadMap(db.desk.tickets, members))
    requires forall a | a in members :: Load(db.desk.tickets, a) <= level
    ensures Spread(LoadMap(Exec(db, run).desk.tickets, members), gap)
    ensures Deficit(order, LoadMap(db.desk.tickets, members), level) <= |Winners(db, run, team, LeastBusy)| ==>
      Spread(LoadMap(Exec(db, run).desk.tickets, members), 1)
  {
    RunIsLoadRun(db, run, team, members);
    var load, w := LoadMap(db.desk.tickets, members), Winners(db, run, team, LeastBusy);
    SpreadStays(load, w, gap);
    if Deficit(order, load, level) <= |w| {
      LoadsEvenOut(load, w, order, level);
    }
  }
}
