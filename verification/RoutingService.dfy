/** Assignment of new tickets, computed as the service computes it: group, fill a map, take the
    first of the sorted entries. */
module RoutingServices {
  import opened Types
  import opened DirectorySpec
  import opened RoutingSpec
  import opened Storage

  /** The rows of the load query: agents without an open ticket have none. */
  ghost predicate IsLoadRows(tickets: seq<Ticket>, members: seq<AgentId>, rows: seq<(AgentId, int)>) {
    && (forall i :: 0 <= i < |rows| ==> rows[i].0 in members && rows[i].1 == Load(tickets, rows[i].0))
    && (forall a | a in members :: 0 < Load(tickets, a) ==> exists i :: 0 <= i < |rows| && rows[i].0 == a)
  }

  /** The rows of the last-assigned query: agents without a ticket have none. */
  ghost predicate IsLastRows(tickets: seq<Ticket>, members: seq<AgentId>, rows: seq<(AgentId, int)>) {
    && (forall i :: 0 <= i < |rows| ==> rows[i].0 in members && LastCreated(tickets, rows[i].0) == Some(rows[i].1))
    && (forall a | a in members :: LastCreated(tickets, a).Some? ==> exists i :: 0 <= i < |rows| && rows[i].0 == a)
  }

  /** Zero for every member, then one entry overwritten per row. */
  method Filled(members: seq<AgentId>, rows: seq<(AgentId, int)>, ghost key: map<AgentId, int>)
    returns (filled: map<AgentId, int>)
    requires key.Keys == set a | a in members
    requires forall i :: 0 <= i < |rows| ==> rows[i].0 in members && rows[i].1 == key[rows[i].0]
    requires forall a | a in members :: key[a] != 0 ==> exists i :: 0 <= i < |rows| && rows[i].0 == a
    ensures filled == key
  {
    filled := map a | a in members :: 0;
    for i := 0 to |rows|
      invariant filled.Keys == key.Keys
      invariant forall a | a in members :: filled[a] == key[a] || filled[a] == 0
      invariant forall j :: 0 <= j < i ==> filled[rows[j].0] == key[rows[j].0]
    {
      filled := filled[rows[i].0 := rows[i].1];
    }
  }

  /** The first of the entries after a stable sort by value. */
  method FirstSmallest(members: seq<AgentId>, key: map<AgentId, int>) returns (a: AgentId)
    requires members != []
    requires forall i :: 0 <= i < |members| ==> members[i] in key
    ensures IsFirstMin(members, key, a) && a == FirstMin(members, key)
  {
    a := members[0];
    ghost var at := 0;
    for n := 1 to |members|
      invariant 0 <= at < n && members[at] == a
      invariant forall j :: 0 <= j < n ==> key[a] <= key[members[j]]
      invariant forall j :: 0 <= j < at ==> key[a] < key[members[j]]
    {
      if key[members[n]] < key[a] {
        a, at := members[n], n;
      }
    }
    FirstMinUnique(members, key, a, FirstMin(members, key));
  }

  class RoutingService {
    const db: Database

    constructor (db: Database)
      ensures this.db == db
    {
      this.db := db;
    }

    /** The load query's answer, agents in any order. */
    method GroupLoads(members: seq<AgentId>) returns (rows: seq<(AgentId, int)>)
      ensures IsLoadRows(db.tickets, members, rows)
    {
      var tickets := db.tickets;
      var order := ListOf(set a | a in members && 0 < Load(tickets, a));
      rows := seq(|order|, i requires 0 <= i < |order| => (order[i], Load(tickets, order[i])));
      forall a | a in members && 0 < Load(tickets, a)
        ensures exists i :: 0 <= i < |rows| && rows[i].0 == a
      {
        assert a in order;
        var i :| 0 <= i < |order| && order[i] == a;
        assert rows[i].0 == a;
      }
    }

    method GroupLastAssigned(members: seq<AgentId>) returns (rows: seq<(AgentId, int)>)
      ensures IsLastRows(db.tickets, members, rows)
    {
      var tickets := db.tickets;
      var order := ListOf(set a | a in members && LastCreated(tickets, a).Some?);
      rows := seq(|order|, i requires 0 <= i < |order| => (order[i], LastAssigned(tickets, order[i])));
      forall a | a in members && LastCreated(tickets, a).Some?
        ensures exists i :: 0 <= i < |rows| && rows[i].0 == a
      {
        assert a in order;
        var i :| 0 <= i < |order| && order[i] == a;
        assert rows[i].0 == a;
      }
    }

    /** The chosen agent is the first minimum of the true loads, or of the true last assignments,
        in the order the database listed the members. */
    method DecideAssignment(chat: Chat) returns (assignee: Option<AgentId>, ghost order: seq<AgentId>)
      ensures IsRoutingOrder(db.DirNow(), chat, order)
      ensures assignee == AssigneeFor(db.tickets, chat, order)
      ensures chat.strategy.Manual? || chat.team.None? ==> assignee == chat.assignee
      ensures !chat.strategy.Manual? && chat.team.Some? ==>
        if exists a :: IsActiveMember(db.DirNow(), chat.team.value, a)
        then assignee.Some? && IsBest(db.DirNow(), db.tickets, chat.team.value, chat.strategy, assignee.value)
        else assignee == chat.assignee
    {
      assignee, order := DecideInOrder(chat);
      if !chat.strategy.Manual? && chat.team.Some? {
        ChosenIsBest(db.DirNow(), db.tickets, chat, order);
      }
    }

    method DecideInOrder(chat: Chat) returns (assignee: Option<AgentId>, ghost order: seq<AgentId>)
      ensures IsRoutingOrder(db.DirNow(), chat, order)
      ensures assignee == AssigneeFor(db.tickets, chat, order)
    {
      if chat.strategy.Manual? || chat.team.None? {
        order := [];
        if chat.team.Some? {
          order := AnyMemberOrder(db.DirNow(), chat.team.value);
        }
        return chat.assignee, order;
      }
      var members := db.ListActiveMembers(chat.team.value);
      order := members;
      if |members| == 0 {
        return chat.assignee, order;
      }
      if chat.strategy.LeastBusy? {
        var openCounts := GroupLoads(members);
        var countByAgent := Filled(members, openCounts, LoadKey(db.tickets, members));
        var leastBusy := FirstSmallest(members, countByAgent);
        return Some(leastBusy), order;
      }
      var lastAssigned := GroupLastAssigned(members);
      var lastAssignedAt := Filled(members, lastAssigned, LastKey(db.tickets, members));
      var next := FirstSmallest(members, lastAssignedAt);
      return Some(next), order;
    }
  }

  /** An active member of the team whom no colleague undercuts: in open tickets, or in the
      creation time of the latest ticket held. */
  ghost predicate IsBest(dir: Directory, tickets: seq<Ticket>, team: TeamId, strategy: Strategy, a: AgentId) {
    && IsActiveMember(dir, team, a)
    && forall b :: IsActiveMember(dir, team, b) ==>
         if strategy.LeastBusy? then Load(tickets, a) <= Load(tickets, b) else LastAssigned(tickets, a) <= LastAssigned(tickets, b)
  }

  lemma ChosenIsBest(dir: Directory, tickets: seq<Ticket>, chat: Chat, order: seq<AgentId>)
    requires !chat.strategy.Manual? && chat.team.Some? && IsMemberOrder(dir, chat.team.value, order)
    ensures var assignee := AssigneeFor(tickets, chat, order);
      if exists a :: IsActiveMember(dir, chat.team.value, a)
      then assignee.Some? && IsBest(dir, tickets, chat.team.value, chat.strategy, assignee.value)
      else assignee == chat.assignee
  {
    var team := chat.team.value;
    forall b | IsActiveMember(dir, team, b)
      ensures b in order
    {
      assert (team, b) in dir.members && (team, b).0 == team && (team, b).1 == b;
    }
    if order != [] {
      assert IsActiveMember(dir, team, order[0]);
      var key := if chat.strategy.LeastBusy? then LoadKey(tickets, order) else LastKey(tickets, order);
      var a := FirstMin(order, key);
      forall b | IsActiveMember(dir, team, b)
        ensures key[a] <= key[b]
      {
        assert b in order;
      }
    }
  }

  lemma AnyMemberOrder(dir: Directory, team: TeamId) returns (order: seq<AgentId>)
    ensures IsMemberOrder(dir, team, order)
  {
    order := [];
    var rest := set m | m in dir.members && m.0 == team && m.1 < |dir.agents| && dir.agents[m.1].isActive :: m.1;
    ghost var all := rest;
    while rest != {}
      invariant rest <= all && Lists(all - rest, order)
      decreases |rest|
    {
      var a :| a in rest;
      order := order + [a];
      rest := rest - {a};
    }
    assert all - rest == all;
    forall m | m in dir.members && m.0 == team && IsActiveMember(dir, team, m.1)
      ensures m.1 in order
    {
      assert m == (team, m.1) && m.1 in all;
    }
    forall i | 0 <= i < |order|
      ensures IsActiveMember(dir, team, order[i])
    {
      assert order[i] in all;
      var m :| m in dir.members && m.0 == team && m.1 == order[i] && m.1 < |dir.agents| && dir.agents[m.1].isActive;
      assert m == (team, order[i]);
    }
  }
}
