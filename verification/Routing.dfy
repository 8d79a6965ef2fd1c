/** Which agent a new ticket of a chat is given to. */
module RoutingSpec {
  import opened Types
  import opened DirectorySpec
  import opened Counting

  // ---------- What the two aggregate queries return ----------

  function LoadFlags(tickets: seq<Ticket>, a: AgentId): (flags: seq<bool>)
    ensures |flags| == |tickets|
    ensures forall i :: 0 <= i < |tickets| ==>
      flags[i] == (tickets[i].assignee == Some(a) && tickets[i].status.Live())
  {
    seq(|tickets|, i requires 0 <= i < |tickets| =>
      tickets[i].assignee == Some(a) && tickets[i].status.Live())
  }

  /** How many unresolved tickets the agent holds. */
  function Load(tickets: seq<Ticket>, a: AgentId): nat {
    Count(LoadFlags(tickets, a))
  }

  /** When the latest ticket assigned to the agent was created, if there is one. */
  function LastCreated(tickets: seq<Ticket>, a: AgentId): (r: Option<int>)
    ensures r.None? <==> forall i :: 0 <= i < |tickets| ==> tickets[i].assignee != Some(a)
    ensures r.Some? ==> exists i :: 0 <= i < |tickets| && tickets[i].assignee == Some(a) && tickets[i].createdAt == r.value
    ensures forall i :: 0 <= i < |tickets| && tickets[i].assignee == Some(a) ==> r.Some? && tickets[i].createdAt <= r.value
  {
    if tickets == [] then None
    else
      var n := |tickets| - 1;
      var rest := LastCreated(tickets[..n], a);
      if tickets[n].assignee != Some(a) then rest
      else if rest.Some? && rest.value > tickets[n].createdAt then rest
      else Some(tickets[n].createdAt)
  }

  /** Never assigned counts as the epoch. */
  function LastAssigned(tickets: seq<Ticket>, a: AgentId): int {
    var last := LastCreated(tickets, a);
    if last.Some? then last.value else 0
  }

  // ---------- First minimum in member order ----------

  predicate IsFirstMin(order: seq<AgentId>, key: map<AgentId, int>, a: AgentId)
    requires forall i :: 0 <= i < |order| ==> order[i] in key
  {
    exists i :: 0 <= i < |order| && order[i] == a
      && (forall j :: 0 <= j < |order| ==> key[a] <= key[order[j]])
      && (forall j :: 0 <= j < i ==> key[a] < key[order[j]])
  }

  function FirstMin(order: seq<AgentId>, key: map<AgentId, int>): (a: AgentId)
    requires order != []
    requires forall i :: 0 <= i < |order| ==> order[i] in key
    ensures a in order && IsFirstMin(order, key, a)
  {
    var n := |order| - 1;
    if n == 0 then
      assert order[0] == order[n];
      order[0]
    else
      var best := FirstMin(order[..n], key);
      FirstMinStep(order, key, best);
      if key[order[n]] < key[best] then order[n] else best
  }

  lemma FirstMinStep(order: seq<AgentId>, key: map<AgentId, int>, best: AgentId)
    requires |order| > 1 && forall i :: 0 <= i < |order| ==> order[i] in key
    requires IsFirstMin(order[..|order| - 1], key, best)
    ensures best in key
    ensures var n := |order| - 1;
      var a := if key[order[n]] < key[best] then order[n] else best;
      a in order && IsFirstMin(order, key, a)
  {
    var n := |order| - 1;
    var rest := order[..n];
    var i :| 0 <= i < n && rest[i] == best && (forall j :: 0 <= j < n ==> key[best] <= key[rest[j]])
      && (forall j :: 0 <= j < i ==> key[best] < key[rest[j]]);
    assert order[i] == best;
    assert forall j :: 0 <= j < n ==> order[j] == rest[j];
    if key[order[n]] < key[best] {
      assert order[n] in order;
    }
  }

  lemma FirstMinUnique(order: seq<AgentId>, key: map<AgentId, int>, a: AgentId, b: AgentId)
    requires forall i :: 0 <= i < |order| ==> order[i] in key
    requires IsFirstMin(order, key, a) && IsFirstMin(order, key, b)
    ensures a == b
  {
  }

  function LoadKey(tickets: seq<Ticket>, order: seq<AgentId>): map<AgentId, int> {
    map a | a in order :: Load(tickets, a)
  }

  function LastKey(tickets: seq<Ticket>, order: seq<AgentId>): map<AgentId, int> {
    map a | a in order :: LastAssigned(tickets, a)
  }

  // ---------- The decision ----------

  /** `order` is the team's active members as the database listed them. */
  function AssigneeFor(tickets: seq<Ticket>, chat: Chat, order: seq<AgentId>): Option<AgentId> {
    if chat.strategy.Manual? || chat.team.None? || order == [] then chat.assignee
    else if chat.strategy.LeastBusy? then Some(FirstMin(order, LoadKey(tickets, order)))
    else Some(FirstMin(order, LastKey(tickets, order)))
  }

  predicate IsRoutingOrder(dir: Directory, chat: Chat, order: seq<AgentId>) {
    if chat.team.Some? then IsMemberOrder(dir, chat.team.value, order) else order == []
  }
}
