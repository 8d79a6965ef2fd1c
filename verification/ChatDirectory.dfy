/** The chat directory's backlog and total, summed from counts grouped by status. */
module ChatDirectory {
  import opened Types
  import opened Counting
  import opened Storage
  import opened AnalyticsServices

  function GroupFlags(tickets: seq<Ticket>, c: ChatId, statuses: set<Status>): (flags: seq<bool>)
    ensures |flags| == |tickets|
    ensures forall i :: 0 <= i < |flags| ==> flags[i] == (tickets[i].chat == c && tickets[i].status in statuses)
  {
    seq(|tickets|, i requires 0 <= i < |tickets| => tickets[i].chat == c && tickets[i].status in statuses)
  }

  function ChatFlags(tickets: seq<Ticket>, c: ChatId): (flags: seq<bool>)
    ensures |flags| == |tickets|
    ensures forall i :: 0 <= i < |flags| ==> flags[i] == (tickets[i].chat == c)
  {
    seq(|tickets|, i requires 0 <= i < |tickets| => tickets[i].chat == c)
  }

  lemma OneMoreStatus(tickets: seq<Ticket>, c: ChatId, statuses: set<Status>, s: Status)
    requires s !in statuses
    ensures Count(GroupFlags(tickets, c, statuses + {s})) ==
      Count(GroupFlags(tickets, c, statuses)) + Count(GroupFlags(tickets, c, {s}))
  {
    CountSplit(GroupFlags(tickets, c, statuses + {s}), GroupFlags(tickets, c, statuses), GroupFlags(tickets, c, {s}));
  }

  /** A group that is not listed has no ticket. */
  lemma EmptyGroup(tickets: seq<Ticket>, c: ChatId, s: Status, i: nat)
    requires Count(GroupFlags(tickets, c, {s})) == 0 && i < |tickets| && tickets[i].chat == c
    ensures tickets[i].status != s
  {
    var none := seq(|tickets|, k requires 0 <= k < |tickets| => false);
    CountNone(none);
    CountWeaker(none, GroupFlags(tickets, c, {s}));
    assert GroupFlags(tickets, c, {s})[i] == none[i];
  }

  lemma EveryStatus(s: Status)
    ensures s in {Open, Pending, OnHold, Solved, Closed, Archived}
  {
    match s
    case Open =>
    case Pending =>
    case OnHold =>
    case Solved =>
    case Closed =>
    case Archived =>
  }

  class ChatDirectoryService {
    const db: Database

    constructor (db: Database)
      ensures this.db == db
    {
      this.db := db;
    }

    /** The counts of the chat's tickets by status; statuses without tickets have no row. */
    method GroupByStatus(c: ChatId) returns (rows: seq<(Status, nat)>)
      ensures forall i, j :: 0 <= i < j < |rows| ==> rows[i].0 != rows[j].0
      ensures forall i :: 0 <= i < |rows| ==> rows[i].1 == Count(GroupFlags(db.tickets, c, {rows[i].0}))
      ensures forall s: Status :: (forall i :: 0 <= i < |rows| ==> rows[i].0 != s) ==> Count(GroupFlags(db.tickets, c, {s})) == 0
    {
      var tickets := db.tickets;
      var all := {Open, Pending, OnHold, Solved, Closed, Archived};
      var statuses := ListOf(set s | s in all && Count(GroupFlags(tickets, c, {s})) > 0);
      rows := seq(|statuses|, i requires 0 <= i < |statuses| => (statuses[i], Count(GroupFlags(tickets, c, {statuses[i]}))));
      forall s: Status | Count(GroupFlags(tickets, c, {s})) > 0
        ensures exists i :: 0 <= i < |rows| && rows[i].0 == s
      {
        EveryStatus(s);
        assert s in statuses;
        var i :| 0 <= i < |statuses| && statuses[i] == s;
        assert rows[i].0 == s;
      }
    }

    /** What the directory shows is the true number of unresolved tickets and of all tickets. */
    method CountsOf(c: ChatId) returns (backlog: nat, total: nat)
      ensures backlog == Count(BacklogFlags(db.tickets, c))
      ensures total == Count(ChatFlags(db.tickets, c))
    {
      var stats := GroupByStatus(c);
      backlog, total := 0, 0;
      ghost var seen, live: set<Status>, tickets := {}, {}, db.tickets;
      CountNone(GroupFlags(tickets, c, {}));
      for i := 0 to |stats|
        invariant forall s :: s in seen <==> exists j :: 0 <= j < i && stats[j].0 == s
        invariant forall s :: s in live <==> s in seen && s.Live()
        invariant total == Count(GroupFlags(tickets, c, seen))
        invariant backlog == Count(GroupFlags(tickets, c, live))
      {
        OneMoreStatus(tickets, c, seen, stats[i].0);
        total := total + stats[i].1;
        seen := seen + {stats[i].0};
        if stats[i].0 != Closed && stats[i].0 != Solved && stats[i].0 != Archived {
          OneMoreStatus(tickets, c, live, stats[i].0);
          backlog := backlog + stats[i].1;
          live := live + {stats[i].0};
        }
      }
      forall i | 0 <= i < |tickets| && tickets[i].chat == c
        ensures tickets[i].status in seen
      {
        if tickets[i].status !in seen {
          EmptyGroup(tickets, c, tickets[i].status, i);
        }
      }
      assert GroupFlags(tickets, c, seen) == ChatFlags(tickets, c);
      assert GroupFlags(tickets, c, live) == BacklogFlags(tickets, c);
    }
  }
}
