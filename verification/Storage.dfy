/** The database the services share: its tables as fields, the answers its queries may give, and
    the abstract state the properties speak of. */
module Storage {
  import opened Types
  import opened DirectorySpec
  import opened ThreadGrouping
  import opened DeskSpec
  import opened AnalyticsSpec

  datatype Result<+T> = Ok(value: T) | Err(error: Error)

  // ---------- Query answers ----------

  /** `pick` has the latest time among the flagged rows, if any is flagged. */
  ghost predicate IsLatest(flags: seq<bool>, times: seq<int>, pick: Option<nat>)
    requires |flags| == |times|
  {
    if pick.Some? then
      && pick.value < |flags| && flags[pick.value]
      && forall n :: 0 <= n < |flags| && flags[n] ==> times[n] <= times[pick.value]
    else forall n :: 0 <= n < |flags| ==> !flags[n]
  }

  /** The first row of a query ordered by a time, latest first; ties fall either way. */
  method LatestWhere(flags: seq<bool>, times: seq<int>) returns (pick: Option<nat>)
    requires |flags| == |times|
    ensures IsLatest(flags, times, pick)
  {
    pick := None;
    for n := 0 to |flags|
      invariant IsLatest(flags[..n], times[..n], pick)
    {
      if flags[n] {
        if pick.None? || times[pick.value] < times[n] {
          pick := Some(n);
        } else if times[pick.value] == times[n] {
          if * {
            pick := Some(n);
          }
        }
      }
    }
    assert flags[..|flags|] == flags && times[..|times|] == times;
  }

  ghost predicate Lists<T>(s: set<T>, order: seq<T>) {
    && (forall i, j :: 0 <= i < j < |order| ==> order[i] != order[j])
    && (forall i :: 0 <= i < |order| ==> order[i] in s)
    && (forall x | x in s :: x in order)
  }

  /** The rows of a query without an order, in whatever order they come. */
  method ListOf<T(==)>(s: set<T>) returns (order: seq<T>)
    ensures Lists(s, order)
  {
    order := [];
    var rest := s;
    while rest != {}
      invariant rest <= s && Lists(s - rest, order)
      decreases |rest|
    {
      var x :| x in rest;
      order := order + [x];
      rest := rest - {x};
    }
    assert s - rest == s;
  }

  // ---------- The tables ----------

  class Database {
    const idleMinutes: int
    var agents: seq<Agent>
    var teamCount: nat
    var members: set<(TeamId, AgentId)>
    var labelCount: nat
    var groupCount: nat
    var excluded: map<ExcludedId, Excluded>
    var nextExcluded: ExcludedId
    var chats: seq<Chat>
    var customers: seq<Customer>
    var tickets: seq<Ticket>
    var messages: seq<Message>
    var events: seq<Event>
    var outbox: seq<Job>
    var stats: map<(ChatId, int), Stats>
    ghost var past: History
    ghost var days: set<int>
    ghost var seen: map<(ChatId, int), seq<Ticket>>

    constructor (idleMinutes: int)
      ensures this.idleMinutes == idleMinutes
      ensures DirNow() == Directory(idleMinutes, [], 0, {}, 0, map[], 0, [], [], 0)
      ensures DeskNow() == Desk([], [], [], [], History([], map[], {}, {}, map[]))
      ensures RollupNow() == Rollup(map[], {}, map[])
    {
      this.idleMinutes := idleMinutes;
      agents, teamCount, members, labelCount, groupCount := [], 0, {}, 0, 0;
      excluded, nextExcluded, chats, customers := map[], 0, [], [];
      tickets, messages, events, outbox, past := [], [], [], [], History([], map[], {}, {}, map[]);
      stats, days, seen := map[], {}, map[];
    }

    ghost function DirNow(): Directory
      reads this
    {
      Directory(idleMinutes, agents, teamCount, members, labelCount, excluded, nextExcluded, chats, customers, groupCount)
    }

    ghost function DeskNow(): Desk
      reads this
    {
      Desk(tickets, messages, events, outbox, past)
    }

    ghost function RollupNow(): Rollup
      reads this
    {
      Rollup(stats, days, seen)
    }

    // ---------- Lookups ----------

    /** The latest message of the chat with the given Telegram id. */
    method FindTicketByAnchorMessage(chat: ChatId, tg: int) returns (pick: Option<MessageId>)
      ensures IsAnchorPick(DeskNow(), chat, Some(tg), pick)
    {
      var rows, owners := messages, tickets;
      var flags := seq(|rows|, m requires 0 <= m < |rows| =>
        rows[m].tgId == Some(tg) && rows[m].ticket < |owners| && owners[rows[m].ticket].chat == chat);
      pick := LatestWhere(flags, seq(|rows|, m requires 0 <= m < |rows| => rows[m].createdAt));
      assert forall m: MessageId | m < |messages| :: flags[m] <==> Carries(DeskNow(), chat, tg, m);
    }

    /** The customer's most recently updated ticket of the chat that is not closed or archived. */
    method FindMostRecentActiveTicket(chat: ChatId, customer: CustomerId) returns (pick: Option<TicketId>)
      ensures IsActivePick(DeskNow(), chat, customer, pick)
    {
      var rows := tickets;
      var flags := seq(|rows|, t requires 0 <= t < |rows| =>
        rows[t].chat == chat && rows[t].customer == customer && !rows[t].status.Terminal());
      pick := LatestWhere(flags, seq(|rows|, t requires 0 <= t < |rows| => rows[t].updatedAt));
      assert forall t: TicketId | t < |tickets| :: flags[t] <==> Candidate(DeskNow(), chat, customer, t);
    }

    method FindLatestMessage(t: TicketId) returns (pick: Option<MessageId>)
      ensures IsLatestPick(DeskNow(), t, pick)
    {
      var rows := messages;
      var flags := seq(|rows|, m requires 0 <= m < |rows| => rows[m].ticket == t);
      pick := LatestWhere(flags, seq(|rows|, m requires 0 <= m < |rows| => rows[m].createdAt));
      assert forall m :: 0 <= m < |messages| ==> flags[m] == (messages[m].ticket == t);
    }

    /** An active record that knows only the username. */
    method FindExcludedByUsername(username: string) returns (pick: Option<ExcludedId>)
      requires username != ""
      ensures IsUsernamePick(excluded, Some(username), pick)
    {
      pick := None;
      var rest := excluded.Keys;
      while rest != {} && pick.None?
        invariant rest <= excluded.Keys
        invariant pick.Some? ==> NamesOnly(excluded, username, pick.value)
        invariant pick.None? ==> forall e | e in excluded :: e !in rest ==> !NamesOnly(excluded, username, e)
        decreases |rest|
      {
        var e :| e in rest;
        rest := rest - {e};
        if NamesOnly(excluded, username, e) {
          pick := Some(e);
        }
      }
    }

    /** The active members of a team. */
    method ListActiveMembers(team: TeamId) returns (order: seq<AgentId>)
      ensures IsMemberOrder(DirNow(), team, order)
    {
      var joined := set m | m in members && m.0 == team && m.1 < |agents| && agents[m.1].isActive;
      var pairs := ListOf(joined);
      order := seq(|pairs|, i requires 0 <= i < |pairs| => pairs[i].1);
      forall i | 0 <= i < |order|
        ensures IsActiveMember(DirNow(), team, order[i]) && pairs[i] == (team, order[i])
      {
        assert pairs[i] in joined;
      }
      forall m | m in members && m.0 == team && IsActiveMember(DirNow(), team, m.1)
        ensures m.1 in order
      {
        assert m == (team, m.1) && m in joined && m in pairs;
        var i :| 0 <= i < |pairs| && pairs[i] == m;
        assert order[i] == m.1;
      }
    }
  }
}
