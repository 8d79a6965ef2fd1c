/** Tickets: creation, patches, assignment, bulk actions and the paged list. */
module TicketServices {
  import opened Types
  import opened DeskSpec
  import opened Listings
  import opened ListingSpec
  import opened Engine
  import opened Storage

  datatype BulkAction = BulkAssign(agent: AgentId) | BulkClose | BulkLabel(id: LabelId)

  /** The patch or assignment a bulk action makes of one ticket, given its state: labels are
      added to those it has, in any order. */
  ghost predicate IsBulkStep(d: Desk, t: TicketId, action: BulkAction, author: AgentId, s: Step) {
    match action
    case BulkAssign(agent) => s == AssignTicket(t, agent, author, None)
    case BulkClose => s == PatchTicket(t, StatusOnly(Closed), author)
    case BulkLabel(l) =>
      && t < |d.tickets| && s.PatchTicket? && s.t == t && s.author == author
      && s.dto == PatchDto(None, None, Keep, Keep, s.dto.labels, Keep, Keep)
      && s.dto.labels.Some? && Lists(d.tickets[t].labels + {l}, s.dto.labels.value)
  }

  predicate StepOk(d: Desk, dir: Directory, s: Step) {
    match s
    case PatchTicket(t, dto, author) => PatchOk(d, dir, t, dto, Some(author))
    case AssignTicket(t, agent, author, _) => AssignOk(d, dir, t, agent, author)
    case _ => true
  }

  function AfterAll(dir: Directory, d: Desk, now: int, steps: seq<Step>): Desk {
    if steps == [] then d
    else StepDesk(dir, AfterAll(dir, d, now, steps[..|steps| - 1]), now, steps[|steps| - 1])
  }

  /** The steps carry the action out, ticket by ticket, each on the state the ones before left. */
  ghost predicate CarriesOut(dir: Directory, d: Desk, now: int, ids: seq<TicketId>, action: BulkAction, author: AgentId,
                             steps: seq<Step>)
  {
    && |steps| <= |ids|
    && forall i :: 0 <= i < |steps| ==>
         && IsBulkStep(AfterAll(dir, d, now, steps[..i]), ids[i], action, author, steps[i])
         && StepOk(AfterAll(dir, d, now, steps[..i]), dir, steps[i])
  }

  /** No step of the action can succeed on this ticket. */
  ghost predicate Refused(dir: Directory, d: Desk, t: TicketId, action: BulkAction, author: AgentId) {
    forall s: Step :: IsBulkStep(d, t, action, author, s) ==> !StepOk(d, dir, s)
  }

  function SelectedBy(chats: seq<Chat>, tickets: seq<Ticket>, q: Query): set<TicketId> {
    set t | 0 <= t < |tickets| && Selects(q, chats, tickets, t)
  }

  /** The given rows, most recently updated first. */
  method Ordered(tickets: seq<Ticket>, kept: set<TicketId>) returns (rows: seq<TicketId>)
    ensures IsListing(tickets, kept, rows)
  {
    rows := [];
    var rest := kept;
    while rest != {}
      invariant rest <= kept && IsListing(tickets, kept - rest, rows)
      decreases |rest|
    {
      var t :| t in rest;
      var k := 0;
      while k < |rows| && UpdateTime(tickets, rows[k]) > UpdateTime(tickets, t)
        invariant k <= |rows|
        invariant forall i :: 0 <= i < k ==> UpdateTime(tickets, rows[i]) > UpdateTime(tickets, t)
      {
        k := k + 1;
      }
      Inserted(tickets, kept - rest, rows, t, k);
      rows := InsertAt(rows, t, k);
      assert kept - rest + {t} == kept - (rest - {t});
      rest := rest - {t};
    }
    assert kept - rest == kept;
  }

  class TicketsService {
    const db: Database

    constructor (db: Database)
      ensures this.db == db
    {
      this.db := db;
    }

    method CreateForNewThread(chat: ChatId, customer: CustomerId, anchor: int, priority: Priority,
                              team: Option<TeamId>, assignee: Option<AgentId>, now: int)
      returns (t: TicketId)
      modifies db`tickets, db`past
      ensures t == |old(db.tickets)|
      ensures db.DeskNow() == Create(old(db.DeskNow()), NewTicket(chat, customer, anchor, priority, team, assignee, now))
    {
      t := |db.tickets|;
      var ticket := NewTicket(chat, customer, anchor, priority, team, assignee, now);
      db.tickets := db.tickets + [ticket];
      db.past := db.past.(born := db.past.born + [ticket]);
      if assignee.Some? {
        db.past := db.past.(given := db.past.given[assignee.value := now]);
      }
    }

    /** The row a patch would write, field by field. */
    method Changed(row: Ticket, dto: PatchDto, author: Option<AgentId>, now: int) returns (data: Ticket)
      ensures data == PatchedTicket(row, dto, author, now)
    {
      data := row;
      if dto.status.Some? {
        data := data.(status := dto.status.value);
      }
      if dto.priority.Some? {
        data := data.(priority := dto.priority.value);
      }
      data := data.(assignee := dto.assignee.Over(data.assignee), team := dto.team.Over(data.team));
      data := data.(snoozeUntil := dto.snooze.Over(data.snoozeUntil), jira := dto.jira.Over(data.jira));
      if dto.status == Some(Closed) {
        data := data.(closedAt := Some(now));
        if author.Some? {
          data := data.(closedBy := author);
        }
      }
      if dto.status == Some(Solved) {
        data := data.(resolvedAt := Some(now));
      }
      if dto.labels.Some? {
        data := data.(labels := set l | l in dto.labels.value);
      }
      data := data.(updatedAt := now);
    }

    /** Whether the database would accept the rows a patch refers to. */
    method Acceptable(dto: PatchDto, author: Option<AgentId>) returns (ok: bool)
      ensures ok <==>
        && (dto.assignee.Set? ==> dto.assignee.value < |db.agents|)
        && (dto.team.Set? ==> dto.team.value < db.teamCount)
        && (dto.labels.Some? ==> LabelsOk(db.DirNow(), dto.labels.value))
        && (author.Some? ==> author.value < |db.agents|)
    {
      if (dto.assignee.Set? && |db.agents| <= dto.assignee.value) || (dto.team.Set? && db.teamCount <= dto.team.value) {
        return false;
      }
      if dto.labels.Some? {
        var wanted := dto.labels.value;
        for i := 0 to |wanted|
          invariant forall k :: 0 <= k < i ==> wanted[k] < db.labelCount && wanted[k] !in wanted[..k]
        {
          if db.labelCount <= wanted[i] || wanted[i] in wanted[..i] {
            return false;
          }
        }
      }
      ok := author.Some? ==> author.value < |db.agents|;
    }

    /** Row, labels and log entry commit together or not at all. */
    method Patch(t: TicketId, dto: PatchDto, author: Option<AgentId>, now: int) returns (r: Result<Ticket>)
      modifies db`tickets, db`events, db`past
      ensures db.DeskNow() == DeskSpec.Patch(old(db.DeskNow()), db.DirNow(), t, dto, author, now)
      ensures r.Ok? <==> PatchOk(old(db.DeskNow()), db.DirNow(), t, dto, author)
      ensures r == Err(NotFound) <==> |old(db.tickets)| <= t
      ensures r.Ok? ==> t < |db.tickets| && r.value == db.tickets[t]
    {
      if |db.tickets| <= t {
        return Err(NotFound);
      }
      var data := Changed(db.tickets[t], dto, author, now);
      var accepted := Acceptable(dto, author);
      if !accepted {
        return Err(Rejected);
      }
      db.tickets := db.tickets[t := data];
      db.events := db.events + [Event(t, author, Updated(dto), now)];
      if dto.status.Some? {
        db.past := db.past.(unlogged := db.past.unlogged - {t});
      }
      if dto.assignee.Set? {
        db.past := db.past.(given := db.past.given[dto.assignee.value := now]);
      }
      return Ok(data);
    }

    method Assign(t: TicketId, agent: AgentId, author: AgentId, reason: Option<string>, now: int) returns (r: Result<Ticket>)
      modifies db`tickets, db`events, db`past
      ensures db.DeskNow() == DeskSpec.Assign(old(db.DeskNow()), db.DirNow(), t, agent, author, reason, now)
      ensures r.Ok? <==> AssignOk(old(db.DeskNow()), db.DirNow(), t, agent, author)
      ensures r == Err(NotFound) <==> |old(db.tickets)| <= t
      ensures r.Ok? ==> t < |db.tickets| && r.value == db.tickets[t]
    {
      if |db.tickets| <= t {
        return Err(NotFound);
      }
      var previous := db.tickets[t].assignee;
      if |db.agents| <= agent || |db.agents| <= author {
        return Err(Rejected);
      }
      db.tickets := db.tickets[t := db.tickets[t].(assignee := Some(agent), updatedAt := now)];
      db.events := db.events + [Event(t, Some(author), Assigned(agent, previous, reason), now)];
      db.past := db.past.(given := db.past.given[agent := now]);
      return Ok(db.tickets[t]);
    }

    method Close(t: TicketId, author: AgentId, now: int) returns (r: Result<Ticket>)
      modifies db`tickets, db`events, db`past
      ensures db.DeskNow() == DeskSpec.Patch(old(db.DeskNow()), db.DirNow(), t, StatusOnly(Closed), Some(author), now)
      ensures r.Ok? <==> t < |old(db.tickets)| && author < |db.agents|
      ensures r.Ok? ==> r.value == old(db.tickets)[t].(
        status := Closed, closedAt := Some(now), closedBy := Some(author), updatedAt := now)
    {
      r := Patch(t, StatusOnly(Closed), Some(author), now);
    }

    method Reopen(t: TicketId, author: AgentId, now: int) returns (r: Result<Ticket>)
      modifies db`tickets, db`events, db`past
      ensures db.DeskNow() == DeskSpec.Patch(old(db.DeskNow()), db.DirNow(), t, StatusOnly(Open), Some(author), now)
      ensures r.Ok? <==> t < |old(db.tickets)| && author < |db.agents|
      ensures r.Ok? ==> r.value == old(db.tickets)[t].(status := Open, updatedAt := now)
    {
      r := Patch(t, StatusOnly(Open), Some(author), now);
    }

    method Snooze(t: TicketId, until: int, author: AgentId, now: int) returns (r: Result<Ticket>)
      modifies db`tickets, db`events, db`past
      ensures db.DeskNow() == DeskSpec.Patch(old(db.DeskNow()), db.DirNow(), t,
                                StatusOnly(OnHold).(snooze := Set(until)), Some(author), now)
      ensures r.Ok? <==> t < |old(db.tickets)| && author < |db.agents|
      ensures r.Ok? ==> r.value == old(db.tickets)[t].(status := OnHold, snoozeUntil := Some(until), updatedAt := now)
    {
      r := Patch(t, StatusOnly(OnHold).(snooze := Set(until)), Some(author), now);
    }

    /** The conditions of a list request, filled in one by one; the request's own status and
        assignee override the saved view's. */
    method Conditions(q: Query) returns (where: Where)
      ensures forall chats: seq<Chat>, tickets: seq<Ticket>, t: TicketId | t < |tickets| ::
        Matches(chats, tickets, t, where) <==> Selects(q, chats, tickets, t)
    {
      where := Where(None, None, None, None, None, None, None);
      if q.view.Some? {
        where := where.(statuses := q.view.value.statuses, assignee := q.view.value.assignee);
      }
      if q.status.Some? {
        where := where.(statuses := Some([q.status.value]));
      }
      if q.assignee.Some? {
        where := where.(assignee := q.assignee);
      }
      where := where.(team := q.team, chat := q.chat, group := q.group, tag := q.tag, found := q.found);
    }

    /** One page of the tickets the request selects, most recently updated first, whichever way the
        database client reads a cursor. */
    method List(q: Query, how: CursorReading) returns (page: Page)
      requires 1 <= q.limit
      ensures IsPage(db.tickets, SelectedBy(db.chats, db.tickets, q), q.cursor, how, q.limit, page)
    {
      var where := Conditions(q);
      var chats, tickets := db.chats, db.tickets;
      var kept := set t | 0 <= t < |tickets| && Matches(chats, tickets, t, where)
                          && (how.ByPosition? && q.cursor.Some? ==> q.cursor.value < |tickets| && UpdateTime(tickets, t) <= UpdateTime(tickets, q.cursor.value));
      assert kept == Ranked(tickets, SelectedBy(chats, tickets, q), q.cursor, how);
      var rows := Ordered(tickets, kept);
      var items := Fetched(rows, q.cursor, how, q.limit);
      var hasMore := |items| > q.limit;
      var data := if hasMore then items[..q.limit] else items;
      page := Page(data, if hasMore then Some(data[|data| - 1]) else None);
    }

    method BulkOne(t: TicketId, action: BulkAction, author: AgentId, now: int) returns (r: Result<Ticket>, ghost step: Step)
      modifies db`tickets, db`events, db`past
      ensures r.Ok? ==>
        && IsBulkStep(old(db.DeskNow()), t, action, author, step) && StepOk(old(db.DeskNow()), db.DirNow(), step)
        && db.DeskNow() == StepDesk(db.DirNow(), old(db.DeskNow()), now, step)
      ensures r.Err? ==>
        db.DeskNow() == old(db.DeskNow()) && Refused(db.DirNow(), old(db.DeskNow()), t, action, author)
    {
      match action
      case BulkAssign(agent) =>
        step := AssignTicket(t, agent, author, None);
        r := Assign(t, agent, author, None, now);
      case BulkClose =>
        step := PatchTicket(t, StatusOnly(Closed), author);
        r := Close(t, author, now);
      case BulkLabel(l) =>
        step := Nightly;
        if |db.tickets| <= t {
          return Err(NotFound), step;
        }
        var labels := ListOf(db.tickets[t].labels + {l});
        var dto := PatchDto(None, None, Keep, Keep, Some(labels), Keep, Keep);
        step := PatchTicket(t, dto, author);
        r := Patch(t, dto, Some(author), now);
        if r.Err? {
          OneRefusalIsAll(db.DirNow(), db.DeskNow(), t, action, author, step);
        }
    }

    /** Stops at the first ticket that fails; what was done before it stays done. */
    method Bulk(ids: seq<TicketId>, action: BulkAction, author: AgentId, now: int)
      returns (r: Result<seq<Ticket>>, ghost steps: seq<Step>)
      modifies db`tickets, db`events, db`past
      ensures CarriesOut(db.DirNow(), old(db.DeskNow()), now, ids, action, author, steps)
      ensures db.DeskNow() == AfterAll(db.DirNow(), old(db.DeskNow()), now, steps)
      ensures r.Ok? <==> |steps| == |ids|
      ensures r.Ok? ==> |r.value| == |ids|
      ensures r.Err? ==> |steps| < |ids| && Refused(db.DirNow(), db.DeskNow(), ids[|steps|], action, author)
    {
      ghost var dir, before := db.DirNow(), db.DeskNow();
      var results := [];
      steps := [];
      for i := 0 to |ids|
        invariant db.DirNow() == dir
        invariant |steps| == |results| == i
        invariant CarriesOut(dir, before, now, ids, action, author, steps)
        invariant db.DeskNow() == AfterAll(dir, before, now, steps)
      {
        var one, step := BulkOne(ids[i], action, author, now);
        if one.Err? {
          return Err(one.error), steps;
        }
        results := results + [one.value];
        CarryOneMore(dir, before, now, ids, action, author, steps, step);
        steps := steps + [step];
      }
      r := Ok(results);
    }
  }

  lemma CarryOneMore(dir: Directory, d: Desk, now: int, ids: seq<TicketId>, action: BulkAction, author: AgentId,
                     steps: seq<Step>, s: Step)
    requires CarriesOut(dir, d, now, ids, action, author, steps) && |steps| < |ids|
    requires IsBulkStep(AfterAll(dir, d, now, steps), ids[|steps|], action, author, s)
    requires StepOk(AfterAll(dir, d, now, steps), dir, s)
    ensures CarriesOut(dir, d, now, ids, action, author, steps + [s])
    ensures AfterAll(dir, d, now, steps + [s]) == StepDesk(dir, AfterAll(dir, d, now, steps), now, s)
  {
    var more := steps + [s];
    assert more[..|steps|] == steps;
    forall i | 0 <= i < |more|
      ensures IsBulkStep(AfterAll(dir, d, now, more[..i]), ids[i], action, author, more[i])
      ensures StepOk(AfterAll(dir, d, now, more[..i]), dir, more[i])
    {
      assert i < |steps| ==> more[..i] == steps[..i];
    }
  }

  lemma SameOutcome(dir: Directory, d: Desk, t: TicketId, action: BulkAction, author: AgentId, s: Step, other: Step)
    requires IsBulkStep(d, t, action, author, s) && IsBulkStep(d, t, action, author, other) && StepOk(d, dir, other)
    ensures StepOk(d, dir, s)
  {
    if action.BulkLabel? {
      var mine, theirs := s.dto.labels.value, other.dto.labels.value;
      forall i | 0 <= i < |mine|
        ensures mine[i] < dir.labelCount
      {
        assert mine[i] in theirs;
      }
    }
  }

  /** Whether a bulk step succeeds does not depend on the order its labels are listed in. */
  lemma OneRefusalIsAll(dir: Directory, d: Desk, t: TicketId, action: BulkAction, author: AgentId, s: Step)
    requires IsBulkStep(d, t, action, author, s) && !StepOk(d, dir, s)
    ensures Refused(dir, d, t, action, author)
  {
    forall other: Step | IsBulkStep(d, t, action, author, other)
      ensures !StepOk(d, dir, other)
    {
      if StepOk(d, dir, other) {
        SameOutcome(dir, d, t, action, author, s, other);
      }
    }
  }
}
