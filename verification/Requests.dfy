/** What agents and administrators get for their requests, told on the rows. */
module RequestRuns {
  import opened Types
  import opened DirectorySpec
  import opened DeskInvariants
  import opened Engine
  import opened Reachable
  import opened SenderRuns

  // ---------- Requests on one ticket ----------

  /** One row is replaced; other tickets, conversations and jobs are as they were. */
  predicate OnlyTicket(d: Desk, e: Desk, t: TicketId) {
    && |e.tickets| == |d.tickets| && (forall i :: 0 <= i < |d.tickets| && i != t ==> e.tickets[i] == d.tickets[i])
    && e.messages == d.messages && e.outbox == d.outbox
  }

  /** A field not mentioned is kept, null clears it, a value replaces it. */
  ghost predicate Honours<T>(field: Field<T>, before: Option<T>, after: Option<T>) {
    match field
    case Keep => after == before
    case Clear => after == None
    case Set(v) => after == Some(v)
  }

  ghost predicate HonoursValue<T>(field: Option<T>, before: T, after: T) {
    after == if field.Some? then field.value else before
  }

  /** Every field mentioned has its value, labels are exactly those listed, and of the others only
      the stamps of a closing or solving status, and the time, have changed. */
  ghost predicate Patched(t: Ticket, u: Ticket, dto: PatchDto, author: AgentId, now: int) {
    && HonoursValue(dto.status, t.status, u.status) && HonoursValue(dto.priority, t.priority, u.priority)
    && Honours(dto.assignee, t.assignee, u.assignee) && Honours(dto.team, t.team, u.team)
    && Honours(dto.snooze, t.snoozeUntil, u.snoozeUntil) && Honours(dto.jira, t.jira, u.jira)
    && (dto.labels.Some? ==> forall l :: l in u.labels <==> l in dto.labels.value)
    && (dto.labels.None? ==> u.labels == t.labels)
    && (if dto.status == Some(Closed) then u.closedAt == Some(now) && u.closedBy == Some(author)
        else u.closedAt == t.closedAt && u.closedBy == t.closedBy)
    && u.resolvedAt == (if dto.status == Some(Solved) then Some(now) else t.resolvedAt)
    && u.updatedAt == now && u.chat == t.chat && u.customer == t.customer && u.createdAt == t.createdAt
    && u.anchor == t.anchor && u.lastClient == t.lastClient && u.firstResponseAt == t.firstResponseAt
  }

  /** Everything a patch refers to exists, and no label is listed twice. */
  predicate Refers(db: Db, t: TicketId, dto: PatchDto, author: AgentId) {
    && t < |db.desk.tickets| && author < |db.dir.agents|
    && (dto.assignee.Set? ==> dto.assignee.value < |db.dir.agents|) && (dto.team.Set? ==> dto.team.value < db.dir.teamCount)
    && (dto.labels.Some? ==>
          && (forall i :: 0 <= i < |dto.labels.value| ==> dto.labels.value[i] < db.dir.labelCount)
          && (forall i, j :: 0 <= i < j < |dto.labels.value| ==> dto.labels.value[i] != dto.labels.value[j]))
  }

  /** A patch does what it was asked and logs the request, or nothing at all. */
  lemma PatchDoes(db: Db, now: int, t: TicketId, dto: PatchDto, author: AgentId)
    ensures var d, e := db.desk, Apply(db, Timed(now, PatchTicket(t, dto, author)));
      && e.dir == db.dir
      && if Refers(db, t, dto, author)
         then && OnlyTicket(d, e.desk, t) && Patched(d.tickets[t], e.desk.tickets[t], dto, author, now)
              && e.desk.events == d.events + [Event(t, Some(author), Updated(dto), now)]
         else e.desk == d
  {
  }

  /** An assignment changes the assignee and the time, and logs both assignees; or nothing. */
  lemma AssignDoes(db: Db, now: int, t: TicketId, agent: AgentId, author: AgentId, reason: Option<string>)
    ensures var d, e := db.desk, Apply(db, Timed(now, AssignTicket(t, agent, author, reason)));
      && e.dir == db.dir
      && if t < |d.tickets| && agent < |db.dir.agents| && author < |db.dir.agents|
         then && OnlyTicket(d, e.desk, t)
              && e.desk.tickets[t] == d.tickets[t].(assignee := Some(agent), updatedAt := now)
              && e.desk.events == d.events + [Event(t, Some(author), Assigned(agent, d.tickets[t].assignee, reason), now)]
         else e.desk == d
  {
  }

  predicate MarkBars(db: Db, t: TicketId, author: AgentId, tg: int) {
    && t < |db.desk.tickets| && db.desk.tickets[t].customer < |db.dir.customers|
    && tg == db.dir.customers[db.desk.tickets[t].customer].telegramId
    && (author < |db.dir.agents| || IsKnown(db.dir, tg))
  }

  /** Mark-not-customer closes the ticket for a known agent, and the log does not hear of it; it bars
      the customer, even for an unknown agent when a record already has the id. */
  lemma MarkDoes(db: Db, now: int, t: TicketId, author: AgentId)
    requires Inv(db)
    ensures var d, e := db.desk, Apply(db, Timed(now, MarkNotCustomer(t, author)));
      && (if t < |d.tickets| && author < |db.dir.agents|
          then && OnlyTicket(d, e.desk, t) && e.desk.events == d.events
               && e.desk.tickets[t] == d.tickets[t].(
                    status := Closed, closedAt := Some(now), closedBy := Some(author), updatedAt := now)
          else e.desk == d)
      && (forall tg :: IsBarred(e.dir, tg) <==> IsBarred(db.dir, tg) || MarkBars(db, t, author, tg))
  {
    if t < |db.desk.tickets| {
      BarBars(db.dir, db.dir.customers[db.desk.tickets[t].customer], author);
    }
  }

  /** The record mark-not-customer adds, when none has the id, says who and why. */
  lemma MarkRecords(db: Db, now: int, t: TicketId, author: AgentId)
    requires Inv(db) && t < |db.desk.tickets| && author < |db.dir.agents|
    requires !IsKnown(db.dir, db.dir.customers[db.desk.tickets[t].customer].telegramId)
    ensures var e, u := Apply(db, Timed(now, MarkNotCustomer(t, author))).dir, db.dir.customers[db.desk.tickets[t].customer];
      exists x: ExcludedId :: x !in db.dir.excluded && e.excluded ==
        db.dir.excluded[x := Excluded(Some(u.telegramId), u.username, true, About(Some(u.name), Some(AUTO_NOTE)))]
  {
    assert !HoldsId(db.dir.excluded, db.dir.customers[db.desk.tickets[t].customer].telegramId);
    assert db.dir.nextExcluded !in db.dir.excluded;
  }

  lemma BarBars(dir: Directory, customer: Customer, author: AgentId)
    requires DirInv(dir)
    ensures forall tg :: IsBarred(Bar(dir, customer, author), tg) <==>
      IsBarred(dir, tg) || (tg == customer.telegramId && (author < |dir.agents| || IsKnown(dir, tg)))
  {
    var after := Bar(dir, customer, author);
    forall tg
      ensures IsBarred(after, tg) <==>
        IsBarred(dir, tg) || (tg == customer.telegramId && (author < |dir.agents| || IsKnown(dir, tg)))
    {
      OneBarred(dir, customer, author, tg);
    }
  }

  lemma OneBarred(dir: Directory, customer: Customer, author: AgentId, tg: int)
    requires DirInv(dir)
    ensures IsBarred(Bar(dir, customer, author), tg) <==>
      IsBarred(dir, tg) || (tg == customer.telegramId && (author < |dir.agents| || IsKnown(dir, tg)))
  {
    var after, id := Bar(dir, customer, author), customer.telegramId;
    if e :| e in dir.excluded && dir.excluded[e].telegramId == Some(tg) && dir.excluded[e].isActive {
      assert e in after.excluded && after.excluded[e].telegramId == Some(tg) && after.excluded[e].isActive;
    }
    if e :| e in dir.excluded && dir.excluded[e].telegramId == Some(id) {
      assert HoldsId(dir.excluded, id);
      assert e in after.excluded && after.excluded[e].telegramId == Some(id) && after.excluded[e].isActive;
    } else if author < |dir.agents| {
      assert !HoldsId(dir.excluded, id);
      assert after.excluded[dir.nextExcluded].isActive;
    }
  }

  /** A confirmed send gives the row its id, unless another row of the ticket has it. */
  lemma ConfirmDoes(db: Db, now: int, job: nat, tg: int)
    requires Inv(db) && job < |db.desk.outbox|
    ensures var d, e, m := db.desk, Apply(db, Timed(now, ConfirmSent(job, tg))).desk, db.desk.outbox[job].message;
      && m < |d.messages|
      && if exists n :: 0 <= n < |d.messages| && n != m && d.messages[n].ticket == d.messages[m].ticket && d.messages[n].tgId == Some(tg)
         then e == d
         else e == d.(messages := d.messages[m := d.messages[m].(tgId := Some(tg))])
  {
    assert JobFits(db.desk, db.desk.outbox[job]);
  }

  // ---------- Who is barred ----------

  predicate NamedHere(dir: Directory, name: string, e: ExcludedId) {
    && e in dir.excluded && dir.excluded[e].isActive && dir.excluded[e].telegramId.None?
    && dir.excluded[e].username == Some(name)
  }

  /** The name is told without its first character if that is an at sign. */
  predicate StoredAs(given: string, stored: string) {
    given == "@" + stored || (given == stored && (given == "" || given[0] != '@'))
  }

  lemma AtSignIsDropped(username: string)
    ensures StoredAs(username, WithoutAt(username))
  {
    if username != "" && username[0] == '@' {
      assert username == "@" + username[1..];
    }
  }

  /** A new record of an excluded sender needs an id or a name, an id no record has, and a known
      author. It bars its id at once, or waits for its name, and changes nobody else's standing. */
  lemma AddingBars(db: Db, now: int, tg: Option<int>, username: Option<string>, about: About, author: AgentId)
    requires Inv(db)
    ensures var e := Apply(db, Timed(now, AddExcluded(tg, username, about, author)));
      && e.desk == db.desk
      && if (tg.Some? || (username.Some? && username.value != "")) && (tg.Some? ==> !IsKnown(db.dir, tg.value)) && author < |db.dir.agents|
         then && (forall id :: IsBarred(e.dir, id) <==> IsBarred(db.dir, id) || tg == Some(id))
              && (exists x: ExcludedId :: x !in db.dir.excluded && x in e.dir.excluded
                    && e.dir.excluded == db.dir.excluded[x := Excluded(tg, e.dir.excluded[x].username, true, about)])
              && (tg.None? ==> exists x: ExcludedId, name: string :: StoredAs(username.value, name) && NamedHere(e.dir, name, x))
         else e.dir == db.dir
  {
    var dir, x := db.dir, db.dir.nextExcluded;
    var after := CreateExcluded(dir, tg, username, about, author);
    if tg.Some? && IsKnown(dir, tg.value) {
      assert HoldsId(dir.excluded, tg.value);
    }
    if CreateExcludedOk(dir, tg, username, author) {
      assert x !in dir.excluded;
      assert after.excluded == dir.excluded[x := Excluded(tg, after.excluded[x].username, true, about)];
      assert x in after.excluded && after.excluded[x].isActive && after.excluded[x].telegramId == tg;
      BarredByNew(dir, after, x, tg);
      if tg.None? {
        AtSignIsDropped(username.value);
        assert NamedHere(after, WithoutAt(username.value), x);
      }
    }
  }

  lemma BarredByNew(dir: Directory, after: Directory, x: ExcludedId, tg: Option<int>)
    requires x !in dir.excluded && x in after.excluded && after.excluded[x].isActive && after.excluded[x].telegramId == tg
    requires after.excluded == dir.excluded[x := after.excluded[x]]
    ensures forall id :: IsBarred(after, id) <==> IsBarred(dir, id) || tg == Some(id)
  {
    forall id
      ensures IsBarred(after, id) <==> IsBarred(dir, id) || tg == Some(id)
    {
      if e :| e in dir.excluded && dir.excluded[e].telegramId == Some(id) && dir.excluded[e].isActive {
        assert after.excluded[e] == dir.excluded[e];
      }
    }
  }

  /** Switching a record on or off decides its id's standing and nobody else's; an edit without the
      switch decides nothing. */
  lemma EditingBars(db: Db, now: int, e: ExcludedId, about: About, switch: Option<bool>, id: int)
    requires Inv(db) && e in db.dir.excluded
    ensures var after := Apply(db, Timed(now, EditExcluded(e, about, switch)));
      && after.desk == db.desk && after.dir == db.dir.(excluded := after.dir.excluded)
      && (IsBarred(after.dir, id) <==>
            if db.dir.excluded[e].telegramId == Some(id) && switch.Some? then switch.value else IsBarred(db.dir, id))
      && e in after.dir.excluded
      && HonoursValue(switch, db.dir.excluded[e].isActive, after.dir.excluded[e].isActive)
      && after.dir.excluded[e].telegramId == db.dir.excluded[e].telegramId
      && after.dir.excluded[e].username == db.dir.excluded[e].username
      && after.dir.excluded[e].about.name == (if about.name.Some? then about.name else db.dir.excluded[e].about.name)
      && after.dir.excluded[e].about.note == (if about.note.Some? then about.note else db.dir.excluded[e].about.note)
      && (forall x :: x in db.dir.excluded && x != e ==> x in after.dir.excluded && after.dir.excluded[x] == db.dir.excluded[x])
      && (forall x :: x in after.dir.excluded ==> x in db.dir.excluded)
  {
    EditedBars(db.dir, e, about, switch, id);
  }

  lemma EditedBars(dir: Directory, e: ExcludedId, about: About, switch: Option<bool>, id: int)
    requires DirInv(dir) && e in dir.excluded
    ensures IsBarred(UpdateExcluded(dir, e, about, switch), id) <==>
      if dir.excluded[e].telegramId == Some(id) && switch.Some? then switch.value else IsBarred(dir, id)
  {
    var after := UpdateExcluded(dir, e, about, switch);
    if x :| x in dir.excluded && dir.excluded[x].telegramId == Some(id) && dir.excluded[x].isActive {
      assert x in after.excluded && after.excluded[x].telegramId == Some(id);
    }
    if x :| x in after.excluded && after.excluded[x].telegramId == Some(id) && after.excluded[x].isActive {
      assert x in dir.excluded && dir.excluded[x].telegramId == Some(id);
    }
    if dir.excluded[e].telegramId == Some(id) && switch == Some(true) {
      assert e in after.excluded && after.excluded[e].isActive;
    }
  }

  /** Removing a record lets its id in, and nobody else. */
  lemma RemovingFrees(db: Db, now: int, e: ExcludedId, id: int)
    requires Inv(db)
    ensures var after := Apply(db, Timed(now, DropExcluded(e)));
      && after.desk == db.desk && e !in after.dir.excluded
      && (IsBarred(after.dir, id) <==>
            IsBarred(db.dir, id) && !(e in db.dir.excluded && db.dir.excluded[e].telegramId == Some(id)))
  {
    var dir, after := db.dir, RemoveExcluded(db.dir, e);
    if x :| x in dir.excluded && x != e && dir.excluded[x].telegramId == Some(id) && dir.excluded[x].isActive {
      assert x in after.excluded && after.excluded[x] == dir.excluded[x];
    }
    if x :| x in after.excluded && after.excluded[x].telegramId == Some(id) && after.excluded[x].isActive {
      assert x in dir.excluded && x != e;
    }
  }

  // ---------- Chats, teams and agents ----------

  /** New settings replace what they mention, or nothing if they refer to something unknown. */
  lemma SettingsDo(db: Db, now: int, c: ChatId, s: Settings)
    ensures var after := Apply(db, Timed(now, EditChat(c, s)));
      && after.desk == db.desk
      && if c < |db.dir.chats| && (s.group.Set? ==> s.group.value < db.dir.groupCount)
            && (s.team.Set? ==> s.team.value < db.dir.teamCount) && (s.assignee.Set? ==> s.assignee.value < |db.dir.agents|)
         then && |after.dir.chats| == |db.dir.chats| && after.dir == db.dir.(chats := after.dir.chats)
              && (forall i :: 0 <= i < |db.dir.chats| && i != c ==> after.dir.chats[i] == db.dir.chats[i])
              && var x, y := db.dir.chats[c], after.dir.chats[c];
                 && Honours(s.group, x.group, y.group) && Honours(s.team, x.team, y.team) && Honours(s.assignee, x.assignee, y.assignee)
                 && HonoursValue(s.strategy, x.strategy, y.strategy) && HonoursValue(s.priority, x.priority, y.priority)
                 && HonoursValue(s.tags, x.tags, y.tags) && y.telegramId == x.telegramId && y.title == x.title
         else after.dir == db.dir
  {
  }

  /** Who is on duty for a team after an agent was switched on or off, joined or left. */
  lemma DutyFollows(db: Db, now: int, team: TeamId, a: AgentId, isActive: bool, other: TeamId, b: AgentId)
    ensures OnDuty(Apply(db, Timed(now, EditAgent(a, isActive))).dir, other, b) <==>
      if a == b then (other, b) in db.dir.members && b < |db.dir.agents| && isActive else OnDuty(db.dir, other, b)
    ensures OnDuty(Apply(db, Timed(now, JoinTeam(team, a))).dir, other, b) <==>
      OnDuty(db.dir, other, b) || (team == other && a == b && team < db.dir.teamCount && b < |db.dir.agents| && db.dir.agents[b].isActive)
    ensures OnDuty(Apply(db, Timed(now, LeaveTeam(team, a))).dir, other, b) <==>
      OnDuty(db.dir, other, b) && !(team == other && a == b)
  {
  }
}
