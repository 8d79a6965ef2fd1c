/** Sender detection, excluded senders, chats and customers, as the services that write the tables. */
module SenderServices {
  import opened Types
  import opened DirectorySpec
  import opened DeskSpec
  import opened Engine
  import opened Storage

  class ClientDetectionService {
    const db: Database

    constructor (db: Database)
      ensures this.db == db
    {
      this.db := db;
    }

    /** Writes only when a username-only record is recognised; that write fails when an inactive
        record already holds the id. */
    method Classify(tg: int, username: Option<string>) returns (verdict: Verdict, ghost pick: Option<ExcludedId>)
      modifies db`excluded
      ensures IsUsernamePick(old(db.excluded), username, pick)
      ensures verdict == DirectorySpec.Classify(old(db.DirNow()), tg, pick)
      ensures db.DirNow() == ClassifyWrites(old(db.DirNow()), tg, pick)
    {
      pick := AnyUsernamePick(db.excluded, username);
      if ActiveAgent(db.agents, tg) {
        return FromActiveAgent, pick;
      }
      if Barred(db.excluded, tg) {
        return FromExcluded, pick;
      }
      if username.Some? && username.value != "" {
        var byUsername := db.FindExcludedByUsername(username.value);
        pick := byUsername;
        if byUsername.Some? {
          if HoldsId(db.excluded, tg) {
            return Failed, pick;
          }
          var e := byUsername.value;
          db.excluded := db.excluded[e := db.excluded[e].(telegramId := Some(tg))];
          return FromExcluded, pick;
        }
      }
      return FromClient, pick;
    }
  }

  lemma AnyUsernamePick(excluded: map<ExcludedId, Excluded>, username: Option<string>) returns (pick: Option<ExcludedId>)
    ensures IsUsernamePick(excluded, username, pick)
  {
    if username.Some? && username.value != "" && exists e | e in excluded :: NamesOnly(excluded, username.value, e) {
      var e :| e in excluded && NamesOnly(excluded, username.value, e);
      pick := Some(e);
    } else {
      pick := None;
    }
  }

  class ChatsService {
    const db: Database

    constructor (db: Database)
      ensures this.db == db
    {
      this.db := db;
    }

    method FindOrCreateByTelegramId(tg: int, title: string) returns (chat: ChatId)
      modifies db`chats
      ensures chat == ChatOf(old(db.DirNow()), tg)
      ensures db.DirNow() == WithChat(old(db.DirNow()), tg, title)
    {
      var existing := FindChat(db.chats, tg);
      if existing.Some? {
        return existing.value;
      }
      chat := |db.chats|;
      db.chats := db.chats + [NewChat(tg, title)];
    }

    method UpdateSettings(c: ChatId, s: Settings) returns (r: Result<Chat>)
      modifies db`chats
      ensures db.DirNow() == DirectorySpec.UpdateSettings(old(db.DirNow()), c, s)
      ensures r.Ok? <==> SettingsOk(old(db.DirNow()), c, s)
      ensures r == Err(NotFound) <==> |old(db.chats)| <= c
      ensures r.Ok? ==> c < |db.chats| && r.value == db.chats[c]
    {
      if |db.chats| <= c {
        return Err(NotFound);
      }
      if s.group.Set? && db.groupCount <= s.group.value {
        return Err(Rejected);
      }
      if (s.team.Set? && db.teamCount <= s.team.value) || (s.assignee.Set? && |db.agents| <= s.assignee.value) {
        return Err(Rejected);
      }
      var chat := db.chats[c];
      chat := chat.(
        group := s.group.Over(chat.group), team := s.team.Over(chat.team), assignee := s.assignee.Over(chat.assignee));
      if s.strategy.Some? {
        chat := chat.(strategy := s.strategy.value);
      }
      if s.priority.Some? {
        chat := chat.(priority := s.priority.value);
      }
      if s.tags.Some? {
        chat := chat.(tags := s.tags.value);
      }
      db.chats := db.chats[c := chat];
      return Ok(chat);
    }
  }

  class CustomersService {
    const db: Database

    constructor (db: Database)
      ensures this.db == db
    {
      this.db := db;
    }

    /** Creates the customer, or renames it when what Telegram says has changed. */
    method FindOrCreateByTelegramId(tg: int, username: Option<string>, name: string) returns (customer: CustomerId)
      modifies db`customers
      ensures customer == CustomerOf(old(db.DirNow()), tg)
      ensures db.DirNow() == WithCustomer(old(db.DirNow()), tg, username, name)
    {
      var existing := FindCustomer(db.customers, tg);
      if existing.Some? {
        customer := existing.value;
        var row := db.customers[customer];
        if row.username != username || row.name != name {
          if username.Some? {
            row := row.(username := username);
          }
          db.customers := db.customers[customer := row.(name := name)];
        }
        return;
      }
      customer := |db.customers|;
      db.customers := db.customers + [Customer(tg, username, name)];
    }
  }

  class ExcludedSendersService {
    const db: Database

    constructor (db: Database)
      ensures this.db == db
    {
      this.db := db;
    }

    method Create(tg: Option<int>, username: Option<string>, about: About, author: AgentId) returns (r: Result<ExcludedId>)
      modifies db`excluded, db`nextExcluded
      ensures db.DirNow() == CreateExcluded(old(db.DirNow()), tg, username, about, author)
      ensures r.Ok? <==> CreateExcludedOk(old(db.DirNow()), tg, username, author)
      ensures r.Ok? ==> r.value == old(db.nextExcluded)
    {
      if tg.None? && (username.None? || username.value == "") {
        return Err(Rejected);
      }
      if tg.Some? && HoldsId(db.excluded, tg.value) {
        return Err(Rejected);
      }
      if |db.agents| <= author {
        return Err(Rejected);
      }
      var stored := username;
      if username.Some? {
        stored := Some(WithoutAt(username.value));
      }
      var e := db.nextExcluded;
      db.excluded := db.excluded[e := Excluded(tg, stored, true, about)];
      db.nextExcluded := e + 1;
      return Ok(e);
    }

    method Update(e: ExcludedId, about: About, isActive: Option<bool>) returns (r: Result<Excluded>)
      modifies db`excluded
      ensures db.DirNow() == UpdateExcluded(old(db.DirNow()), e, about, isActive)
      ensures r == Err(NotFound) <==> e !in old(db.excluded)
      ensures r.Ok? ==> e in db.excluded && r.value == db.excluded[e]
    {
      if e !in db.excluded {
        return Err(NotFound);
      }
      var row := db.excluded[e];
      if about.name.Some? {
        row := row.(about := row.about.(name := about.name));
      }
      if about.note.Some? {
        row := row.(about := row.about.(note := about.note));
      }
      if isActive.Some? {
        row := row.(isActive := isActive.value);
      }
      db.excluded := db.excluded[e := row];
      return Ok(row);
    }

    method Remove(e: ExcludedId) returns (r: Result<()>)
      modifies db`excluded
      ensures db.DirNow() == RemoveExcluded(old(db.DirNow()), e)
      ensures r.Ok? <==> e in old(db.excluded)
    {
      if e !in db.excluded {
        assert db.excluded - {e} == db.excluded;
        return Err(NotFound);
      }
      db.excluded := db.excluded - {e};
      return Ok(());
    }

    /** Reactivates the record that holds the id, or adds one. */
    method Upsert(customer: Customer, author: AgentId) returns (ok: bool)
      modifies db`excluded, db`nextExcluded
      ensures db.DirNow() == Bar(old(db.DirNow()), customer, author)
      ensures ok <==> HoldsId(old(db.excluded), customer.telegramId) || author < |db.agents|
    {
      var tg := customer.telegramId;
      if HoldsId(db.excluded, tg) {
        db.excluded := map e | e in db.excluded ::
          if db.excluded[e].telegramId == Some(tg) then db.excluded[e].(isActive := true) else db.excluded[e];
        return true;
      }
      if |db.agents| <= author {
        return false;
      }
      var about := About(Some(customer.name), Some(AUTO_NOTE));
      db.excluded := db.excluded[db.nextExcluded := Excluded(Some(tg), customer.username, true, about)];
      db.nextExcluded := db.nextExcluded + 1;
      return true;
    }

    /** Excludes the sender, then closes the thread; the two are separate writes. */
    method MarkTicketSenderAsNotCustomer(t: TicketId, author: AgentId, now: int) returns (r: Result<()>)
      requires t < |db.tickets| ==> db.tickets[t].customer < |db.customers|
      modifies db`excluded, db`nextExcluded, db`tickets, db`past
      ensures db.DirNow() == MarkDir(old(db.DirNow()), old(db.DeskNow()), t, author)
      ensures db.DeskNow() == MarkClosed(old(db.DeskNow()), old(db.DirNow()), t, author, now)
      ensures r == Err(NotFound) <==> |old(db.tickets)| <= t
      ensures r.Ok? <==> t < |old(db.tickets)| && author < |db.agents|
    {
      if |db.tickets| <= t {
        return Err(NotFound);
      }
      var customer := db.customers[db.tickets[t].customer];
      var barred := Upsert(customer, author);
      if !barred || |db.agents| <= author {
        return Err(Rejected);
      }
      db.tickets := db.tickets[t := db.tickets[t].(
        status := Closed, closedAt := Some(now), closedBy := Some(author), updatedAt := now)];
      db.past := db.past.(unlogged := db.past.unlogged + {t});
      return Ok(());
    }
  }
}
