/** Sender detection, excluded senders, chats and customers: everything ingest resolves before it
    looks for a ticket. */
module DirectorySpec {
  import opened Types

  // ---------- Lookups by unique Telegram id ----------

  /** The row with the given id, of rows whose ids are `idOf`. */
  function FindRow<T>(rows: seq<T>, idOf: T -> int, tg: int): (r: Option<nat>)
    ensures r.Some? ==> r.value < |rows| && idOf(rows[r.value]) == tg
    ensures r.None? ==> forall i :: 0 <= i < |rows| ==> idOf(rows[i]) != tg
  {
    if rows == [] then None
    else if idOf(rows[|rows| - 1]) == tg then Some(|rows| - 1)
    else FindRow(rows[..|rows| - 1], idOf, tg)
  }

  function FindChat(chats: seq<Chat>, tg: int): (r: Option<ChatId>)
    ensures r.Some? ==> r.value < |chats| && chats[r.value].telegramId == tg
    ensures r.None? ==> forall i :: 0 <= i < |chats| ==> chats[i].telegramId != tg
  {
    FindRow(chats, (c: Chat) => c.telegramId, tg)
  }

  function FindCustomer(customers: seq<Customer>, tg: int): (r: Option<CustomerId>)
    ensures r.Some? ==> r.value < |customers| && customers[r.value].telegramId == tg
    ensures r.None? ==> forall i :: 0 <= i < |customers| ==> customers[i].telegramId != tg
  {
    FindRow(customers, (c: Customer) => c.telegramId, tg)
  }

  predicate ActiveAgent(agents: seq<Agent>, tg: int) {
    exists i :: 0 <= i < |agents| && agents[i].telegramId == tg && agents[i].isActive
  }

  /** Some record, active or not, holds the id: a second one would break the unique column. */
  predicate HoldsId(excluded: map<ExcludedId, Excluded>, tg: int) {
    exists e | e in excluded :: excluded[e].telegramId == Some(tg)
  }

  predicate Barred(excluded: map<ExcludedId, Excluded>, tg: int) {
    exists e | e in excluded :: excluded[e].telegramId == Some(tg) && excluded[e].isActive
  }

  // ---------- Sender detection ----------

  /** A record an administrator entered by username, whose id is still unknown. */
  predicate NamesOnly(excluded: map<ExcludedId, Excluded>, username: string, e: ExcludedId) {
    && e in excluded
    && excluded[e].username == Some(username)
    && excluded[e].telegramId == None
    && excluded[e].isActive
  }

  /** What the unordered lookup by username may return. */
  predicate IsUsernamePick(
    excluded: map<ExcludedId, Excluded>, username: Option<string>, pick: Option<ExcludedId>)
  {
    if username.None? || username.value == "" then pick.None?
    else if pick.Some? then NamesOnly(excluded, username.value, pick.value)
    else forall e | e in excluded :: !NamesOnly(excluded, username.value, e)
  }

  datatype Verdict = FromActiveAgent | FromExcluded | FromClient | Failed

  /** `pick` is the record found by username. The backfill fails when another record, necessarily
      an inactive one, already holds the id. */
  function Classify(dir: Directory, tg: int, pick: Option<ExcludedId>): Verdict {
    if ActiveAgent(dir.agents, tg) then FromActiveAgent
    else if Barred(dir.excluded, tg) then FromExcluded
    else if pick.None? then FromClient
    else if HoldsId(dir.excluded, tg) then Failed
    else FromExcluded
  }

  function ClassifyWrites(dir: Directory, tg: int, pick: Option<ExcludedId>): Directory {
    if ActiveAgent(dir.agents, tg) || Barred(dir.excluded, tg) || pick.None? || HoldsId(dir.excluded, tg)
       || pick.value !in dir.excluded
    then dir
    else
      dir.(excluded := dir.excluded[pick.value := dir.excluded[pick.value].(telegramId := Some(tg))])
  }

  // ---------- Chats and customers ----------

  function NewChat(tg: int, title: string): Chat {
    Chat(tg, title, None, None, Manual, Normal, None, [])
  }

  function ChatOf(dir: Directory, tg: int): ChatId {
    match FindChat(dir.chats, tg)
    case Some(c) => c
    case None => |dir.chats|
  }

  function WithChat(dir: Directory, tg: int, title: string): (d: Directory)
    ensures ChatOf(dir, tg) < |d.chats| && d.chats[ChatOf(dir, tg)].telegramId == tg
    ensures dir.chats <= d.chats
  {
    if FindChat(dir.chats, tg).Some? then dir
    else dir.(chats := dir.chats + [NewChat(tg, title)])
  }

  function CustomerOf(dir: Directory, tg: int): CustomerId {
    match FindCustomer(dir.customers, tg)
    case Some(c) => c
    case None => |dir.customers|
  }

  /** A missing username in the update request leaves the stored one alone. */
  function Renamed(c: Customer, username: Option<string>, name: string): Customer {
    c.(username := if username.Some? then username else c.username, name := name)
  }

  function WithCustomer(dir: Directory, tg: int, username: Option<string>, name: string): (d: Directory)
    ensures CustomerOf(dir, tg) < |d.customers| && d.customers[CustomerOf(dir, tg)].telegramId == tg
  {
    match FindCustomer(dir.customers, tg)
    case Some(c) => dir.(customers := dir.customers[c := Renamed(dir.customers[c], username, name)])
    case None => dir.(customers := dir.customers + [Customer(tg, username, name)])
  }

  // ---------- Excluded senders ----------

  function WithoutAt(username: string): string {
    if |username| > 0 && username[0] == '@' then username[1..] else username
  }

  predicate Blank(s: Option<string>) { s.None? || s.value == "" }

  predicate CreateExcludedOk(dir: Directory, tg: Option<int>, username: Option<string>, author: AgentId) {
    && !(tg.None? && Blank(username))
    && (tg.Some? ==> !HoldsId(dir.excluded, tg.value))
    && author < |dir.agents|
  }

  function CreateExcluded(dir: Directory, tg: Option<int>, username: Option<string>, about: About, author: AgentId): Directory {
    if !CreateExcludedOk(dir, tg, username, author) then dir
    else
      var stored := if username.Some? then Some(WithoutAt(username.value)) else None;
      dir.(excluded := dir.excluded[dir.nextExcluded := Excluded(tg, stored, true, about)],
           nextExcluded := dir.nextExcluded + 1)
  }

  /** Absent fields of an edit are kept. */
  function Edited(row: Excluded, about: About, isActive: Option<bool>): Excluded {
    row.(isActive := if isActive.Some? then isActive.value else row.isActive,
         about := About(if about.name.Some? then about.name else row.about.name,
                        if about.note.Some? then about.note else row.about.note))
  }

  function UpdateExcluded(dir: Directory, e: ExcludedId, about: About, isActive: Option<bool>): Directory {
    if e !in dir.excluded then dir
    else dir.(excluded := dir.excluded[e := Edited(dir.excluded[e], about, isActive)])
  }

  function RemoveExcluded(dir: Directory, e: ExcludedId): Directory {
    dir.(excluded := dir.excluded - {e})
  }

  const AUTO_NOTE := "Auto-added from \"Mark as not customer\""

  /** Upsert keyed by the Telegram id; creating needs the author to exist. */
  function Bar(dir: Directory, customer: Customer, author: AgentId): Directory {
    if HoldsId(dir.excluded, customer.telegramId) then
      dir.(excluded := map e | e in dir.excluded ::
        if dir.excluded[e].telegramId == Some(customer.telegramId)
        then dir.excluded[e].(isActive := true) else dir.excluded[e])
    else if author < |dir.agents| then
      dir.(excluded := dir.excluded[dir.nextExcluded :=
             Excluded(Some(customer.telegramId), customer.username, true, About(Some(customer.name), Some(AUTO_NOTE)))],
           nextExcluded := dir.nextExcluded + 1)
    else dir
  }

  // ---------- Chat settings, teams and agents ----------

  datatype Settings = Settings(
    group: Field<GroupId>, team: Field<TeamId>, assignee: Field<AgentId>, strategy: Option<Strategy>,
    priority: Option<Priority>, tags: Option<seq<string>>)

  predicate SettingsOk(dir: Directory, c: ChatId, s: Settings) {
    && c < |dir.chats|
    && (s.group.Set? ==> s.group.value < dir.groupCount)
    && (s.team.Set? ==> s.team.value < dir.teamCount)
    && (s.assignee.Set? ==> s.assignee.value < |dir.agents|)
  }

  function UpdateSettings(dir: Directory, c: ChatId, s: Settings): Directory {
    if !SettingsOk(dir, c, s) then dir
    else
      var chat := dir.chats[c];
      dir.(chats := dir.chats[c := chat.(
        team := s.team.Over(chat.team),
        assignee := s.assignee.Over(chat.assignee),
        strategy := if s.strategy.Some? then s.strategy.value else chat.strategy,
        priority := if s.priority.Some? then s.priority.value else chat.priority,
        group := s.group.Over(chat.group),
        tags := if s.tags.Some? then s.tags.value else chat.tags)])
  }

  function SetAgentActive(dir: Directory, a: AgentId, isActive: bool): Directory {
    if a < |dir.agents| then dir.(agents := dir.agents[a := dir.agents[a].(isActive := isActive)]) else dir
  }

  function AddMember(dir: Directory, team: TeamId, a: AgentId): Directory {
    if team < dir.teamCount && a < |dir.agents| then dir.(members := dir.members + {(team, a)}) else dir
  }

  function RemoveMember(dir: Directory, team: TeamId, a: AgentId): Directory {
    dir.(members := dir.members - {(team, a)})
  }

  /** The active members of a team, in whatever order the database returned them. */
  predicate IsMemberOrder(dir: Directory, team: TeamId, order: seq<AgentId>) {
    && (forall i, j :: 0 <= i < j < |order| ==> order[i] != order[j])
    && (forall i :: 0 <= i < |order| ==> IsActiveMember(dir, team, order[i]))
    && (forall m | m in dir.members :: m.0 == team && IsActiveMember(dir, team, m.1) ==> m.1 in order)
  }

  predicate IsActiveMember(dir: Directory, team: TeamId, a: AgentId) {
    (team, a) in dir.members && a < |dir.agents| && dir.agents[a].isActive
  }

  // ---------- Invariants ----------

  /** Unique columns and foreign keys. */
  ghost predicate DirInv(dir: Directory) {
    && (forall i, j :: 0 <= i < j < |dir.chats| ==> dir.chats[i].telegramId != dir.chats[j].telegramId)
    && (forall i, j :: 0 <= i < j < |dir.customers| ==> dir.customers[i].telegramId != dir.customers[j].telegramId)
    && (forall e, f | e in dir.excluded && f in dir.excluded ::
          dir.excluded[e].telegramId.Some? && dir.excluded[e].telegramId == dir.excluded[f].telegramId ==> e == f)
    && (forall e | e in dir.excluded :: e < dir.nextExcluded)
    && (forall i :: 0 <= i < |dir.chats| ==> dir.chats[i].team.Some? ==> dir.chats[i].team.value < dir.teamCount)
    && (forall i :: 0 <= i < |dir.chats| ==> dir.chats[i].assignee.Some? ==> dir.chats[i].assignee.value < |dir.agents|)
    && (forall i :: 0 <= i < |dir.chats| ==> dir.chats[i].group.Some? ==> dir.chats[i].group.value < dir.groupCount)
  }

  /** Chats and customers only ever gain rows, and never change hands. */
  ghost predicate Grows(a: Directory, b: Directory) {
    && |a.chats| <= |b.chats| && |a.customers| <= |b.customers|
    && |a.agents| == |b.agents| && a.teamCount == b.teamCount && a.labelCount == b.labelCount && a.groupCount == b.groupCount
    && a.idleMinutes == b.idleMinutes
    && (forall i :: 0 <= i < |a.chats| ==> b.chats[i].telegramId == a.chats[i].telegramId)
    && (forall i :: 0 <= i < |a.customers| ==> b.customers[i].telegramId == a.customers[i].telegramId)
  }

  lemma ClassifyKeeps(dir: Directory, tg: int, pick: Option<ExcludedId>)
    requires DirInv(dir)
    ensures DirInv(ClassifyWrites(dir, tg, pick)) && Grows(dir, ClassifyWrites(dir, tg, pick))
  {
  }

  lemma WithChatKeeps(dir: Directory, tg: int, title: string)
    requires DirInv(dir)
    ensures DirInv(WithChat(dir, tg, title)) && Grows(dir, WithChat(dir, tg, title))
  {
  }

  lemma WithCustomerKeeps(dir: Directory, tg: int, username: Option<string>, name: string)
    requires DirInv(dir)
    ensures DirInv(WithCustomer(dir, tg, username, name)) && Grows(dir, WithCustomer(dir, tg, username, name))
  {
  }

  lemma CreateExcludedKeeps(dir: Directory, tg: Option<int>, username: Option<string>, about: About, author: AgentId)
    requires DirInv(dir)
    ensures DirInv(CreateExcluded(dir, tg, username, about, author))
    ensures Grows(dir, CreateExcluded(dir, tg, username, about, author))
  {
  }

  lemma UpdateExcludedKeeps(dir: Directory, e: ExcludedId, about: About, isActive: Option<bool>)
    requires DirInv(dir)
    ensures DirInv(UpdateExcluded(dir, e, about, isActive)) && Grows(dir, UpdateExcluded(dir, e, about, isActive))
  {
  }

  lemma RemoveExcludedKeeps(dir: Directory, e: ExcludedId)
    requires DirInv(dir)
    ensures DirInv(RemoveExcluded(dir, e)) && Grows(dir, RemoveExcluded(dir, e))
  {
  }

  lemma BarKeeps(dir: Directory, customer: Customer, author: AgentId)
    requires DirInv(dir)
    ensures DirInv(Bar(dir, customer, author)) && Grows(dir, Bar(dir, customer, author))
    ensures author < |dir.agents| ==> Barred(Bar(dir, customer, author).excluded, customer.telegramId)
  {
    if HoldsId(dir.excluded, customer.telegramId) {
      var e :| e in dir.excluded && dir.excluded[e].telegramId == Some(customer.telegramId);
      assert Bar(dir, customer, author).excluded[e].isActive;
    } else if author < |dir.agents| {
      assert Bar(dir, customer, author).excluded[dir.nextExcluded].isActive;
    }
  }

  lemma SettingsKeep(dir: Directory, c: ChatId, s: Settings)
    requires DirInv(dir)
    ensures DirInv(UpdateSettings(dir, c, s)) && Grows(dir, UpdateSettings(dir, c, s))
  {
    if SettingsOk(dir, c, s) {
      var after := UpdateSettings(dir, c, s);
      assert after == dir.(chats := dir.chats[c := after.chats[c]]);
    }
  }

  lemma StaffKeeps(dir: Directory, a: AgentId, isActive: bool, team: TeamId)
    requires DirInv(dir)
    ensures DirInv(SetAgentActive(dir, a, isActive)) && Grows(dir, SetAgentActive(dir, a, isActive))
    ensures DirInv(AddMember(dir, team, a)) && Grows(dir, AddMember(dir, team, a))
    ensures DirInv(RemoveMember(dir, team, a)) && Grows(dir, RemoveMember(dir, team, a))
  {
  }

  // ---------- Exclusion persists ----------

  /** Classification of a barred sender never depends on the username and never writes. */
  lemma BarredIsIgnored(dir: Directory, tg: int, pick: Option<ExcludedId>)
    requires Barred(dir.excluded, tg)
    ensures Classify(dir, tg, pick).FromActiveAgent? || Classify(dir, tg, pick).FromExcluded?
    ensures ClassifyWrites(dir, tg, pick) == dir
  {
  }

  /** A sender recognised by username is barred by id from then on. */
  lemma BackfillBars(dir: Directory, tg: int, pick: Option<ExcludedId>, username: Option<string>)
    requires IsUsernamePick(dir.excluded, username, pick)
    requires Classify(dir, tg, pick).FromExcluded?
    ensures Barred(ClassifyWrites(dir, tg, pick).excluded, tg)
  {
    if !Barred(dir.excluded, tg) {
      assert ClassifyWrites(dir, tg, pick).excluded[pick.value].telegramId == Some(tg);
    }
  }
}
