/** The ticket list: what a query selects, and what following its cursors yields. */
module ListingSpec {
  import opened Types

  datatype AssigneeFilter = Unassigned | AssignedTo(agent: AgentId)

  /** The parts of a saved view the list understands. */
  datatype View = View(statuses: Option<seq<Status>>, assignee: Option<AssigneeFilter>)

  /** A list request. A saved view has been loaded already, and `found` is what the text search
      matched when one was asked for. */
  datatype Query = Query(
    view: Option<View>, status: Option<Status>, assignee: Option<AssigneeFilter>, team: Option<TeamId>,
    chat: Option<ChatId>, group: Option<GroupId>, tag: Option<LabelId>, found: Option<set<TicketId>>,
    cursor: Option<TicketId>, limit: nat)

  /** Absent conditions do not restrict. */
  datatype Where = Where(
    statuses: Option<seq<Status>>, assignee: Option<AssigneeFilter>, team: Option<TeamId>,
    chat: Option<ChatId>, group: Option<GroupId>, tag: Option<LabelId>, found: Option<set<TicketId>>)

  predicate AssignedLike(t: Ticket, a: AssigneeFilter) {
    match a
    case Unassigned => t.assignee.None?
    case AssignedTo(x) => t.assignee == Some(x)
  }

  predicate InGroup(chats: seq<Chat>, t: Ticket, g: GroupId) {
    t.chat < |chats| && chats[t.chat].group == Some(g)
  }

  predicate Matches(chats: seq<Chat>, tickets: seq<Ticket>, t: TicketId, w: Where)
    requires t < |tickets|
  {
    && (w.statuses.Some? ==> tickets[t].status in w.statuses.value)
    && (w.assignee.Some? ==> AssignedLike(tickets[t], w.assignee.value))
    && (w.team.Some? ==> tickets[t].team == w.team)
    && (w.chat.Some? ==> tickets[t].chat == w.chat.value)
    && (w.group.Some? ==> InGroup(chats, tickets[t], w.group.value))
    && (w.tag.Some? ==> w.tag.value in tickets[t].labels)
    && (w.found.Some? ==> t in w.found.value)
  }

  /** What the request means: its own status and assignee, or else the saved view's. */
  predicate Selects(q: Query, chats: seq<Chat>, tickets: seq<Ticket>, t: TicketId)
    requires t < |tickets|
  {
    && (if q.status.Some? then tickets[t].status == q.status.value
        else q.view.Some? && q.view.value.statuses.Some? ==> tickets[t].status in q.view.value.statuses.value)
    && (if q.assignee.Some? then AssignedLike(tickets[t], q.assignee.value)
        else q.view.Some? && q.view.value.assignee.Some? ==> AssignedLike(tickets[t], q.view.value.assignee.value))
    && (q.team.Some? ==> tickets[t].team == q.team)
    && (q.chat.Some? ==> tickets[t].chat == q.chat.value)
    && (q.group.Some? ==> InGroup(chats, tickets[t], q.group.value))
    && (q.tag.Some? ==> q.tag.value in tickets[t].labels)
    && (q.found.Some? ==> t in q.found.value)
  }

  // ---------- One page ----------

  function UpdateTime(tickets: seq<Ticket>, t: TicketId): int {
    if t < |tickets| then tickets[t].updatedAt else 0
  }

  ghost predicate Distinct(rows: seq<TicketId>) {
    forall i, j :: 0 <= i < j < |rows| ==> rows[i] != rows[j]
  }

  ghost predicate Sorted(tickets: seq<Ticket>, rows: seq<TicketId>) {
    forall i, j :: 0 <= i < j < |rows| ==> UpdateTime(tickets, rows[i]) >= UpdateTime(tickets, rows[j])
  }

  ghost predicate SameTickets(keep: set<TicketId>, rows: seq<TicketId>) {
    (forall i :: 0 <= i < |rows| ==> rows[i] in keep) && (forall t | t in keep :: t in rows)
  }

  /** `rows` lists exactly the kept tickets, most recently updated first. */
  ghost predicate IsListing(tickets: seq<Ticket>, keep: set<TicketId>, rows: seq<TicketId>) {
    Distinct(rows) && SameTickets(keep, rows) && Sorted(tickets, rows)
  }

  /** A cursor keeps the rows updated no later than its own. */
  function FromCursor(tickets: seq<Ticket>, keep: set<TicketId>, cursor: Option<TicketId>): set<TicketId> {
    set t | t in keep &&
      (cursor.Some? ==> cursor.value < |tickets| && UpdateTime(tickets, t) <= UpdateTime(tickets, cursor.value))
  }

  /** What "the cursor's row, then skip one" does among rows of the same time: skip the first of what
      the cursor keeps, or sort everything and skip through the cursor's own row. */
  datatype CursorReading = ByPosition | ByRow

  function Ranked(tickets: seq<Ticket>, keep: set<TicketId>, cursor: Option<TicketId>, how: CursorReading): set<TicketId> {
    match how
    case ByPosition => FromCursor(tickets, keep, cursor)
    case ByRow => keep
  }

  /** How many rows there are through this one, or in all if it is not among them. */
  function Through(rows: seq<TicketId>, t: TicketId): (n: nat)
    ensures n <= |rows|
  {
    if rows == [] then 0 else if rows[0] == t then 1 else 1 + Through(rows[1..], t)
  }

  function Skipped(rows: seq<TicketId>, cursor: Option<TicketId>, how: CursorReading): (n: nat)
    ensures n <= |rows|
  {
    if cursor.None? then 0
    else
      match how
      case ByPosition => Clip(1, rows)
      case ByRow => Through(rows, cursor.value)
  }

  function Clip(n: int, rows: seq<TicketId>): nat
    requires 0 <= n
  {
    if n <= |rows| then n else |rows|
  }

  /** What the query fetches: one more than a page, after the rows it skips. */
  function Fetched(rows: seq<TicketId>, cursor: Option<TicketId>, how: CursorReading, limit: nat): seq<TicketId> {
    var skip := Skipped(rows, cursor, how);
    rows[skip..Clip(skip + limit + 1, rows)]
  }

  datatype Page = Page(data: seq<TicketId>, next: Option<TicketId>)

  function PageOf(items: seq<TicketId>, limit: nat): Page
    requires 1 <= limit
  {
    if |items| > limit then Page(items[..limit], Some(items[limit - 1])) else Page(items, None)
  }

  /** A page the list may answer with: the database breaks ties as it likes, every time anew. */
  ghost predicate IsPage(tickets: seq<Ticket>, keep: set<TicketId>, cursor: Option<TicketId>, how: CursorReading, limit: nat,
                         page: Page)
    requires 1 <= limit
  {
    exists rows ::
      IsListing(tickets, Ranked(tickets, keep, cursor, how), rows) && page == PageOf(Fetched(rows, cursor, how, limit), limit)
  }

  /** The cursor the k-th page is asked for with. */
  function CursorAt(pages: seq<Page>, k: nat): Option<TicketId>
    requires k <= |pages|
  {
    if k == 0 then None else pages[k - 1].next
  }

  /** The k-th page answers the cursor of the page before it, and all but the last have one. */
  ghost predicate FollowsAt(tickets: seq<Ticket>, keep: set<TicketId>, how: CursorReading, limit: nat, pages: seq<Page>, k: nat)
    requires 1 <= limit && k < |pages|
  {
    && IsPage(tickets, keep, CursorAt(pages, k), how, limit, pages[k])
    && (k + 1 < |pages| ==> pages[k].next.Some?)
  }

  /** Pages obtained by following cursors from the start. */
  ghost predicate IsChain(tickets: seq<Ticket>, keep: set<TicketId>, how: CursorReading, limit: nat, pages: seq<Page>)
    requires 1 <= limit
  {
    forall k: nat :: k < |pages| ==> FollowsAt(tickets, keep, how, limit, pages, k)
  }

  function Concatenated(pages: seq<Page>): seq<TicketId> {
    if pages == [] then [] else Concatenated(pages[..|pages| - 1]) + pages[|pages| - 1].data
  }

  /** No other kept ticket was updated at the same time. */
  ghost predicate Lone(tickets: seq<Ticket>, keep: set<TicketId>, t: TicketId) {
    forall u | u in keep :: u != t ==> UpdateTime(tickets, u) != UpdateTime(tickets, t)
  }

  ghost predicate LoneBoundary(tickets: seq<Ticket>, keep: set<TicketId>, rows: seq<TicketId>, limit: nat, k: nat) {
    0 < k * limit < |rows| ==> Lone(tickets, keep, rows[k * limit - 1])
  }

  /** No full page of the list ends at a ticket that shares its update time. */
  ghost predicate LoneBoundaries(tickets: seq<Ticket>, keep: set<TicketId>, rows: seq<TicketId>, limit: nat) {
    forall k: nat :: LoneBoundary(tickets, keep, rows, limit, k)
  }

  /** No ticket is shown twice, and a chain that has ended has shown the whole list, in order. */
  ghost predicate VisitsOnce(tickets: seq<Ticket>, keep: set<TicketId>, pages: seq<Page>) {
    && Distinct(Concatenated(pages))
    && (pages != [] && pages[|pages| - 1].next.None? ==> IsListing(tickets, keep, Concatenated(pages)))
  }
}

/** What the conditions of a list request select. */
module SelectionLaws {
  import opened Types
  import opened ListingSpec

  const EVERYTHING := Query(None, None, None, None, None, None, None, None, None, 1)

  /** No condition selects every ticket. */
  lemma NothingAskedSelectsAll(chats: seq<Chat>, tickets: seq<Ticket>, t: TicketId)
    requires t < |tickets|
    ensures Selects(EVERYTHING, chats, tickets, t)
  {
  }

  /** What each condition asks for, on its own. */
  lemma OneConditionSelects(chats: seq<Chat>, tickets: seq<Ticket>, t: TicketId, status: Status, a: AgentId, team: TeamId,
                            c: ChatId, g: GroupId, l: LabelId, found: set<TicketId>)
    requires t < |tickets|
    ensures Selects(EVERYTHING.(status := Some(status)), chats, tickets, t) <==> tickets[t].status == status
    ensures Selects(EVERYTHING.(assignee := Some(AssignedTo(a))), chats, tickets, t) <==> tickets[t].assignee == Some(a)
    ensures Selects(EVERYTHING.(assignee := Some(Unassigned)), chats, tickets, t) <==> tickets[t].assignee == None
    ensures Selects(EVERYTHING.(team := Some(team)), chats, tickets, t) <==> tickets[t].team == Some(team)
    ensures Selects(EVERYTHING.(chat := Some(c)), chats, tickets, t) <==> tickets[t].chat == c
    ensures Selects(EVERYTHING.(group := Some(g)), chats, tickets, t) <==>
      tickets[t].chat < |chats| && chats[tickets[t].chat].group == Some(g)
    ensures Selects(EVERYTHING.(tag := Some(l)), chats, tickets, t) <==> l in tickets[t].labels
    ensures Selects(EVERYTHING.(found := Some(found)), chats, tickets, t) <==> t in found
  {
  }

  /** A saved view asks for its statuses and its assignee. */
  lemma ViewSelects(chats: seq<Chat>, tickets: seq<Ticket>, t: TicketId, view: View)
    requires t < |tickets|
    ensures Selects(EVERYTHING.(view := Some(view)), chats, tickets, t) <==>
      && (view.statuses.None? || tickets[t].status in view.statuses.value)
      && (view.assignee.None? || tickets[t].assignee == match view.assignee.value case Unassigned => None case AssignedTo(a) => Some(a))
  {
  }

  /** A request asks for all its conditions together, where its own status and assignee take the
      place of the view's. */
  lemma ConditionsAddUp(q: Query, chats: seq<Chat>, tickets: seq<Ticket>, t: TicketId)
    requires t < |tickets|
    ensures Selects(q, chats, tickets, t) <==>
      && Selects(EVERYTHING.(status := q.status), chats, tickets, t) && Selects(EVERYTHING.(assignee := q.assignee), chats, tickets, t)
      && Selects(EVERYTHING.(team := q.team), chats, tickets, t) && Selects(EVERYTHING.(chat := q.chat), chats, tickets, t)
      && Selects(EVERYTHING.(group := q.group), chats, tickets, t) && Selects(EVERYTHING.(tag := q.tag), chats, tickets, t)
      && Selects(EVERYTHING.(found := q.found), chats, tickets, t)
      && (q.view.Some? ==>
            Selects(EVERYTHING.(view := Some(View(
              if q.status.Some? then None else q.view.value.statuses,
              if q.assignee.Some? then None else q.view.value.assignee))), chats, tickets, t))
  {
  }
}

/** Sorted lists of tickets: that they exist, and where two of them must agree. */
module Listings {
  import opened Types
  import opened ListingSpec

  // ---------- Lists exist ----------

  function InsertAt(rows: seq<TicketId>, t: TicketId, k: nat): (after: seq<TicketId>)
    requires k <= |rows|
    ensures |after| == |rows| + 1
    ensures forall i :: 0 <= i < |after| ==> after[i] == if i < k then rows[i] else if i == k then t else rows[i - 1]
  {
    rows[..k] + [t] + rows[k..]
  }

  lemma InsertedDistinct(rows: seq<TicketId>, t: TicketId, k: nat)
    requires k <= |rows| && t !in rows && Distinct(rows)
    ensures Distinct(InsertAt(rows, t, k))
  {
  }

  lemma InsertedSorted(tickets: seq<Ticket>, rows: seq<TicketId>, t: TicketId, k: nat)
    requires k <= |rows| && Sorted(tickets, rows)
    requires forall i :: 0 <= i < k ==> UpdateTime(tickets, rows[i]) > UpdateTime(tickets, t)
    requires k < |rows| ==> UpdateTime(tickets, rows[k]) <= UpdateTime(tickets, t)
    ensures Sorted(tickets, InsertAt(rows, t, k))
  {
  }

  lemma InsertedHas(rows: seq<TicketId>, t: TicketId, k: nat, u: TicketId)
    requires k <= |rows|
    ensures u in InsertAt(rows, t, k) <==> u == t || u in rows
  {
    var after := InsertAt(rows, t, k);
    assert after[k] == t;
    if i :| 0 <= i < |rows| && rows[i] == u {
      assert after[if i < k then i else i + 1] == u;
    }
  }

  /** Inserting a ticket before the first that is not more recent. */
  lemma Inserted(tickets: seq<Ticket>, keep: set<TicketId>, rows: seq<TicketId>, t: TicketId, k: nat)
    requires IsListing(tickets, keep, rows) && t !in keep && k <= |rows|
    requires forall i :: 0 <= i < k ==> UpdateTime(tickets, rows[i]) > UpdateTime(tickets, t)
    requires k < |rows| ==> UpdateTime(tickets, rows[k]) <= UpdateTime(tickets, t)
    ensures IsListing(tickets, keep + {t}, InsertAt(rows, t, k))
  {
    InsertedDistinct(rows, t, k);
    InsertedSorted(tickets, rows, t, k);
    forall u: TicketId
      ensures u in InsertAt(rows, t, k) <==> u == t || u in rows
    {
      InsertedHas(rows, t, k, u);
    }
  }

  lemma PlaceFor(tickets: seq<Ticket>, rows: seq<TicketId>, t: TicketId) returns (k: nat)
    requires Sorted(tickets, rows)
    ensures k <= |rows| && (forall i :: 0 <= i < k ==> UpdateTime(tickets, rows[i]) > UpdateTime(tickets, t))
    ensures k < |rows| ==> UpdateTime(tickets, rows[k]) <= UpdateTime(tickets, t)
  {
    k := 0;
    while k < |rows| && UpdateTime(tickets, rows[k]) > UpdateTime(tickets, t)
      invariant k <= |rows|
      invariant forall i :: 0 <= i < k ==> UpdateTime(tickets, rows[i]) > UpdateTime(tickets, t)
    {
      k := k + 1;
    }
  }

  lemma {:induction false} ListingExists(tickets: seq<Ticket>, keep: set<TicketId>) returns (rows: seq<TicketId>)
    ensures IsListing(tickets, keep, rows)
    decreases |keep|
  {
    if keep == {} {
      rows := [];
    } else {
      var t :| t in keep;
      rows := ListingExists(tickets, keep - {t});
      var k := PlaceFor(tickets, rows, t);
      Inserted(tickets, keep - {t}, rows, t, k);
      rows := InsertAt(rows, t, k);
      assert keep - {t} + {t} == keep;
    }
  }

  // ---------- Lists agree on times ----------

  function Elements(rows: seq<TicketId>): set<TicketId> { set t | t in rows }

  lemma {:induction false} ElementCount(rows: seq<TicketId>)
    requires Distinct(rows)
    ensures |Elements(rows)| == |rows|
  {
    if rows != [] {
      var n := |rows| - 1;
      ElementCount(rows[..n]);
      assert Elements(rows) == Elements(rows[..n]) + {rows[n]};
      assert rows[n] !in rows[..n];
    }
  }

  lemma SubsetCount(a: set<TicketId>, b: set<TicketId>)
    requires a <= b
    ensures |a| <= |b|
  {
    assert b == a + (b - a);
  }

  lemma ListingSize(tickets: seq<Ticket>, keep: set<TicketId>, rows: seq<TicketId>)
    requires IsListing(tickets, keep, rows)
    ensures |rows| == |keep|
  {
    ElementCount(rows);
    assert Elements(rows) == keep;
  }

  /** The p-th of one list is no more recent than the p-th of another. */
  lemma NoMoreRecent(tickets: seq<Ticket>, keep: set<TicketId>, a: seq<TicketId>, b: seq<TicketId>, p: nat)
    requires IsListing(tickets, keep, a) && IsListing(tickets, keep, b) && p < |a| && p < |b|
    ensures UpdateTime(tickets, a[p]) <= UpdateTime(tickets, b[p])
  {
    if UpdateTime(tickets, a[p]) > UpdateTime(tickets, b[p]) {
      var early, late := Elements(a[..p + 1]), Elements(b[..p]);
      forall t | t in early
        ensures t in late
      {
        var i :| 0 <= i < p + 1 && a[i] == t;
        assert UpdateTime(tickets, t) >= UpdateTime(tickets, a[p]);
        assert t in keep && t in b;
        var j :| 0 <= j < |b| && b[j] == t;
        assert j < p;
        assert b[..p][j] == t;
      }
      ElementCount(a[..p + 1]);
      ElementCount(b[..p]);
      SubsetCount(early, late);
      assert false;
    }
  }

  /** A ticket that shares its time with no other is at the same place in every list. */
  lemma LoneStays(tickets: seq<Ticket>, keep: set<TicketId>, a: seq<TicketId>, b: seq<TicketId>, p: nat)
    requires IsListing(tickets, keep, a) && IsListing(tickets, keep, b) && p < |a| && Lone(tickets, keep, a[p])
    ensures p < |b| && b[p] == a[p]
  {
    ListingSize(tickets, keep, a);
    ListingSize(tickets, keep, b);
    NoMoreRecent(tickets, keep, a, b, p);
    NoMoreRecent(tickets, keep, b, a, p);
    assert b[p] in keep;
  }

  // ---------- Continuing from a ticket ----------

  lemma BeforeAndAfter(tickets: seq<Ticket>, keep: set<TicketId>, rows: seq<TicketId>, p: nat, i: nat)
    requires IsListing(tickets, keep, rows) && p < |rows| && i < |rows|
    requires Lone(tickets, keep, rows[p]) && rows[p] < |tickets|
    ensures rows[i] in FromCursor(tickets, keep, Some(rows[p])) <==> p <= i
  {
    assert rows[i] in keep && rows[p] in keep;
    if i < p {
      assert UpdateTime(tickets, rows[i]) >= UpdateTime(tickets, rows[p]) && rows[i] != rows[p];
    } else if p < i {
      assert UpdateTime(tickets, rows[p]) >= UpdateTime(tickets, rows[i]);
    }
  }

  /** From a lone ticket on, the rest of a list is a list of what its cursor keeps. */
  lemma SuffixLists(tickets: seq<Ticket>, keep: set<TicketId>, rows: seq<TicketId>, p: nat)
    requires IsListing(tickets, keep, rows) && p < |rows| && Lone(tickets, keep, rows[p]) && rows[p] < |tickets|
    ensures IsListing(tickets, FromCursor(tickets, keep, Some(rows[p])), rows[p..])
  {
    var from, rest := FromCursor(tickets, keep, Some(rows[p])), rows[p..];
    forall i: nat | i < |rows|
      ensures rows[i] in from <==> p <= i
    {
      BeforeAndAfter(tickets, keep, rows, p, i);
    }
    assert forall i :: 0 <= i < |rest| ==> rest[i] == rows[p + i];
    forall t | t in from
      ensures t in rest
    {
      assert t in rows;
      var i :| 0 <= i < |rows| && rows[i] == t;
      assert rest[i - p] == t;
    }
  }

  /** Whatever list the cursor of a lone ticket yields, it starts with that ticket. */
  lemma StartsWithCursor(tickets: seq<Ticket>, keep: set<TicketId>, t: TicketId, found: seq<TicketId>)
    requires t in keep && t < |tickets| && Lone(tickets, keep, t)
    requires IsListing(tickets, FromCursor(tickets, keep, Some(t)), found)
    ensures found != [] && found[0] == t
  {
    assert t in FromCursor(tickets, keep, Some(t)) && t in found;
    var j :| 0 <= j < |found| && found[j] == t;
    assert found[0] in FromCursor(tickets, keep, Some(t));
  }

  /** The rows before a lone ticket, continued by any list of what its cursor keeps. */
  lemma Spliced(tickets: seq<Ticket>, keep: set<TicketId>, rows: seq<TicketId>, p: nat, found: seq<TicketId>)
    requires IsListing(tickets, keep, rows) && p < |rows| && Lone(tickets, keep, rows[p]) && rows[p] < |tickets|
    requires IsListing(tickets, FromCursor(tickets, keep, Some(rows[p])), found)
    ensures IsListing(tickets, keep, rows[..p] + found)
  {
    var from, head := FromCursor(tickets, keep, Some(rows[p])), rows[..p];
    forall i: nat | i < |rows|
      ensures rows[i] in from <==> p <= i
    {
      BeforeAndAfter(tickets, keep, rows, p, i);
    }
    JoinedDistinct(head, found, from);
    JoinedSorted(tickets, keep, head, found, from);
    forall t | t in keep
      ensures t in head + found
    {
      if t !in from {
        assert t in rows;
        var i :| 0 <= i < |rows| && rows[i] == t;
        assert head[i] == t;
      }
    }
  }

  lemma JoinedDistinct(head: seq<TicketId>, tail: seq<TicketId>, from: set<TicketId>)
    requires Distinct(head) && Distinct(tail)
    requires (forall i :: 0 <= i < |head| ==> head[i] !in from) && (forall i :: 0 <= i < |tail| ==> tail[i] in from)
    ensures Distinct(head + tail)
  {
  }

  lemma JoinedSorted(tickets: seq<Ticket>, keep: set<TicketId>, head: seq<TicketId>, tail: seq<TicketId>, from: set<TicketId>)
    requires Sorted(tickets, head) && Sorted(tickets, tail) && from <= keep
    requires forall t, u | t in keep && u in from :: t !in from ==> UpdateTime(tickets, t) > UpdateTime(tickets, u)
    requires (forall i :: 0 <= i < |head| ==> head[i] in keep && head[i] !in from)
    requires (forall i :: 0 <= i < |tail| ==> tail[i] in from)
    ensures Sorted(tickets, head + tail)
  {
  }
}

/** Following the cursors visits the whole list once, exactly when no page ends in a tie. */
module Paging {
  import opened Types
  import opened ListingSpec
  import opened Listings
  import opened Engine
  import opened Reachable
  import opened StrictTime

  // ---------- Pages as slices ----------

  /** The page after the first `done` rows of the list. */
  function Slice(rows: seq<TicketId>, limit: nat, done: nat): Page
    requires 1 <= limit && done <= |rows|
  {
    if done + limit < |rows| then Page(rows[done..done + limit], Some(rows[done + limit - 1])) else Page(rows[done..], None)
  }

  lemma FetchedFirst(rows: seq<TicketId>, how: CursorReading, limit: nat)
    requires 1 <= limit
    ensures PageOf(Fetched(rows, None, how, limit), limit) == Slice(rows, limit, 0)
  {
    assert rows[..Clip(limit + 1, rows)][..Clip(limit, rows)] == rows[..Clip(limit, rows)];
  }

  lemma SliceOfSuffix(rows: seq<TicketId>, a: nat, b: nat, c: nat)
    requires a <= |rows| && b <= c <= |rows| - a
    ensures rows[a..][b..c] == rows[a + b..a + c]
  {
  }

  lemma FetchedNext(rows: seq<TicketId>, limit: nat, done: nat)
    requires 1 <= limit && 0 < done <= |rows|
    ensures PageOf(Fetched(rows[done - 1..], Some(rows[done - 1]), ByPosition, limit), limit) == Slice(rows, limit, done)
  {
    var rest := rows[done - 1..];
    var stop := Clip(limit + 2, rest);
    SliceOfSuffix(rows, done - 1, 1, stop);
    assert Fetched(rest, Some(rows[done - 1]), ByPosition, limit) == rows[done..done - 1 + stop];
    if done + limit < |rows| {
      assert rows[done..done - 1 + stop][..limit] == rows[done..done + limit];
    }
  }

  lemma {:induction false} ThroughAt(rows: seq<TicketId>, p: nat)
    requires Distinct(rows) && p < |rows|
    ensures Through(rows, rows[p]) == p + 1
  {
    if p > 0 {
      assert rows[1..][p - 1] == rows[p] && rows[0] != rows[p];
      ThroughAt(rows[1..], p - 1);
    }
  }

  lemma FetchedAfter(rows: seq<TicketId>, limit: nat, p: nat)
    requires 1 <= limit && Distinct(rows) && p < |rows|
    ensures PageOf(Fetched(rows, Some(rows[p]), ByRow, limit), limit) == Slice(rows, limit, p + 1)
  {
    ThroughAt(rows, p);
    var stop := Clip(p + 1 + limit + 1, rows);
    assert Fetched(rows, Some(rows[p]), ByRow, limit) == rows[p + 1..stop];
    if p + 1 + limit < |rows| {
      assert rows[p + 1..stop][..limit] == rows[p + 1..p + 1 + limit];
    }
  }

  /** The k-th page begins right after k full pages, and is not beyond the end. */
  predicate SlicedAt(rows: seq<TicketId>, limit: nat, pages: seq<Page>, k: nat)
    requires 1 <= limit && k < |pages|
  {
    k * limit <= |rows| && (0 < k ==> k * limit < |rows|) && pages[k] == Slice(rows, limit, k * limit)
  }

  ghost predicate Sliced(rows: seq<TicketId>, limit: nat, pages: seq<Page>)
    requires 1 <= limit
  {
    forall k: nat :: k < |pages| ==> SlicedAt(rows, limit, pages, k)
  }

  lemma NextFull(k: nat, limit: nat)
    ensures (k + 1) * limit == k * limit + limit && 0 <= k * limit
  {
  }

  /** Lists that agree on n full pages, and do not end there, have the same first n pages. */
  lemma SlicePrefix(a: seq<TicketId>, b: seq<TicketId>, limit: nat, k: nat, n: nat)
    requires 1 <= limit && k < n && n * limit < |a| == |b| && a[..n * limit] == b[..n * limit]
    ensures 0 <= k * limit <= |a| && Slice(a, limit, k * limit) == Slice(b, limit, k * limit)
  {
    assert n * limit == k * limit + (n - k) * limit;
    assert (n - k) * limit == (n - k - 1) * limit + limit;
    NextFull(n - k - 1, limit);
    NextFull(k, limit);
    var s, e, stop := k * limit, k * limit + limit, n * limit;
    assert e <= stop;
    assert a[s..e] == a[..stop][s..e] && b[s..e] == b[..stop][s..e];
    assert a[e - 1] == a[..stop][e - 1] && b[e - 1] == b[..stop][e - 1];
  }

  lemma {:induction false} SlicesConcatenate(rows: seq<TicketId>, limit: nat, pages: seq<Page>, k: nat)
    requires 1 <= limit && k <= |pages| && Sliced(rows, limit, pages)
    ensures 0 <= k * limit && Concatenated(pages[..k]) == rows[..Clip(k * limit, rows)]
    decreases k
  {
    if k > 0 {
      SlicesConcatenate(rows, limit, pages, k - 1);
      NextFull(k - 1, limit);
      assert SlicedAt(rows, limit, pages, k - 1);
      ConcatenatedStep(pages, k);
      SliceAppends(rows, limit, (k - 1) * limit);
    }
  }

  lemma ConcatenatedStep(pages: seq<Page>, k: nat)
    requires 0 < k <= |pages|
    ensures Concatenated(pages[..k]) == Concatenated(pages[..k - 1]) + pages[k - 1].data
  {
    assert pages[..k][..k - 1] == pages[..k - 1];
  }

  lemma SliceAppends(rows: seq<TicketId>, limit: nat, done: nat)
    requires 1 <= limit && done <= |rows|
    ensures rows[..done] + Slice(rows, limit, done).data == rows[..Clip(done + limit, rows)]
  {
  }

  // ---------- Where no page ends in a tie ----------

  ghost predicate InTable(tickets: seq<Ticket>, keep: set<TicketId>) {
    forall t | t in keep :: t < |tickets|
  }

  lemma FirstPage(tickets: seq<Ticket>, keep: set<TicketId>, how: CursorReading, limit: nat, page: Page)
    returns (rows: seq<TicketId>)
    requires 1 <= limit && IsPage(tickets, keep, None, how, limit, page)
    ensures IsListing(tickets, keep, rows) && page == Slice(rows, limit, 0)
  {
    rows :| IsListing(tickets, Ranked(tickets, keep, None, how), rows) && page == PageOf(Fetched(rows, None, how, limit), limit);
    assert FromCursor(tickets, keep, None) == keep;
    FetchedFirst(rows, how, limit);
  }

  /** A cursor that shares its time with no other is read alike either way. */
  lemma LoneCursor(tickets: seq<Ticket>, keep: set<TicketId>, t: TicketId, how: CursorReading, limit: nat, page: Page)
    requires 1 <= limit && InTable(tickets, keep) && t in keep && Lone(tickets, keep, t)
    requires IsPage(tickets, keep, Some(t), how, limit, page)
    ensures IsPage(tickets, keep, Some(t), ByPosition, limit, page)
  {
    if how.ByRow? {
      var rows :| IsListing(tickets, Ranked(tickets, keep, Some(t), ByRow), rows)
        && page == PageOf(Fetched(rows, Some(t), ByRow, limit), limit);
      assert t in rows;
      var p: nat :| p < |rows| && rows[p] == t;
      FetchedAfter(rows, limit, p);
      SlicedPage(tickets, keep, rows, ByPosition, limit, p + 1);
    }
  }

  /** The page after the first `done` rows of a list continues some list with the same first rows. */
  lemma NextPage(tickets: seq<Ticket>, keep: set<TicketId>, rows: seq<TicketId>, how: CursorReading, limit: nat, done: nat,
                 page: Page)
    returns (more: seq<TicketId>)
    requires 1 <= limit && InTable(tickets, keep) && IsListing(tickets, keep, rows) && 0 < done <= |rows|
    requires Lone(tickets, keep, rows[done - 1]) && IsPage(tickets, keep, Some(rows[done - 1]), how, limit, page)
    ensures IsListing(tickets, keep, more) && |more| == |rows| && more[..done] == rows[..done]
    ensures page == Slice(more, limit, done)
  {
    var t := rows[done - 1];
    assert t in keep;
    LoneCursor(tickets, keep, t, how, limit, page);
    var found :| IsListing(tickets, Ranked(tickets, keep, Some(t), ByPosition), found)
      && page == PageOf(Fetched(found, Some(t), ByPosition, limit), limit);
    ContinuedBy(tickets, keep, rows, limit, done, found);
    more := rows[..done - 1] + found;
  }

  lemma ContinuedBy(tickets: seq<Ticket>, keep: set<TicketId>, rows: seq<TicketId>, limit: nat, done: nat, found: seq<TicketId>)
    requires 1 <= limit && InTable(tickets, keep) && IsListing(tickets, keep, rows) && 0 < done <= |rows|
    requires Lone(tickets, keep, rows[done - 1]) && IsListing(tickets, FromCursor(tickets, keep, Some(rows[done - 1])), found)
    ensures var more := rows[..done - 1] + found;
      && IsListing(tickets, keep, more) && |more| == |rows| && more[..done] == rows[..done]
      && PageOf(Fetched(found, Some(rows[done - 1]), ByPosition, limit), limit) == Slice(more, limit, done)
  {
    assert rows[done - 1] in keep;
    StartsWithCursor(tickets, keep, rows[done - 1], found);
    Spliced(tickets, keep, rows, done - 1, found);
    SameSize(tickets, keep, rows[..done - 1] + found, rows);
    FetchedSpliced(rows, found, limit, done);
  }

  lemma SameSize(tickets: seq<Ticket>, keep: set<TicketId>, a: seq<TicketId>, b: seq<TicketId>)
    requires IsListing(tickets, keep, a) && IsListing(tickets, keep, b)
    ensures |a| == |b|
  {
    ListingSize(tickets, keep, a);
    ListingSize(tickets, keep, b);
  }

  lemma SplicedAt(rows: seq<TicketId>, p: nat, found: seq<TicketId>)
    requires p < |rows| && found != [] && found[0] == rows[p]
    ensures var more := rows[..p] + found;
      more[p..] == found && more[p] == rows[p] && more[..p + 1] == rows[..p + 1]
  {
  }

  lemma FetchedSpliced(rows: seq<TicketId>, found: seq<TicketId>, limit: nat, done: nat)
    requires 1 <= limit && 0 < done <= |rows| && found != [] && found[0] == rows[done - 1]
    ensures var more := rows[..done - 1] + found;
      && done <= |more| && more[..done] == rows[..done]
      && PageOf(Fetched(found, Some(rows[done - 1]), ByPosition, limit), limit) == Slice(more, limit, done)
  {
    SplicedAt(rows, done - 1, found);
    FetchedNext(rows[..done - 1] + found, limit, done);
  }

  lemma ChainPrefix(tickets: seq<Ticket>, keep: set<TicketId>, how: CursorReading, limit: nat, pages: seq<Page>)
    requires 1 <= limit && IsChain(tickets, keep, how, limit, pages) && pages != []
    ensures IsChain(tickets, keep, how, limit, pages[..|pages| - 1])
  {
    var rest := pages[..|pages| - 1];
    forall k: nat | k < |rest|
      ensures FollowsAt(tickets, keep, how, limit, rest, k)
    {
      assert FollowsAt(tickets, keep, how, limit, pages, k);
      assert CursorAt(rest, k) == CursorAt(pages, k) && rest[k] == pages[k];
    }
  }

  /** A chain is sliced from one list, though the database may answer each query from another. */
  lemma {:induction false} ChainIsSliced(tickets: seq<Ticket>, keep: set<TicketId>, rows: seq<TicketId>,
                                         how: CursorReading, limit: nat, pages: seq<Page>)
    returns (list: seq<TicketId>)
    requires 1 <= limit && InTable(tickets, keep) && IsListing(tickets, keep, rows)
    requires LoneBoundaries(tickets, keep, rows, limit) && IsChain(tickets, keep, how, limit, pages)
    ensures IsListing(tickets, keep, list) && Sliced(list, limit, pages)
    decreases |pages|
  {
    if pages == [] {
      list := rows;
    } else if |pages| == 1 {
      assert FollowsAt(tickets, keep, how, limit, pages, 0);
      list := FirstPage(tickets, keep, how, limit, pages[0]);
      OnlyPage(list, limit, pages);
    } else {
      ChainPrefix(tickets, keep, how, limit, pages);
      var before := ChainIsSliced(tickets, keep, rows, how, limit, pages[..|pages| - 1]);
      list := LastPage(tickets, keep, rows, before, how, limit, pages);
    }
  }

  lemma LastPage(tickets: seq<Ticket>, keep: set<TicketId>, rows: seq<TicketId>, before: seq<TicketId>,
                 how: CursorReading, limit: nat, pages: seq<Page>)
    returns (list: seq<TicketId>)
    requires 1 <= limit && InTable(tickets, keep) && IsListing(tickets, keep, rows) && IsListing(tickets, keep, before)
    requires LoneBoundaries(tickets, keep, rows, limit) && IsChain(tickets, keep, how, limit, pages) && |pages| > 1
    requires Sliced(before, limit, pages[..|pages| - 1])
    ensures IsListing(tickets, keep, list) && Sliced(list, limit, pages)
  {
    var n := |pages| - 1;
    assert FollowsAt(tickets, keep, how, limit, pages, n - 1) && FollowsAt(tickets, keep, how, limit, pages, n);
    LastCursor(before, limit, pages);
    BoundaryStays(tickets, keep, rows, before, limit, n);
    list := NextPage(tickets, keep, before, how, limit, n * limit, pages[n]);
    OneMorePage(before, list, limit, pages);
  }

  lemma LastCursor(before: seq<TicketId>, limit: nat, pages: seq<Page>)
    requires 1 <= limit && |pages| > 1 && Sliced(before, limit, pages[..|pages| - 1]) && pages[|pages| - 2].next.Some?
    ensures var n := |pages| - 1;
      0 < n * limit < |before| && CursorAt(pages, n) == Some(before[n * limit - 1])
  {
    var n := |pages| - 1;
    assert SlicedAt(before, limit, pages[..n], n - 1);
    NextFull(n - 1, limit);
  }

  lemma OnlyPage(list: seq<TicketId>, limit: nat, pages: seq<Page>)
    requires 1 <= limit && |pages| == 1 && pages[0] == Slice(list, limit, 0)
    ensures Sliced(list, limit, pages)
  {
    assert 0 * limit == 0;
  }

  lemma BoundaryStays(tickets: seq<Ticket>, keep: set<TicketId>, rows: seq<TicketId>, list: seq<TicketId>, limit: nat, n: nat)
    requires IsListing(tickets, keep, rows) && IsListing(tickets, keep, list)
    requires LoneBoundaries(tickets, keep, rows, limit) && 0 < n * limit < |list|
    ensures Lone(tickets, keep, list[n * limit - 1])
  {
    SameSize(tickets, keep, rows, list);
    assert LoneBoundary(tickets, keep, rows, limit, n);
    LoneStays(tickets, keep, rows, list, n * limit - 1);
  }

  lemma OneMorePage(before: seq<TicketId>, list: seq<TicketId>, limit: nat, pages: seq<Page>)
    requires 1 <= limit && |pages| > 1 && Sliced(before, limit, pages[..|pages| - 1])
    requires var n := |pages| - 1;
      && 0 < n * limit < |before| == |list| && list[..n * limit] == before[..n * limit]
      && pages[n] == Slice(list, limit, n * limit)
    ensures Sliced(list, limit, pages)
  {
    var n := |pages| - 1;
    forall k: nat | k < |pages|
      ensures SlicedAt(list, limit, pages, k)
    {
      if k < n {
        assert SlicedAt(before, limit, pages[..n], k);
        SlicePrefix(before, list, limit, k, n);
      }
    }
  }

  lemma PrefixDistinct(rows: seq<TicketId>, n: nat)
    requires Distinct(rows) && n <= |rows|
    ensures Distinct(rows[..n])
  {
  }

  /** When no page ends in a tie, for every filter and every page size: following the cursors from
      the start ends once the rows are used up, no ticket is shown twice, and the pages together
      are the whole list, whichever way the cursor is read. */
  lemma CursorsVisitEverythingOnce(tickets: seq<Ticket>, keep: set<TicketId>, rows: seq<TicketId>, how: CursorReading, limit: nat,
                                   pages: seq<Page>)
    requires 1 <= limit && InTable(tickets, keep) && IsListing(tickets, keep, rows)
    requires LoneBoundaries(tickets, keep, rows, limit) && IsChain(tickets, keep, how, limit, pages)
    ensures VisitsOnce(tickets, keep, pages)
    ensures pages != [] ==> (|pages| - 1) * limit <= |rows|
    ensures pages != [] ==> (pages[|pages| - 1].next.None? <==> |rows| <= |pages| * limit)
  {
    var list := ChainIsSliced(tickets, keep, rows, how, limit, pages);
    SameSize(tickets, keep, rows, list);
    SlicesConcatenate(list, limit, pages, |pages|);
    assert pages[..|pages|] == pages;
    PrefixDistinct(list, Clip(|pages| * limit, list));
    if pages != [] {
      assert SlicedAt(list, limit, pages, |pages| - 1);
      NextFull(|pages| - 1, limit);
    }
  }

  // ---------- Where a page does end in a tie ----------

  /** The page after a tied cursor may show the cursor's ticket again. */
  lemma TiedCursorRepeats(tickets: seq<Ticket>, keep: set<TicketId>, t: TicketId, u: TicketId, limit: nat) returns (page: Page)
    requires 1 <= limit && InTable(tickets, keep) && t in keep && u in keep && t != u
    requires UpdateTime(tickets, t) == UpdateTime(tickets, u)
    ensures IsPage(tickets, keep, Some(t), ByPosition, limit, page) && page.data != [] && page.data[0] == t
  {
    var from := FromCursor(tickets, keep, Some(t));
    var rest := ListingExists(tickets, from - {t, u});
    var found := [u, t] + rest;
    assert found[0] == u && found[1] == t;
    assert forall i :: 2 <= i < |found| ==> found[i] == rest[i - 2];
    forall x | x in from
      ensures x in found
    {
      if x != t && x != u {
        assert x in rest;
        var i :| 0 <= i < |rest| && rest[i] == x;
        assert found[i + 2] == x;
      }
    }
    assert IsListing(tickets, from, found);
    page := PageOf(Fetched(found, Some(t), ByPosition, limit), limit);
    assert Fetched(found, Some(t), ByPosition, limit)[0] == t;
  }

  /** The first k pages cut from a list. */
  function Slices(rows: seq<TicketId>, limit: nat, k: nat): (pages: seq<Page>)
    requires 1 <= limit && k * limit <= |rows|
    ensures |pages| == k
    decreases k
  {
    if k == 0 then []
    else
      NextFull(k - 1, limit);
      Slices(rows, limit, k - 1) + [Slice(rows, limit, (k - 1) * limit)]
  }

  lemma {:induction false} SlicesAreSliced(rows: seq<TicketId>, limit: nat, k: nat, n: nat)
    requires 1 <= limit && k * limit < |rows| && n < k
    ensures SlicedAt(rows, limit, Slices(rows, limit, k), n) && Slices(rows, limit, k)[n].next.Some?
    decreases k
  {
    NextFull(k - 1, limit);
    if n < k - 1 {
      SlicesAreSliced(rows, limit, k - 1, n);
    }
  }

  /** As long as no page ends in a tie, the pages cut from a list are a chain. */
  lemma SlicesAreChain(tickets: seq<Ticket>, keep: set<TicketId>, rows: seq<TicketId>, how: CursorReading, limit: nat, k: nat)
    requires 1 <= limit && InTable(tickets, keep) && IsListing(tickets, keep, rows) && k * limit < |rows|
    requires forall n: nat :: n < k ==> LoneBoundary(tickets, keep, rows, limit, n)
    ensures IsChain(tickets, keep, how, limit, Slices(rows, limit, k))
  {
    forall n: nat | n < k
      ensures FollowsAt(tickets, keep, how, limit, Slices(rows, limit, k), n)
    {
      SliceFollows(tickets, keep, rows, how, limit, k, n);
    }
  }

  lemma SliceFollows(tickets: seq<Ticket>, keep: set<TicketId>, rows: seq<TicketId>, how: CursorReading, limit: nat, k: nat,
                     n: nat)
    requires 1 <= limit && InTable(tickets, keep) && IsListing(tickets, keep, rows) && k * limit < |rows| && n < k
    requires LoneBoundary(tickets, keep, rows, limit, n)
    ensures FollowsAt(tickets, keep, how, limit, Slices(rows, limit, k), n)
  {
    SlicesAreSliced(rows, limit, k, n);
    if n == 0 {
      assert FromCursor(tickets, keep, None) == keep;
      FetchedFirst(rows, how, limit);
      assert 0 * limit == 0;
    } else {
      CursorOfSlice(rows, limit, k, n);
      SlicedPage(tickets, keep, rows, how, limit, n * limit);
    }
  }

  lemma CursorOfSlice(rows: seq<TicketId>, limit: nat, k: nat, n: nat)
    requires 1 <= limit && 0 < n < k && k * limit < |rows|
    ensures 0 < n * limit < |rows| && CursorAt(Slices(rows, limit, k), n) == Some(rows[n * limit - 1])
    ensures Slices(rows, limit, k)[n] == Slice(rows, limit, n * limit)
  {
    SlicesAreSliced(rows, limit, k, n);
    SlicesAreSliced(rows, limit, k, n - 1);
    NextFull(n - 1, limit);
  }

  lemma SlicedPage(tickets: seq<Ticket>, keep: set<TicketId>, rows: seq<TicketId>, how: CursorReading, limit: nat, done: nat)
    requires 1 <= limit && InTable(tickets, keep) && IsListing(tickets, keep, rows) && 0 < done <= |rows|
    requires Lone(tickets, keep, rows[done - 1])
    ensures IsPage(tickets, keep, Some(rows[done - 1]), how, limit, Slice(rows, limit, done))
  {
    assert rows[done - 1] in keep;
    match how
    case ByPosition =>
      SuffixLists(tickets, keep, rows, done - 1);
      FetchedNext(rows, limit, done);
    case ByRow =>
      FetchedAfter(rows, limit, done - 1);
  }

  /** The first page that ends in a tie can be followed by one that shows its last ticket again. */
  lemma FirstTieRepeats(tickets: seq<Ticket>, keep: set<TicketId>, rows: seq<TicketId>, limit: nat, k: nat)
    returns (pages: seq<Page>)
    requires 1 <= limit && InTable(tickets, keep) && IsListing(tickets, keep, rows)
    requires !LoneBoundary(tickets, keep, rows, limit, k)
    requires forall n: nat :: n < k ==> LoneBoundary(tickets, keep, rows, limit, n)
    ensures IsChain(tickets, keep, ByPosition, limit, pages) && !Distinct(Concatenated(pages))
  {
    var u := TiedNeighbour(tickets, keep, rows, limit, k);
    var p, cut := k * limit - 1, Slices(rows, limit, k);
    SlicesAreChain(tickets, keep, rows, ByPosition, limit, k);
    LastOfSlices(rows, limit, k);
    var again := TiedCursorRepeats(tickets, keep, rows[p], u, limit);
    pages := cut + [again];
    ChainGrows(tickets, keep, ByPosition, limit, cut, again);
    ShownTwice(rows, limit, k, again, p);
  }

  /** The list with the tickets at two places exchanged. */
  function Swapped(rows: seq<TicketId>, i: nat, p: nat): (other: seq<TicketId>)
    requires i < |rows| && p < |rows|
    ensures |other| == |rows| && other[i] == rows[p] && other[p] == rows[i]
    ensures forall j :: 0 <= j < |rows| && j != i && j != p ==> other[j] == rows[j]
  {
    rows[i := rows[p]][p := rows[i]]
  }

  lemma SwappedLists(tickets: seq<Ticket>, keep: set<TicketId>, rows: seq<TicketId>, i: nat, p: nat)
    requires IsListing(tickets, keep, rows) && i < |rows| && p < |rows|
    requires UpdateTime(tickets, rows[i]) == UpdateTime(tickets, rows[p])
    ensures IsListing(tickets, keep, Swapped(rows, i, p))
  {
    SwappedDistinct(rows, i, p);
    SwappedSorted(tickets, rows, i, p);
    var other := Swapped(rows, i, p);
    forall t | t in keep
      ensures t in other
    {
      assert t in rows;
      var j :| 0 <= j < |rows| && rows[j] == t;
      assert other[if j == i then p else if j == p then i else j] == t;
    }
  }

  lemma SwappedDistinct(rows: seq<TicketId>, i: nat, p: nat)
    requires Distinct(rows) && i < |rows| && p < |rows|
    ensures Distinct(Swapped(rows, i, p))
  {
  }

  lemma SwappedSorted(tickets: seq<Ticket>, rows: seq<TicketId>, i: nat, p: nat)
    requires Sorted(tickets, rows) && i < |rows| && p < |rows| && UpdateTime(tickets, rows[i]) == UpdateTime(tickets, rows[p])
    ensures Sorted(tickets, Swapped(rows, i, p))
  {
    var other := Swapped(rows, i, p);
    assert forall j :: 0 <= j < |rows| ==> UpdateTime(tickets, other[j]) == UpdateTime(tickets, rows[j]);
  }

  lemma PageAfter(tickets: seq<Ticket>, keep: set<TicketId>, list: seq<TicketId>, limit: nat, i: nat)
    requires 1 <= limit && IsListing(tickets, keep, list) && i < |list|
    ensures IsPage(tickets, keep, Some(list[i]), ByRow, limit, Slice(list, limit, i + 1))
  {
    FetchedAfter(list, limit, i);
  }

  /** Everything shown was shown before, or is in the list from its i-th row on. */
  ghost predicate OnlyAdds(all: seq<TicketId>, before: seq<TicketId>, list: seq<TicketId>, i: nat) {
    forall x :: 0 <= x < |all| ==> all[x] in before || exists j :: i <= j < |list| && list[j] == all[x]
  }

  lemma SliceOnlyAdds(before: seq<TicketId>, list: seq<TicketId>, limit: nat, i: nat)
    requires 1 <= limit && i <= |list|
    ensures OnlyAdds(before + Slice(list, limit, i).data, before, list, i)
  {
    var data := Slice(list, limit, i).data;
    forall x | 0 <= x < |before + data|
      ensures (before + data)[x] in before || exists j :: i <= j < |list| && list[j] == (before + data)[x]
    {
      if |before| <= x {
        assert list[i + x - |before|] == (before + data)[x];
      }
    }
  }

  lemma OnlyAddsMore(all: seq<TicketId>, mid: seq<TicketId>, before: seq<TicketId>, list: seq<TicketId>, i: nat, j: nat)
    requires OnlyAdds(mid, before, list, i) && OnlyAdds(all, mid, list, j) && i <= j
    ensures OnlyAdds(all, before, list, i)
  {
    forall x | 0 <= x < |all|
      ensures all[x] in before || exists k :: i <= k < |list| && list[k] == all[x]
    {
      if all[x] in mid {
        var y :| 0 <= y < |mid| && mid[y] == all[x];
      }
    }
  }

  /** Continuing through one list until it is used up. */
  lemma {:induction false} Completed(tickets: seq<Ticket>, keep: set<TicketId>, list: seq<TicketId>, limit: nat, i: nat,
                                     cut: seq<Page>)
    returns (pages: seq<Page>)
    requires 1 <= limit && IsListing(tickets, keep, list) && i < |list|
    requires IsChain(tickets, keep, ByRow, limit, cut) && cut != [] && cut[|cut| - 1].next == Some(list[i])
    ensures IsChain(tickets, keep, ByRow, limit, pages) && pages != [] && pages[|pages| - 1].next.None?
    ensures OnlyAdds(Concatenated(pages), Concatenated(cut), list, i + 1)
    decreases |list| - i
  {
    var mid := NextOf(tickets, keep, list, limit, i, cut);
    if mid[|cut|].next.Some? {
      pages := Completed(tickets, keep, list, limit, i + limit, mid);
      OnlyAddsMore(Concatenated(pages), Concatenated(mid), Concatenated(cut), list, i + 1, i + limit + 1);
    } else {
      pages := mid;
    }
  }

  lemma NextOf(tickets: seq<Ticket>, keep: set<TicketId>, list: seq<TicketId>, limit: nat, i: nat, cut: seq<Page>)
    returns (pages: seq<Page>)
    requires 1 <= limit && IsListing(tickets, keep, list) && i < |list|
    requires IsChain(tickets, keep, ByRow, limit, cut) && cut != [] && cut[|cut| - 1].next == Some(list[i])
    ensures IsChain(tickets, keep, ByRow, limit, pages) && |pages| == |cut| + 1
    ensures pages[|cut|] == Slice(list, limit, i + 1)
    ensures OnlyAdds(Concatenated(pages), Concatenated(cut), list, i + 1)
  {
    var next := Slice(list, limit, i + 1);
    PageAfter(tickets, keep, list, limit, i);
    ChainGrows(tickets, keep, ByRow, limit, cut, next);
    pages := cut + [next];
    assert pages[..|cut|] == cut && pages[..|cut| + 1] == pages;
    ConcatenatedStep(pages, |cut| + 1);
    SliceOnlyAdds(Concatenated(cut), list, limit, i + 1);
  }

  /** With the cursor read by row, a tied ticket shown before can come again after the cursor's, and
      one not shown yet can come before it, and then never comes at all. */
  lemma FirstTieLoses(tickets: seq<Ticket>, keep: set<TicketId>, rows: seq<TicketId>, limit: nat, k: nat)
    returns (pages: seq<Page>)
    requires 1 <= limit && InTable(tickets, keep) && IsListing(tickets, keep, rows)
    requires !LoneBoundary(tickets, keep, rows, limit, k)
    requires forall n: nat :: n < k ==> LoneBoundary(tickets, keep, rows, limit, n)
    ensures IsChain(tickets, keep, ByRow, limit, pages) && !VisitsOnce(tickets, keep, pages)
  {
    var u := TiedNeighbour(tickets, keep, rows, limit, k);
    assert u in rows;
    var i: nat :| i < |rows| && rows[i] == u;
    SwappedLists(tickets, keep, rows, i, k * limit - 1);
    SlicesAreChain(tickets, keep, rows, ByRow, limit, k);
    LastOfSlices(rows, limit, k);
    if i < k * limit - 1 {
      pages := EarlierComesAgain(tickets, keep, rows, limit, k, i);
    } else {
      pages := LaterNeverComes(tickets, keep, rows, limit, k, i);
    }
  }

  lemma EarlierComesAgain(tickets: seq<Ticket>, keep: set<TicketId>, rows: seq<TicketId>, limit: nat, k: nat, i: nat)
    returns (pages: seq<Page>)
    requires 1 <= limit && 0 < k && i < k * limit - 1 < k * limit < |rows|
    requires IsListing(tickets, keep, Swapped(rows, i, k * limit - 1))
    requires var cut := Slices(rows, limit, k);
      IsChain(tickets, keep, ByRow, limit, cut) && cut[k - 1].next == Some(rows[k * limit - 1])
    ensures IsChain(tickets, keep, ByRow, limit, pages) && !VisitsOnce(tickets, keep, pages)
  {
    var p, cut := k * limit - 1, Slices(rows, limit, k);
    var other := Swapped(rows, i, p);
    var again := Slice(other, limit, i + 1);
    PageAfter(tickets, keep, other, limit, i);
    pages := cut + [again];
    ChainGrows(tickets, keep, ByRow, limit, cut, again);
    var j := ComesAgain(rows, limit, i, p);
    ShownTwice(rows, limit, k, again, j);
  }

  lemma ComesAgain(rows: seq<TicketId>, limit: nat, i: nat, p: nat) returns (j: nat)
    requires 1 <= limit && i < p < |rows|
    ensures j < p
    ensures var again := Slice(Swapped(rows, i, p), limit, i + 1);
      again.data != [] && again.data[0] == rows[j]
  {
    j := if i + 1 == p then i else i + 1;
    assert Swapped(rows, i, p)[i + 1] == rows[j];
  }

  lemma LaterNeverComes(tickets: seq<Ticket>, keep: set<TicketId>, rows: seq<TicketId>, limit: nat, k: nat, i: nat)
    returns (pages: seq<Page>)
    requires 1 <= limit && 0 < k && 0 < k * limit <= i < |rows| && Distinct(rows) && rows[i] in keep
    requires IsListing(tickets, keep, Swapped(rows, i, k * limit - 1))
    requires var cut := Slices(rows, limit, k);
      IsChain(tickets, keep, ByRow, limit, cut) && cut[k - 1].next == Some(rows[k * limit - 1])
    ensures IsChain(tickets, keep, ByRow, limit, pages) && !VisitsOnce(tickets, keep, pages)
  {
    var p, cut := k * limit - 1, Slices(rows, limit, k);
    var other := Swapped(rows, i, p);
    pages := Completed(tickets, keep, other, limit, i, cut);
    SlicesShow(rows, limit, k);
    NotShown(rows, other, i, p, Concatenated(pages));
  }

  lemma NotShown(rows: seq<TicketId>, other: seq<TicketId>, i: nat, p: nat, all: seq<TicketId>)
    requires Distinct(rows) && Distinct(other) && p < i < |rows| == |other| && rows[i] == other[p]
    requires OnlyAdds(all, rows[..p + 1], other, i + 1)
    ensures rows[i] !in all
  {
    assert rows[i] !in rows[..p + 1];
    assert forall j :: i + 1 <= j < |other| ==> other[j] != other[p];
  }

  lemma TiedNeighbour(tickets: seq<Ticket>, keep: set<TicketId>, rows: seq<TicketId>, limit: nat, k: nat) returns (u: TicketId)
    requires IsListing(tickets, keep, rows) && !LoneBoundary(tickets, keep, rows, limit, k)
    ensures 0 < k && 0 < k * limit < |rows| && rows[k * limit - 1] in keep
    ensures u in keep && u != rows[k * limit - 1] && UpdateTime(tickets, u) == UpdateTime(tickets, rows[k * limit - 1])
  {
    assert rows[k * limit - 1] in keep;
    u :| u in keep && u != rows[k * limit - 1] && UpdateTime(tickets, u) == UpdateTime(tickets, rows[k * limit - 1]);
  }

  lemma LastOfSlices(rows: seq<TicketId>, limit: nat, k: nat)
    requires 1 <= limit && 0 < k && 0 < k * limit < |rows|
    ensures Slices(rows, limit, k)[k - 1].next == Some(rows[k * limit - 1])
  {
    SlicesAreSliced(rows, limit, k, k - 1);
    NextFull(k - 1, limit);
  }

  lemma SlicesShow(rows: seq<TicketId>, limit: nat, k: nat)
    requires 1 <= limit && 0 < k * limit < |rows|
    ensures Concatenated(Slices(rows, limit, k)) == rows[..k * limit]
  {
    var cut := Slices(rows, limit, k);
    forall n: nat | n < k
      ensures SlicedAt(rows, limit, cut, n)
    {
      SlicesAreSliced(rows, limit, k, n);
    }
    SlicesConcatenate(rows, limit, cut, k);
    assert cut[..k] == cut;
  }

  lemma ShownTwice(rows: seq<TicketId>, limit: nat, k: nat, again: Page, j: nat)
    requires 1 <= limit && j < k * limit < |rows| && again.data != [] && again.data[0] == rows[j]
    ensures !Distinct(Concatenated(Slices(rows, limit, k) + [again]))
  {
    var cut := Slices(rows, limit, k);
    var pages := cut + [again];
    SlicesShow(rows, limit, k);
    assert pages[..k] == cut && pages[..k + 1] == pages;
    ConcatenatedStep(pages, k + 1);
    var all := Concatenated(pages);
    assert all == rows[..k * limit] + again.data;
    assert all[j] == all[k * limit];
  }

  lemma ChainGrows(tickets: seq<Ticket>, keep: set<TicketId>, how: CursorReading, limit: nat, pages: seq<Page>, page: Page)
    requires 1 <= limit && IsChain(tickets, keep, how, limit, pages) && pages != [] && pages[|pages| - 1].next.Some?
    requires IsPage(tickets, keep, pages[|pages| - 1].next, how, limit, page)
    ensures IsChain(tickets, keep, how, limit, pages + [page])
  {
    var more := pages + [page];
    forall k: nat | k < |more|
      ensures FollowsAt(tickets, keep, how, limit, more, k)
    {
      if k < |pages| {
        assert FollowsAt(tickets, keep, how, limit, pages, k);
        assert CursorAt(more, k) == CursorAt(pages, k) && more[k] == pages[k];
      }
    }
  }

  lemma {:induction false} FirstTie(tickets: seq<Ticket>, keep: set<TicketId>, rows: seq<TicketId>, limit: nat, bad: nat)
    returns (k: nat)
    requires !LoneBoundary(tickets, keep, rows, limit, bad)
    ensures !LoneBoundary(tickets, keep, rows, limit, k)
    ensures forall n: nat :: n < k ==> LoneBoundary(tickets, keep, rows, limit, n)
    decreases bad
  {
    if n: nat :| n < bad && !LoneBoundary(tickets, keep, rows, limit, n) {
      k := FirstTie(tickets, keep, rows, limit, n);
    } else {
      k := bad;
    }
  }

  /** Paging is sound for a filter and a page size if and only if no full page of the list, but
      the last, ends at a ticket whose update time another selected ticket shares. Ties elsewhere,
      inside a page or among tickets not selected, do no harm. The condition is the same whichever
      way the cursor is read. */
  lemma PagingWorksIff(tickets: seq<Ticket>, keep: set<TicketId>, rows: seq<TicketId>, how: CursorReading, limit: nat)
    requires 1 <= limit && InTable(tickets, keep) && IsListing(tickets, keep, rows)
    ensures (forall pages :: IsChain(tickets, keep, how, limit, pages) ==> VisitsOnce(tickets, keep, pages)) <==>
      LoneBoundaries(tickets, keep, rows, limit)
  {
    if LoneBoundaries(tickets, keep, rows, limit) {
      forall pages | IsChain(tickets, keep, how, limit, pages)
        ensures VisitsOnce(tickets, keep, pages)
      {
        CursorsVisitEverythingOnce(tickets, keep, rows, how, limit, pages);
      }
    } else {
      var bad: nat :| !LoneBoundary(tickets, keep, rows, limit, bad);
      var k := FirstTie(tickets, keep, rows, limit, bad);
      var pages;
      match how
      case ByPosition => pages := FirstTieRepeats(tickets, keep, rows, limit, k);
      case ByRow => pages := FirstTieLoses(tickets, keep, rows, limit, k);
      assert !VisitsOnce(tickets, keep, pages);
    }
  }

  /** Runs in which no two writes share a millisecond have no ties at all: there is one list, and
      the cursors visit it. */
  lemma CursorsWorkInStrictRuns(db: Db, run: seq<Timed>, keep: set<TicketId>, rows: seq<TicketId>, how: CursorReading, limit: nat,
                                pages: seq<Page>)
    requires Initial(db) && LegalRun(db, run) && StrictRun(db, run)
    requires 1 <= limit && InTable(Exec(db, run).desk.tickets, keep) && IsListing(Exec(db, run).desk.tickets, keep, rows)
    requires IsChain(Exec(db, run).desk.tickets, keep, how, limit, pages)
    ensures VisitsOnce(Exec(db, run).desk.tickets, keep, pages)
    ensures pages != [] && pages[|pages| - 1].next.None? ==> Concatenated(pages) == rows
  {
    InitialInv(db);
    StrictRunKeepsInv(db, run);
    NoTiesAtAll(Exec(db, run).desk.tickets, keep, rows, how, limit, pages);
  }

  lemma NoTiesAtAll(tickets: seq<Ticket>, keep: set<TicketId>, rows: seq<TicketId>, how: CursorReading, limit: nat, pages: seq<Page>)
    requires forall i, j :: 0 <= i < j < |tickets| ==> tickets[i].updatedAt != tickets[j].updatedAt
    requires 1 <= limit && InTable(tickets, keep) && IsListing(tickets, keep, rows) && IsChain(tickets, keep, how, limit, pages)
    ensures VisitsOnce(tickets, keep, pages)
    ensures pages != [] && pages[|pages| - 1].next.None? ==> Concatenated(pages) == rows
  {
    assert forall t | t in keep :: Lone(tickets, keep, t);
    CursorsVisitEverythingOnce(tickets, keep, rows, how, limit, pages);
    if pages != [] && pages[|pages| - 1].next.None? {
      OneList(tickets, keep, rows, Concatenated(pages));
    }
  }

  lemma OneList(tickets: seq<Ticket>, keep: set<TicketId>, a: seq<TicketId>, b: seq<TicketId>)
    requires IsListing(tickets, keep, a) && IsListing(tickets, keep, b)
    requires forall t | t in keep :: Lone(tickets, keep, t)
    ensures a == b
  {
    SameSize(tickets, keep, a, b);
    forall p: nat | p < |a|
      ensures b[p] == a[p]
    {
      LoneStays(tickets, keep, a, b, p);
    }
  }

  /** Pages that have come to their end without this ticket. */
  ghost predicate Hides(tickets: seq<Ticket>, keep: set<TicketId>, how: CursorReading, pages: seq<Page>, t: TicketId) {
    && IsChain(tickets, keep, how, 1, pages) && pages != [] && pages[|pages| - 1].next.None?
    && t in keep && t !in Concatenated(pages)
  }

  /** Two tickets that share their update time, listed one a page: whichever way the cursor is read,
      the pages may end without the second having been shown. */
  lemma TiesMayHideATicket(a: Ticket, b: Ticket, how: CursorReading)
    requires a.updatedAt == b.updatedAt
    ensures exists pages: seq<Page> :: Hides([a, b], {0, 1}, how, pages, 1)
  {
    var pages := [Page([0], Some(0)), Page(if how.ByRow? then [] else [0], None)];
    TiedPages(a, b, how);
    forall k: nat | k < |pages|
      ensures FollowsAt([a, b], {0, 1}, how, 1, pages, k)
    {
      assert k == 0 || k == 1;
    }
    assert pages[..2] == pages && pages[..1][..0] == [];
    ConcatenatedStep(pages, 2);
    ConcatenatedStep(pages, 1);
    assert Hides([a, b], {0, 1}, how, pages, 1);
  }

  lemma TiedPages(a: Ticket, b: Ticket, how: CursorReading)
    requires a.updatedAt == b.updatedAt
    ensures IsPage([a, b], {0, 1}, None, how, 1, Page([0], Some(0)))
    ensures IsPage([a, b], {0, 1}, Some(0), how, 1, Page(if how.ByRow? then [] else [0], None))
  {
    TiedLists(a, b);
    FirstOfTwo(how);
  }

  lemma TiedLists(a: Ticket, b: Ticket)
    requires a.updatedAt == b.updatedAt
    ensures FromCursor([a, b], {0, 1}, None) == {0, 1} == FromCursor([a, b], {0, 1}, Some(0))
    ensures IsListing([a, b], {0, 1}, [0, 1]) && IsListing([a, b], {0, 1}, [1, 0])
  {
    assert 0 in [0, 1] && 1 in [0, 1] && 0 in [1, 0] && 1 in [1, 0];
  }

  lemma FirstOfTwo(how: CursorReading)
    ensures PageOf(Fetched([0, 1], None, how, 1), 1) == Page([0], Some(0))
    ensures PageOf(Fetched([1, 0], Some(0), how, 1), 1) == Page(if how.ByRow? then [] else [0], None)
  {
    ThroughAt([1, 0], 1);
  }
}
