/** Which replies quote: in automatic mode at most one between two customer messages. */
module QuoteRuns {
  import opened Types
  import opened DeskSpec
  import opened DeskInvariants
  import opened Engine
  import opened Reachable
  import opened RollupRuns

  // ---------- One automatic reply ----------

  /** Some outgoing row of the ticket follows all its inbound rows. */
  ghost predicate Answered(messages: seq<Message>, t: TicketId) {
    exists n :: 0 <= n < |messages| && messages[n].ticket == t && messages[n].direction.Out?
      && forall m :: n < m < |messages| && messages[m].ticket == t ==> messages[m].direction.Out?
  }

  /** What automatic mode is for: the client pointer, until somebody has answered. */
  ghost function PointerQuote(d: Desk, t: TicketId): Option<int>
    requires t < |d.tickets|
  {
    if Answered(d.messages, t) then None else NonZero(d.tickets[t].lastClient)
  }

  /** What a reply quotes that finds this row the latest. */
  function RowQuote(row: Message): Option<int> {
    if row.direction.In? then NonZero(row.tgId) else None
  }

  /** The ticket's rows at its latest time, one or several, are worth the same quote. */
  ghost predicate LatestAlike(d: Desk, t: TicketId) {
    forall m: MessageId, n: MessageId :: IsLatestPick(d, t, Some(m)) && IsLatestPick(d, t, Some(n)) ==>
      RowQuote(d.messages[m]) == RowQuote(d.messages[n])
  }

  predicate LastRow(messages: seq<Message>, t: TicketId, q: MessageId) {
    && q < |messages| && messages[q].ticket == t
    && forall n :: q < n < |messages| ==> messages[n].ticket != t
  }

  lemma LastRowExists(messages: seq<Message>, t: TicketId, first: MessageId) returns (q: MessageId)
    requires first < |messages| && messages[first].ticket == t
    ensures LastRow(messages, t, q)
  {
    q := |messages| - 1;
    while messages[q].ticket != t
      invariant first <= q < |messages|
      invariant forall n :: q < n < |messages| ==> messages[n].ticket != t
      decreases q
    {
      q := q - 1;
    }
  }

  /** The last row is a latest one, and worth what the client pointer is. */
  lemma LastRowIsPointer(d: Desk, clock: int, t: TicketId, q: MessageId)
    requires Lifecycle(d, clock) && Pointer(d) && t < |d.tickets| && LastRow(d.messages, t, q)
    ensures IsLatestPick(d, t, Some(q)) && RowQuote(d.messages[q]) == PointerQuote(d, t)
  {
    if d.messages[q].direction.In? {
      assert LatestInbound(d.messages, t, q);
      assert !Answered(d.messages, t);
    } else {
      assert Answered(d.messages, t);
    }
  }

  /** In automatic mode a reply is sure to quote the client pointer exactly when no outgoing row has
      followed the latest inbound one, if and only if the rows at the ticket's latest time are
      worth the same quote; in particular if there is only one. */
  lemma AutoQuoteIsPointer(d: Desk, clock: int, t: TicketId)
    requires Lifecycle(d, clock) && Pointer(d) && t < |d.tickets|
    ensures (forall latest: Option<MessageId> :: IsLatestPick(d, t, latest) ==> QuoteOf(d, t, Auto, latest) == PointerQuote(d, t))
      <==> LatestAlike(d, t)
  {
    if m: MessageId :| m < |d.messages| && d.messages[m].ticket == t {
      var q := LastRowExists(d.messages, t, m);
      LastRowIsPointer(d, clock, t, q);
      PicksQuoteRows(d, t, m);
    } else {
      assert NoInbound(d.messages, t);
      assert !Answered(d.messages, t);
    }
  }

  lemma PicksQuoteRows(d: Desk, t: TicketId, m: MessageId)
    requires t < |d.tickets| && m < |d.messages| && d.messages[m].ticket == t
    ensures forall latest: Option<MessageId> :: IsLatestPick(d, t, latest) ==>
      latest.Some? && QuoteOf(d, t, Auto, latest) == RowQuote(d.messages[latest.value])
    ensures forall l: MessageId :: IsLatestPick(d, t, Some(l)) ==> QuoteOf(d, t, Auto, Some(l)) == RowQuote(d.messages[l])
  {
  }

  ghost predicate MayQuote(d: Desk, t: TicketId)
    requires t < |d.tickets|
  {
    exists latest: Option<MessageId> :: IsLatestPick(d, t, latest) && QuoteOf(d, t, Auto, latest).Some?
  }

  /** An inbound row of the ticket has the time of row `q`, and an id to quote. */
  predicate InboundAtTimeOf(messages: seq<Message>, t: TicketId, q: MessageId)
    requires q < |messages|
  {
    exists m :: 0 <= m < |messages| && messages[m].ticket == t && RowQuote(messages[m]).Some?
      && messages[m].createdAt == messages[q].createdAt
  }

  /** When somebody has answered already, a reply may still quote if and only if that answer shares
      its millisecond with an inbound row of the ticket. */
  lemma QuotesAgainIff(d: Desk, clock: int, t: TicketId, q: MessageId)
    requires Lifecycle(d, clock) && Pointer(d) && t < |d.tickets| && LastRow(d.messages, t, q) && d.messages[q].direction.Out?
    ensures MayQuote(d, t) <==> InboundAtTimeOf(d.messages, t, q)
  {
    LastRowIsPointer(d, clock, t, q);
    PicksQuoteRows(d, t, q);
    if m: MessageId :| m < |d.messages| && d.messages[m].ticket == t && RowQuote(d.messages[m]).Some?
                       && d.messages[m].createdAt == d.messages[q].createdAt {
      assert IsLatestPick(d, t, Some(m));
    }
  }

  // ---------- What every automatic quote answers ----------

  /** Row `m` precedes row `r` on its ticket, and no row between them or before is newer. */
  ghost predicate NewestBefore(messages: seq<Message>, m: int, r: MessageId) {
    && 0 <= m < r < |messages| && messages[m].ticket == messages[r].ticket
    && forall n :: 0 <= n < r && messages[n].ticket == messages[r].ticket ==> messages[n].createdAt <= messages[m].createdAt
  }

  /** Row `r` is the first of its ticket, or follows an inbound row as new as any before it. */
  ghost predicate Prompted(messages: seq<Message>, r: MessageId) {
    && r < |messages|
    && (|| (forall n :: 0 <= n < r ==> messages[n].ticket != messages[r].ticket)
        || exists m :: NewestBefore(messages, m, r) && messages[m].direction.In?)
  }

  ghost predicate Quotes(d: Desk) {
    forall r :: r in d.past.autoQuoted ==> Prompted(d.messages, r) && d.messages[r].direction.Out?
  }

  /** Rows stay on their ticket, in their direction, at their time. */
  ghost predicate RowsEvolve(a: seq<Message>, b: seq<Message>) {
    |a| <= |b| && forall m :: 0 <= m < |a| ==>
      b[m].ticket == a[m].ticket && b[m].direction == a[m].direction && b[m].createdAt == a[m].createdAt
  }

  lemma StaysPrompted(a: seq<Message>, b: seq<Message>, r: MessageId)
    requires RowsEvolve(a, b) && Prompted(a, r)
    ensures Prompted(b, r) && b[r].direction == a[r].direction
  {
    if m :| NewestBefore(a, m, r) && a[m].direction.In? {
      assert NewestBefore(b, m, r) && b[m].direction.In?;
    }
  }

  lemma ReplyIsPrompted(d: Desk, dir: Directory, t: TicketId, agent: AgentId, text: string,
                        latest: Option<MessageId>, now: int)
    requires IsLatestPick(d, t, latest) && ReplyOk(d, dir, t, agent) && QuoteOf(d, t, Auto, latest).Some?
    ensures var e := Reply(d, dir, t, agent, text, Auto, latest, now);
      Prompted(e.messages, |d.messages|) && e.messages[|d.messages|].direction.Out?
  {
    var e := Reply(d, dir, t, agent, text, Auto, latest, now);
    if latest.Some? {
      assert NewestBefore(e.messages, latest.value, |d.messages|) && e.messages[latest.value].direction.In?;
    }
  }

  lemma IngestAddsRows(dir: Directory, d: Desk, msg: Incoming, p: Picks, now: int, cut: Cut)
    ensures var e := IngestDesk(dir, d, msg, p, now, cut);
      d.messages <= e.messages && e.past.autoQuoted == d.past.autoQuoted
  {
    var placed := Place(dir, d, msg, p, now);
    assert placed.messages == d.messages && placed.past.autoQuoted == d.past.autoQuoted;
  }

  /** Only a reply in automatic mode adds to the quotes: itself, if it quotes. */
  lemma StepAddsQuotes(db: Db, ts: Timed, r: MessageId)
    requires r in Apply(db, ts).desk.past.autoQuoted && r !in db.desk.past.autoQuoted
    ensures ts.step.ReplyTo? && ts.step.mode.Auto? && ReplyOk(db.desk, db.dir, ts.step.t, ts.step.agent)
    ensures QuoteOf(db.desk, ts.step.t, Auto, ts.step.latest).Some? && r == |db.desk.messages|
  {
    if ts.step.Ingest? {
      IngestAddsRows(db.dir, db.desk, ts.step.msg, ts.step.picks, ts.now, ts.step.cut);
      assert false;
    }
  }

  lemma StepKeepsQuotes(db: Db, ts: Timed)
    requires Legal(db, ts) && Quotes(db.desk)
    ensures RowsEvolve(db.desk.messages, Apply(db, ts).desk.messages) && Quotes(Apply(db, ts).desk)
  {
    StepEvolves(db, ts);
    forall r | r in Apply(db, ts).desk.past.autoQuoted
      ensures Prompted(Apply(db, ts).desk.messages, r) && Apply(db, ts).desk.messages[r].direction.Out?
    {
      if r in db.desk.past.autoQuoted {
        StaysPrompted(db.desk.messages, Apply(db, ts).desk.messages, r);
      } else {
        StepAddsQuotes(db, ts, r);
        ReplyIsPrompted(db.desk, db.dir, ts.step.t, ts.step.agent, ts.step.text, ts.step.latest, ts.now);
      }
    }
  }

  lemma {:induction false} RunKeepsQuotes(db: Db, run: seq<Timed>)
    requires LegalRun(db, run) && Quotes(db.desk)
    ensures Quotes(Exec(db, run).desk)
    decreases |run|
  {
    if run != [] {
      StepKeepsQuotes(db, run[0]);
      RunKeepsQuotes(Apply(db, run[0]), run[1..]);
    }
  }

  // ---------- At most one between two customer messages ----------

  predicate InboundBetween(messages: seq<Message>, o: MessageId, r: MessageId)
    requires o < r < |messages|
  {
    exists m :: o < m < r && messages[m].ticket == messages[r].ticket && messages[m].direction.In?
  }

  /** An inbound row before row `o` shares its millisecond with every later row of the ticket before
      row `r`, row `o` among them. */
  predicate TiedThrough(messages: seq<Message>, o: MessageId, r: MessageId)
    requires o < r < |messages|
  {
    exists m :: 0 <= m < o && messages[m].ticket == messages[r].ticket && messages[m].direction.In?
      && forall n :: m <= n < r && messages[n].ticket == messages[r].ticket ==> messages[n].createdAt == messages[m].createdAt
  }

  lemma PromptIsNewer(messages: seq<Message>, o: MessageId, r: MessageId)
    requires forall m, n :: 0 <= m < n < |messages| ==> messages[m].createdAt <= messages[n].createdAt
    requires Prompted(messages, r) && o < r && messages[o].ticket == messages[r].ticket && messages[o].direction.Out?
    ensures InboundBetween(messages, o, r) || TiedThrough(messages, o, r)
  {
    var m :| NewestBefore(messages, m, r) && messages[m].direction.In?;
    if m < o {
      forall n | m <= n < r && messages[n].ticket == messages[r].ticket
        ensures messages[n].createdAt == messages[m].createdAt
      {
        assert messages[m].createdAt <= messages[n].createdAt;
      }
    }
  }

  /** In every reachable state, between any outgoing row, acknowledgement or reply, and a later
      automatic quote on its ticket there is a customer message; or one before both shares its
      millisecond with everything on the ticket up to the quote. */
  lemma QuoteAnswersCustomer(db: Db, run: seq<Timed>, o: MessageId, r: MessageId)
    requires Initial(db) && LegalRun(db, run) && r in Exec(db, run).desk.past.autoQuoted
    requires var messages := Exec(db, run).desk.messages;
      o < r < |messages| && messages[o].ticket == messages[r].ticket && messages[o].direction.Out?
    ensures var messages := Exec(db, run).desk.messages;
      InboundBetween(messages, o, r) || TiedThrough(messages, o, r)
  {
    InitialInv(db);
    RunKeepsInv(db, run);
    RunKeepsQuotes(db, run);
    AnswersCustomer(Exec(db, run).desk, Exec(db, run).clock, o, r);
  }

  lemma AnswersCustomer(d: Desk, clock: int, o: MessageId, r: MessageId)
    requires Lifecycle(d, clock) && Quotes(d) && r in d.past.autoQuoted
    requires o < r < |d.messages| && d.messages[o].ticket == d.messages[r].ticket && d.messages[o].direction.Out?
    ensures InboundBetween(d.messages, o, r) || TiedThrough(d.messages, o, r)
  {
    PromptIsNewer(d.messages, o, r);
  }

  /** Two automatic quotes on one ticket, in any reachable state, have a customer message between
      them, unless one before both shares its millisecond with the first of them and with
      everything on the ticket up to the second. */
  lemma OneQuotePerCustomerMessage(db: Db, run: seq<Timed>, r1: MessageId, r2: MessageId)
    requires Initial(db) && LegalRun(db, run)
    requires var d := Exec(db, run).desk;
      && r1 in d.past.autoQuoted && r2 in d.past.autoQuoted && r1 < r2 < |d.messages|
      && d.messages[r1].ticket == d.messages[r2].ticket
    ensures var messages := Exec(db, run).desk.messages;
      InboundBetween(messages, r1, r2) || TiedThrough(messages, r1, r2)
  {
    InitialInv(db);
    RunKeepsQuotes(db, run);
    QuoteAnswersCustomer(db, run, r1, r2);
  }
}
