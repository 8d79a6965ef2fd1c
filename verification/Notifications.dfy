/** Notifications: events of one kind on one ticket within five minutes refresh one row, and only
    a new row sends a direct message. */
module NotificationSpec {
  import opened Types

  const DEDUP_WINDOW: int := 5 * MINUTE

  datatype Key = Key(agent: AgentId, ticket: TicketId, kind: string)

  datatype Note = Note(key: Key, payload: string, isRead: bool, createdAt: int)

  /** One call to the external channels; `sent` unless the agent switched the kind off. */
  datatype Dispatch = Dispatch(key: Key, at: int, sent: bool)

  /** `agents` and `tickets` count the rows that foreign keys may point at. */
  datatype Board = Board(
    agents: nat, tickets: nat, notes: seq<Note>, prefs: map<(AgentId, string), bool>, dispatches: seq<Dispatch>)

  predicate Recent(notes: seq<Note>, key: Key, now: int, n: nat) {
    n < |notes| && notes[n].key == key && now - DEDUP_WINDOW <= notes[n].createdAt
  }

  /** The latest row of the key inside the window; ties are the database's to break. */
  predicate IsRecentPick(notes: seq<Note>, key: Key, now: int, pick: Option<nat>) {
    if pick.Some? then
      && Recent(notes, key, now, pick.value)
      && forall n :: 0 <= n < |notes| && Recent(notes, key, now, n) ==> notes[n].createdAt <= notes[pick.value].createdAt
    else forall n :: 0 <= n < |notes| ==> !Recent(notes, key, now, n)
  }

  predicate References(b: Board, key: Key) { key.agent < b.agents && key.ticket < b.tickets }

  /** Enabled unless the agent said otherwise. */
  predicate Enabled(prefs: map<(AgentId, string), bool>, agent: AgentId, kind: string) {
    (agent, kind) in prefs ==> prefs[(agent, kind)]
  }

  function Notify(b: Board, key: Key, payload: string, pick: Option<nat>, now: int): Board {
    if pick.Some? && pick.value < |b.notes| then
      b.(notes := b.notes[pick.value := b.notes[pick.value].(payload := payload, isRead := false, createdAt := now)])
    else if References(b, key) then
      b.(notes := b.notes + [Note(key, payload, false, now)],
         dispatches := b.dispatches + [Dispatch(key, now, Enabled(b.prefs, key.agent, key.kind))])
    else b
  }

  function MarkedRead(notes: seq<Note>, only: Option<nat>, agent: AgentId): (r: seq<Note>)
    ensures |r| == |notes|
    ensures forall n :: 0 <= n < |r| ==>
      r[n] == (if (only.Some? ==> n == only.value) && notes[n].key.agent == agent then notes[n].(isRead := true) else notes[n])
  {
    seq(|notes|, n requires 0 <= n < |notes| =>
      if (only.Some? ==> n == only.value) && notes[n].key.agent == agent then notes[n].(isRead := true) else notes[n])
  }

  // ---------- Runs ----------

  datatype Act =
    | Happens(key: Key, payload: string, pick: Option<nat>)
    | Reads(only: Option<nat>, agent: AgentId)
    | Prefers(agent: AgentId, kind: string, enabled: bool)
    | Registers(agents: nat, tickets: nat)

  datatype TimedAct = TimedAct(now: int, act: Act)

  function Apply(b: Board, ta: TimedAct): Board {
    match ta.act
    case Happens(key, payload, pick) => Notify(b, key, payload, pick, ta.now)
    case Reads(only, agent) => b.(notes := MarkedRead(b.notes, only, agent))
    case Prefers(agent, kind, enabled) => b.(prefs := b.prefs[(agent, kind) := enabled])
    case Registers(agents, tickets) => b.(agents := b.agents + agents, tickets := b.tickets + tickets)
  }

  function Exec(b: Board, run: seq<TimedAct>): Board {
    if run == [] then b else Apply(Exec(b, run[..|run| - 1]), run[|run| - 1])
  }

  /** The clock never goes back, and lookups return what the table holds. */
  predicate LegalRun(b: Board, run: seq<TimedAct>) {
    && (forall i, j :: 0 <= i < j < |run| ==> run[i].now <= run[j].now)
    && forall i: nat :: i < |run| ==> LegalAt(b, run, i)
  }

  predicate LegalAt(b: Board, run: seq<TimedAct>, i: nat)
    requires i < |run|
  {
    run[i].act.Happens? ==> IsRecentPick(Exec(b, run[..i]).notes, run[i].act.key, run[i].now, run[i].act.pick)
  }

  /** The event's row can be written: its agent and ticket exist. */
  predicate AcceptedEvent(b: Board, run: seq<TimedAct>, i: nat, key: Key)
    requires i < |run|
  {
    run[i].act.Happens? && run[i].act.key == key && References(Exec(b, run[..i]), key)
  }

  /** When the key's events happened. */
  function EventTimes(b: Board, run: seq<TimedAct>, key: Key): seq<int> {
    if run == [] then []
    else
      var n := |run| - 1;
      EventTimes(b, run[..n], key) + if AcceptedEvent(b, run, n, key) then [run[n].now] else []
  }

  function NoteTimes(notes: seq<Note>, key: Key): seq<int> {
    if notes == [] then []
    else
      var n := |notes| - 1;
      NoteTimes(notes[..n], key) + if notes[n].key == key then [notes[n].createdAt] else []
  }

  function DispatchTimes(dispatches: seq<Dispatch>, key: Key): seq<int> {
    if dispatches == [] then []
    else
      var n := |dispatches| - 1;
      DispatchTimes(dispatches[..n], key) + if dispatches[n].key == key then [dispatches[n].at] else []
  }

  // ---------- The reference: bursts of events ----------

  /** The first event, and every event more than five minutes after the one before it. */
  predicate OpensBurst(times: seq<int>, i: nat)
    requires i < |times|
  {
    i == 0 || times[i] - times[i - 1] > DEDUP_WINDOW
  }

  function BurstStarts(times: seq<int>): seq<int> {
    if times == [] then []
    else
      var n := |times| - 1;
      BurstStarts(times[..n]) + if OpensBurst(times, n) then [times[n]] else []
  }

  /** The last event of each burst so far. */
  function BurstEnds(times: seq<int>): (ends: seq<int>)
    ensures |ends| == |BurstStarts(times)|
    ensures times != [] ==> ends != [] && ends[|ends| - 1] == times[|times| - 1]
  {
    if times == [] then []
    else
      var n := |times| - 1;
      var before := BurstEnds(times[..n]);
      (if OpensBurst(times, n) then before else before[..|before| - 1]) + [times[n]]
  }
}

/** The debounce equals the reference split into bursts, over every run. */
module Debounce {
  import opened Types
  import opened NotificationSpec

  predicate Nondecreasing(times: seq<int>) {
    forall i, j :: 0 <= i < j < |times| ==> times[i] <= times[j]
  }

  /** Every two entries lie more than so many windows apart as there are steps between them. */
  predicate Spaced(times: seq<int>) {
    forall i, j :: 0 <= i < j < |times| ==> times[j] - times[i] > (j - i) * DEDUP_WINDOW
  }

  lemma SpacedAppend(times: seq<int>, t: int)
    requires Spaced(times) && (times != [] ==> t - times[|times| - 1] > DEDUP_WINDOW)
    ensures Spaced(times + [t])
  {
    var n := |times|;
    forall i, j | 0 <= i < j < n + 1
      ensures (times + [t])[j] - (times + [t])[i] > (j - i) * DEDUP_WINDOW
    {
      if j == n && i < n - 1 {
        assert times[n - 1] - times[i] > (n - 1 - i) * DEDUP_WINDOW;
        assert (n - i) * DEDUP_WINDOW == (n - 1 - i) * DEDUP_WINDOW + DEDUP_WINDOW;
      }
    }
  }

  lemma {:induction false} BurstsAreSpaced(times: seq<int>)
    requires Nondecreasing(times)
    ensures Spaced(BurstStarts(times)) && Spaced(BurstEnds(times))
    ensures times != [] ==> BurstStarts(times) != [] && BurstStarts(times)[|BurstStarts(times)| - 1] <= times[|times| - 1]
  {
    if times != [] {
      var n := |times| - 1;
      var rest, t := times[..n], times[n];
      BurstsAreSpaced(rest);
      assert n > 0 ==> rest[n - 1] == times[n - 1] <= t;
      OneMoreSpaced(BurstStarts(rest), BurstEnds(rest), t, OpensBurst(times, n));
    }
  }

  lemma OneMoreSpaced(starts: seq<int>, ends: seq<int>, t: int, opens: bool)
    requires Spaced(starts) && Spaced(ends) && |starts| == |ends|
    requires starts != [] ==> starts[|starts| - 1] <= ends[|ends| - 1] <= t
    requires opens ==> ends == [] || t - ends[|ends| - 1] > DEDUP_WINDOW
    requires !opens ==> ends != []
    ensures Spaced(starts + if opens then [t] else [])
    ensures Spaced((if opens then ends else ends[..|ends| - 1]) + [t])
  {
    if opens {
      SpacedAppend(starts, t);
      SpacedAppend(ends, t);
    } else {
      assert starts + [] == starts;
      MoveLast(ends, t);
    }
  }

  lemma MoveLast(ends: seq<int>, t: int)
    requires Spaced(ends) && ends != [] && ends[|ends| - 1] <= t
    ensures Spaced(ends[..|ends| - 1] + [t])
  {
    var n := |ends| - 1;
    forall i, j | 0 <= i < j < n + 1
      ensures (ends[..n] + [t])[j] - (ends[..n] + [t])[i] > (j - i) * DEDUP_WINDOW
    {
      assert ends[j] - ends[i] > (j - i) * DEDUP_WINDOW;
    }
  }

  // ---------- The rows of one key ----------

  function LastNote(notes: seq<Note>, key: Key): (r: Option<nat>)
    ensures r.Some? ==> r.value < |notes| && notes[r.value].key == key
    ensures r.Some? ==> forall n :: r.value < n < |notes| ==> notes[n].key != key
    ensures r.None? ==> forall n :: 0 <= n < |notes| ==> notes[n].key != key
  {
    if notes == [] then None
    else if notes[|notes| - 1].key == key then Some(|notes| - 1)
    else LastNote(notes[..|notes| - 1], key)
  }

  lemma {:induction false} LastNoteTime(notes: seq<Note>, key: Key)
    ensures LastNote(notes, key).None? <==> NoteTimes(notes, key) == []
    ensures LastNote(notes, key).Some? ==>
      NoteTimes(notes, key)[|NoteTimes(notes, key)| - 1] == notes[LastNote(notes, key).value].createdAt
  {
    if notes != [] {
      LastNoteTime(notes[..|notes| - 1], key);
    }
  }

  lemma {:induction false} NoteTimesHas(notes: seq<Note>, key: Key, n: nat)
    requires n < |notes| && notes[n].key == key
    ensures notes[n].createdAt in NoteTimes(notes, key)
    ensures n != LastNote(notes, key).value ==>
      exists k :: 0 <= k < |NoteTimes(notes, key)| - 1 && NoteTimes(notes, key)[k] == notes[n].createdAt
  {
    var m := |notes| - 1;
    var rest := NoteTimes(notes[..m], key);
    if n == m {
      assert NoteTimes(notes, key) == rest + [notes[n].createdAt];
      assert (rest + [notes[n].createdAt])[|rest|] == notes[n].createdAt;
    } else {
      NoteTimesHas(notes[..m], key, n);
      if notes[m].key == key {
        var k :| 0 <= k < |rest| && rest[k] == notes[n].createdAt;
        assert NoteTimes(notes, key)[k] == notes[n].createdAt;
      } else {
        assert NoteTimes(notes, key) == rest;
      }
    }
  }

  lemma {:induction false} UpdateLast(notes: seq<Note>, key: Key, note: Note)
    requires LastNote(notes, key).Some? && note.key == key
    ensures NoteTimes(notes, key) != []
    ensures NoteTimes(notes[LastNote(notes, key).value := note], key) ==
      NoteTimes(notes, key)[..|NoteTimes(notes, key)| - 1] + [note.createdAt]
  {
    var n, l := |notes| - 1, LastNote(notes, key).value;
    if l == n {
      assert notes[l := note][..n] == notes[..n];
    } else {
      UpdateLast(notes[..n], key, note);
      assert notes[l := note][..n] == notes[..n][l := note];
      assert NoteTimes(notes[l := note], key) == NoteTimes(notes[..n][l := note], key);
      assert NoteTimes(notes, key) == NoteTimes(notes[..n], key);
    }
  }

  lemma {:induction false} SameNoteTimes(a: seq<Note>, b: seq<Note>, key: Key)
    requires |a| == |b|
    requires forall n :: 0 <= n < |a| ==>
      (a[n].key == key <==> b[n].key == key) && (a[n].key == key ==> a[n].createdAt == b[n].createdAt)
    ensures NoteTimes(a, key) == NoteTimes(b, key)
  {
    if a != [] {
      SameNoteTimes(a[..|a| - 1], b[..|b| - 1], key);
    }
  }

  predicate FarApart(times: seq<int>) {
    forall i, j :: 0 <= i < j < |times| ==> times[j] - times[i] > DEDUP_WINDOW
  }

  lemma SpacedIsFarApart(times: seq<int>)
    requires Spaced(times)
    ensures FarApart(times)
  {
    forall i, j | 0 <= i < j < |times|
      ensures times[j] - times[i] > DEDUP_WINDOW
    {
      assert times[j] - times[i] > (j - i) * DEDUP_WINDOW;
    }
  }

  /** The key's last row is the only one that can be inside the window of anything not before it. */
  lemma LastIsLatest(notes: seq<Note>, key: Key, n: nat)
    requires FarApart(NoteTimes(notes, key)) && n < |notes| && notes[n].key == key
    ensures LastNote(notes, key).Some?
    ensures n == LastNote(notes, key).value || notes[LastNote(notes, key).value].createdAt - notes[n].createdAt > DEDUP_WINDOW
  {
    NoteTimesHas(notes, key, n);
    LastNoteTime(notes, key);
  }

  /** The row found is the key's last one, and it is found exactly when the key's last event is
      no more than the window ago. */
  lemma PickIsLast(notes: seq<Note>, key: Key, now: int, pick: Option<nat>)
    requires IsRecentPick(notes, key, now, pick) && FarApart(NoteTimes(notes, key))
    ensures pick.Some? ==> pick == LastNote(notes, key)
    ensures var last := LastNote(notes, key);
      pick.Some? <==> last.Some? && now - notes[last.value].createdAt <= DEDUP_WINDOW
  {
    var last := LastNote(notes, key);
    if pick.Some? {
      LastIsLatest(notes, key, pick.value);
      var n := last.value;
      assert n == pick.value || Recent(notes, key, now, n);
    } else if last.Some? {
      assert !Recent(notes, key, now, last.value);
    }
  }

  // ---------- The invariant ----------

  ghost predicate TracksKey(b: Board, times: seq<int>, key: Key) {
    && NoteTimes(b.notes, key) == BurstEnds(times)
    && DispatchTimes(b.dispatches, key) == BurstStarts(times)
    && Nondecreasing(times)
  }

  ghost predicate SoundBoard(b: Board) {
    forall n :: 0 <= n < |b.notes| ==> References(b, b.notes[n].key)
  }

  lemma ExecStaysSound(b: Board, run: seq<TimedAct>)
    requires SoundBoard(b)
    ensures SoundBoard(Exec(b, run))
  {
    if run != [] {
      ExecStaysSound(b, run[..|run| - 1]);
    }
  }

  lemma PickMeansBurst(b: Board, times: seq<int>, key: Key, pick: Option<nat>, now: int)
    requires TracksKey(b, times, key) && IsRecentPick(b.notes, key, now, pick)
    ensures pick.Some? <==> !OpensBurst(times + [now], |times|)
    ensures pick.Some? ==> pick == LastNote(b.notes, key) && times != []
  {
    BurstsAreSpaced(times);
    SpacedIsFarApart(BurstEnds(times));
    PickIsLast(b.notes, key, now, pick);
    LastNoteTime(b.notes, key);
  }

  lemma BurstsAtEvent(times: seq<int>, now: int)
    ensures BurstStarts(times + [now]) == BurstStarts(times) + if OpensBurst(times + [now], |times|) then [now] else []
    ensures BurstEnds(times + [now]) ==
      (if OpensBurst(times + [now], |times|) then BurstEnds(times) else BurstEnds(times)[..|BurstEnds(times)| - 1]) + [now]
  {
    assert (times + [now])[..|times|] == times;
  }

  lemma RowRefreshed(b: Board, key: Key, payload: string, pick: Option<nat>, now: int)
    requires pick.Some? && pick == LastNote(b.notes, key)
    ensures var e := Notify(b, key, payload, pick, now);
      && NoteTimes(b.notes, key) != []
      && NoteTimes(e.notes, key) == NoteTimes(b.notes, key)[..|NoteTimes(b.notes, key)| - 1] + [now]
      && e.dispatches == b.dispatches && |e.notes| == |b.notes|
  {
    UpdateLast(b.notes, key, b.notes[pick.value].(payload := payload, isRead := false, createdAt := now));
  }

  lemma NoteAdded(b: Board, key: Key, payload: string, now: int)
    requires References(b, key)
    ensures var e := Notify(b, key, payload, None, now);
      && NoteTimes(e.notes, key) == NoteTimes(b.notes, key) + [now]
      && DispatchTimes(e.dispatches, key) == DispatchTimes(b.dispatches, key) + [now]
      && |e.notes| == |b.notes| + 1
  {
    var e := Notify(b, key, payload, None, now);
    assert e.notes[..|b.notes|] == b.notes && e.dispatches[..|b.dispatches|] == b.dispatches;
  }

  lemma NotifyTracks(b: Board, times: seq<int>, key: Key, payload: string, pick: Option<nat>, now: int)
    requires TracksKey(b, times, key) && IsRecentPick(b.notes, key, now, pick)
    requires forall i :: 0 <= i < |times| ==> times[i] <= now
    requires References(b, key)
    ensures TracksKey(Notify(b, key, payload, pick, now), times + [now], key)
    ensures |Notify(b, key, payload, pick, now).notes| > |b.notes| <==> OpensBurst(times + [now], |times|)
  {
    PickMeansBurst(b, times, key, pick, now);
    BurstsAtEvent(times, now);
    if pick.Some? {
      RowRefreshed(b, key, payload, pick, now);
    } else {
      NoteAdded(b, key, payload, now);
    }
  }

  lemma OthersTrack(b: Board, times: seq<int>, key: Key, other: Key, payload: string, pick: Option<nat>, now: int)
    requires TracksKey(b, times, key) && IsRecentPick(b.notes, other, now, pick)
    requires key != other || (pick.None? && !References(b, other))
    ensures TracksKey(Notify(b, other, payload, pick, now), times, key)
  {
    var e := Notify(b, other, payload, pick, now);
    if pick.Some? {
      SameNoteTimes(b.notes, e.notes, key);
    } else if References(b, other) {
      assert e.notes[..|b.notes|] == b.notes && e.dispatches[..|b.dispatches|] == b.dispatches;
      assert NoteTimes(b.notes, key) + [] == NoteTimes(b.notes, key);
      assert DispatchTimes(b.dispatches, key) + [] == DispatchTimes(b.dispatches, key);
    }
  }

  lemma PrefixLegal(b: Board, run: seq<TimedAct>)
    requires LegalRun(b, run) && run != []
    ensures LegalRun(b, run[..|run| - 1])
  {
    var rest := run[..|run| - 1];
    forall i: nat | i < |rest|
      ensures LegalAt(b, rest, i)
    {
      assert LegalAt(b, run, i) && rest[i] == run[i] && rest[..i] == run[..i];
    }
  }

  lemma {:induction false} TimesBefore(b: Board, run: seq<TimedAct>, key: Key, now: int)
    requires forall i :: 0 <= i < |run| ==> run[i].now <= now
    ensures forall i :: 0 <= i < |EventTimes(b, run, key)| ==> EventTimes(b, run, key)[i] <= now
  {
    if run != [] {
      TimesBefore(b, run[..|run| - 1], key, now);
    }
  }

  lemma EmptyTracks(b: Board, key: Key)
    requires b.notes == [] && b.dispatches == []
    ensures TracksKey(b, [], key) && SoundBoard(b)
  {
  }

  /** One step of a run, from what is tracked so far. */
  lemma ActTracks(b: Board, times: seq<int>, ta: TimedAct, key: Key)
    requires TracksKey(b, times, key) && SoundBoard(b)
    requires forall i :: 0 <= i < |times| ==> times[i] <= ta.now
    requires ta.act.Happens? ==> IsRecentPick(b.notes, ta.act.key, ta.now, ta.act.pick)
    ensures TracksKey(Apply(b, ta), times + (if ta.act.Happens? && ta.act.key == key && References(b, key) then [ta.now] else []), key)
  {
    if ta.act.Happens? && ta.act.key == key && References(b, key) {
      NotifyTracks(b, times, key, ta.act.payload, ta.act.pick, ta.now);
    } else {
      assert times + [] == times;
      if ta.act.Happens? {
        if ta.act.key == key {
          NotFound(b, key, ta.now, ta.act.pick);
        }
        OthersTrack(b, times, key, ta.act.key, ta.act.payload, ta.act.pick, ta.now);
      } else {
        SameNoteTimes(b.notes, Apply(b, ta).notes, key);
      }
    }
  }

  lemma {:induction false} RunTracksKey(b: Board, run: seq<TimedAct>, key: Key)
    requires b.notes == [] && b.dispatches == [] && LegalRun(b, run)
    ensures TracksKey(Exec(b, run), EventTimes(b, run, key), key)
  {
    EmptyTracks(b, key);
    if run != [] {
      var n := |run| - 1;
      PrefixLegal(b, run);
      assert LegalAt(b, run, n);
      RunTracksKey(b, run[..n], key);
      TimesBefore(b, run[..n], key, run[n].now);
      ExecStaysSound(b, run[..n]);
      ActTracks(Exec(b, run[..n]), EventTimes(b, run[..n], key), run[n], key);
    }
  }

  lemma NotFound(b: Board, key: Key, now: int, pick: Option<nat>)
    requires SoundBoard(b) && IsRecentPick(b.notes, key, now, pick) && !References(b, key)
    ensures pick.None?
  {
  }

  // ---------- The properties ----------

  /** Over every run, for every key: a direct message goes out exactly at the first event of each
      burst, the key's rows are the bursts, each dated at its last event, and so rows, messages
      and bursts are equally many. */
  lemma DispatchesAreBursts(b: Board, run: seq<TimedAct>, key: Key)
    requires b.notes == [] && b.dispatches == [] && LegalRun(b, run)
    ensures var s, times := Exec(b, run), EventTimes(b, run, key);
      && DispatchTimes(s.dispatches, key) == BurstStarts(times)
      && NoteTimes(s.notes, key) == BurstEnds(times)
      && |NoteTimes(s.notes, key)| == |DispatchTimes(s.dispatches, key)|
  {
    RunTracksKey(b, run, key);
  }

  /** Any two rows of one agent, ticket and kind are more than five minutes apart. */
  lemma RowsAreApart(b: Board, run: seq<TimedAct>, m: nat, n: nat)
    requires b.notes == [] && b.dispatches == [] && LegalRun(b, run)
    requires m < n < |Exec(b, run).notes| && Exec(b, run).notes[m].key == Exec(b, run).notes[n].key
    ensures Exec(b, run).notes[n].createdAt - Exec(b, run).notes[m].createdAt > DEDUP_WINDOW
  {
    var notes, key := Exec(b, run).notes, Exec(b, run).notes[n].key;
    RunTracksKey(b, run, key);
    BurstsAreSpaced(EventTimes(b, run, key));
    SpacedIsFarApart(NoteTimes(notes, key));
    FarApartRows(notes, key, m, n);
  }

  lemma {:induction false} FarApartRows(notes: seq<Note>, key: Key, m: nat, n: nat)
    requires FarApart(NoteTimes(notes, key)) && m < n < |notes| && notes[m].key == notes[n].key == key
    ensures notes[n].createdAt - notes[m].createdAt > DEDUP_WINDOW
  {
    var k := |notes| - 1;
    if n < k {
      FarApartInPrefix(notes, key);
      FarApartRows(notes[..k], key, m, n);
    } else {
      LastIsLatest(notes, key, m);
    }
  }

  lemma FarApartInPrefix(notes: seq<Note>, key: Key)
    requires FarApart(NoteTimes(notes, key)) && notes != []
    ensures FarApart(NoteTimes(notes[..|notes| - 1], key))
  {
    var times, rest := NoteTimes(notes, key), NoteTimes(notes[..|notes| - 1], key);
    forall i, j | 0 <= i < j < |rest|
      ensures rest[j] - rest[i] > DEDUP_WINDOW
    {
      assert times[i] == rest[i] && times[j] == rest[j];
    }
  }

  /** k direct messages about the same thing span more than k - 1 windows. */
  lemma DispatchesAreRare(b: Board, run: seq<TimedAct>, key: Key)
    requires b.notes == [] && b.dispatches == [] && LegalRun(b, run)
    requires |DispatchTimes(Exec(b, run).dispatches, key)| >= 2
    ensures var sent := DispatchTimes(Exec(b, run).dispatches, key);
      sent[|sent| - 1] - sent[0] > (|sent| - 1) * DEDUP_WINDOW
  {
    RunTracksKey(b, run, key);
    BurstsAreSpaced(EventTimes(b, run, key));
  }

  lemma NotifyOpens(b: Board, times: seq<int>, ta: TimedAct)
    requires ta.act.Happens? && TracksKey(b, times, ta.act.key) && References(b, ta.act.key)
    requires IsRecentPick(b.notes, ta.act.key, ta.now, ta.act.pick)
    requires forall i :: 0 <= i < |times| ==> times[i] <= ta.now
    ensures |Apply(b, ta).notes| > |b.notes| <==> (times == [] || ta.now - times[|times| - 1] > DEDUP_WINDOW)
  {
    NotifyTracks(b, times, ta.act.key, ta.act.payload, ta.act.pick, ta.now);
  }

  lemma LastAct(b: Board, run: seq<TimedAct>, ta: TimedAct)
    requires LegalRun(b, run + [ta])
    ensures LegalRun(b, run) && Exec(b, run + [ta]) == Apply(Exec(b, run), ta)
    ensures ta.act.Happens? ==> IsRecentPick(Exec(b, run).notes, ta.act.key, ta.now, ta.act.pick)
  {
    assert (run + [ta])[..|run|] == run && (run + [ta])[|run|] == ta;
    PrefixLegal(b, run + [ta]);
    assert LegalAt(b, run + [ta], |run|);
  }

  lemma TracksBefore(b: Board, run: seq<TimedAct>, ta: TimedAct)
    requires b.notes == [] && b.dispatches == [] && LegalRun(b, run) && LegalRun(b, run + [ta]) && ta.act.Happens?
    ensures TracksKey(Exec(b, run), EventTimes(b, run, ta.act.key), ta.act.key)
    ensures forall i :: 0 <= i < |EventTimes(b, run, ta.act.key)| ==> EventTimes(b, run, ta.act.key)[i] <= ta.now
  {
    RunTracksKey(b, run, ta.act.key);
    ExecStaysSound(b, run);
    assert forall i :: 0 <= i < |run| ==> (run + [ta])[i] == run[i];
    assert (run + [ta])[|run|] == ta;
    TimesBefore(b, run, ta.act.key, ta.now);
  }

  /** An event opens a new row exactly when the key's previous event is more than five minutes
      old or there is none; reading notifications in between makes no difference. */
  lemma EventOpensRow(b: Board, run: seq<TimedAct>, ta: TimedAct)
    requires b.notes == [] && b.dispatches == [] && LegalRun(b, run + [ta])
    requires ta.act.Happens? && References(Exec(b, run), ta.act.key)
    ensures var times := EventTimes(b, run, ta.act.key);
      |Exec(b, run + [ta]).notes| > |Exec(b, run).notes| <==>
        (times == [] || ta.now - times[|times| - 1] > DEDUP_WINDOW)
  {
    LastAct(b, run, ta);
    TracksBefore(b, run, ta);
    NotifyOpens(Exec(b, run), EventTimes(b, run, ta.act.key), ta);
  }
}
