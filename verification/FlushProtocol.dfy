/** The dirty-epoch flush: one flusher, step by step, interleaved with any number of
    writers and with crashes. */
module FlushProtocol {
  import opened Elements
  import opened BoardState
  import ChangeLog
  import OrderedMap

  type Rows = map<Id, Row>
  type Held = map<Id, (string, Fields)>

  /** What Redis and Postgres hold of a board, timestamps aside. The incremental flush passes over
      an element whose id is empty, so such an element is not counted. */
  function RedisContent(elements: map<Id, Element>): Held {
    map k | k in elements && k != "" :: RowContent(ToElementRow(elements[k], 0))
  }

  function TableContent(rows: Rows): Held {
    map k | k in rows && k != "" :: RowContent(rows[k])
  }

  ghost predicate AgreeOn(rows: Rows, elements: map<Id, Element>, id: Id) {
    && (id in rows <==> id in elements)
    && (id in rows ==> RowContent(rows[id]) == RowContent(ToElementRow(elements[id], 0)))
  }

  ghost predicate AgreeOutside(rows: Rows, elements: map<Id, Element>, marked: set<Id>) {
    forall id | id !in marked && id != "" :: AgreeOn(rows, elements, id)
  }

  lemma AgreeEverywhere(rows: Rows, elements: map<Id, Element>)
    ensures AgreeOutside(rows, elements, {}) <==> TableContent(rows) == RedisContent(elements)
  {
    if TableContent(rows) == RedisContent(elements) {
      forall id | id != "" ensures AgreeOn(rows, elements, id) {
        assert id in rows <==> id in TableContent(rows);
        assert id in elements <==> id in RedisContent(elements);
        if id in rows {
          assert TableContent(rows)[id] == RedisContent(elements)[id];
        }
      }
    }
    if AgreeOutside(rows, elements, {}) {
      var held, kept := TableContent(rows), RedisContent(elements);
      forall id ensures (id in held <==> id in kept) && (id in held ==> held[id] == kept[id]) {
        assert id != "" ==> AgreeOn(rows, elements, id);
      }
    }
  }

  /** Rows are stored under their own id and repeat no column in their data. */
  ghost predicate WellFormedTable(rows: Rows) {
    forall k | k in rows :: rows[k].id == k && CleanRow(rows[k])
  }

  // ----- The writes of a flush -----

  function RowsOf(values: map<Id, Element>, now: Time): Rows {
    map k | k in values :: ToElementRow(values[k], now)
  }

  /** Delete-all then insert-all. */
  function FullSnapshot(elements: map<Id, Element>, now: Time): Rows {
    RowsOf(elements, now)
  }

  /** HMGET: the ids that still have an element. */
  function Fetch(elements: map<Id, Element>, ids: set<Id>): map<Id, Element> {
    map k | k in elements && k in ids :: elements[k]
  }

  /** The transaction: delete the deleted ids and the dirty ids that have no element, then upsert the rest;
      an empty dirty id is passed over. */
  function WriteRows(rows: Rows, dirtyIds: set<Id>, deletedIds: set<Id>, values: map<Id, Element>, now: Time): Rows {
    rows - (deletedIds + (dirtyIds - values.Keys - {""})) + RowsOf(values - {""}, now)
  }

  /** The Lua script: clear the markers only if the epoch has not moved. */
  function CompareAndClear(r: RedisBoard, epoch: nat, sequence: nat, incremental: bool): RedisBoard {
    if r.epoch != epoch then r
    else
      var cleared := r.(inDirtyBoards := false, dirtyAge := None, dirtySince := None, lastFlushedSequence := Some(sequence));
      if incremental then cleared.(dirty := {}, deleted := {}) else cleared
  }

  // ----- The machine -----

  datatype Flusher =
    | Idle
    | Started(sequence: nat)
    | Reading(sequence: nat, epoch: nat, dirtyIds: Option<set<Id>>, deletedIds: Option<set<Id>>)
    | Fetched(sequence: nat, epoch: nat, dirty: set<Id>, deleted: set<Id>, values: map<Id, Element>)
    | FetchedAll(sequence: nat, epoch: nat, all: map<Id, Element>)
    | Written(sequence: nat, epoch: nat)

  /** `window` records the timestamps of the writes since the last accepted clear, `pending` the numbers
      handed out whose pipeline has not run, and `history` the changes whose pipeline has, in that order. */
  datatype State = State(incremental: bool, redis: RedisBoard, rows: Rows, flusher: Flusher, window: seq<Time>,
                         pending: set<nat>, history: seq<Change>)

  datatype Action =
    | Increment
    | Write(c: Change, track: bool)
    | ReadSequence
    | ReadEpoch
    | ReadDirty
    | ReadDeleted
    | ReadElements
    | Commit(now: Time)
    | Clear
    | Crash

  function Marked(s: State): set<Id> {
    s.redis.dirty + s.redis.deleted
  }

  predicate Enabled(s: State, a: Action) {
    match a
    case Increment => true
    case Write(c, _) => c.sequence in s.pending
    case ReadSequence => s.flusher.Idle?
    case ReadEpoch => s.flusher.Started?
    case ReadDirty => s.incremental && s.flusher.Reading? && s.flusher.dirtyIds.None?
    case ReadDeleted => s.incremental && s.flusher.Reading? && s.flusher.deletedIds.None?
    case ReadElements =>
      s.flusher.Reading? && (s.incremental ==> s.flusher.dirtyIds.Some? && s.flusher.deletedIds.Some?)
    case Commit(_) => s.flusher.Fetched? || s.flusher.FetchedAll?
    case Clear => s.flusher.Written?
    case Crash => true
  }

  predicate ClearAccepted(s: State, a: Action) {
    a.Clear? && s.flusher.Written? && s.flusher.epoch == s.redis.epoch
  }

  function Next(s: State, a: Action): State
    requires Enabled(s, a)
  {
    match a
    case Increment => s.(redis := NextSequence(s.redis), pending := s.pending + {s.redis.sequence + 1})
    case Write(c, track) =>
      s.(redis := Pipeline(s.redis, c, track), window := s.window + [c.serverTimestamp],
         pending := s.pending - {c.sequence}, history := s.history + [c])
    case ReadSequence => s.(flusher := Started(s.redis.sequence))
    case ReadEpoch => s.(flusher := Reading(s.flusher.sequence, s.redis.epoch, None, None))
    case ReadDirty => s.(flusher := s.flusher.(dirtyIds := Some(s.redis.dirty)))
    case ReadDeleted => s.(flusher := s.flusher.(deletedIds := Some(s.redis.deleted)))
    case ReadElements =>
      var f := s.flusher;
      if !s.incremental then s.(flusher := FetchedAll(f.sequence, f.epoch, s.redis.elements))
      else if f.dirtyIds.value == {} && f.deletedIds.value == {} then s.(flusher := Written(f.sequence, f.epoch))
      else
        var values := Fetch(s.redis.elements, f.dirtyIds.value);
        s.(flusher := Fetched(f.sequence, f.epoch, f.dirtyIds.value, f.deletedIds.value, values))
    case Commit(now) =>
      var f := s.flusher;
      var rows := if f.Fetched? then WriteRows(s.rows, f.dirty, f.deleted, f.values, now) else FullSnapshot(f.all, now);
      s.(rows := rows, flusher := Written(f.sequence, f.epoch))
    case Clear =>
      var f := s.flusher;
      s.(redis := CompareAndClear(s.redis, f.epoch, f.sequence, s.incremental),
         window := if ClearAccepted(s, a) then [] else s.window,
         flusher := Idle)
    case Crash => s.(flusher := Idle)
  }

  /** A run: a sequence of steps, each enabled where it is taken. */
  ghost predicate ValidRun(s: State, run: seq<Action>)
    decreases |run|
  {
    run == [] || (Enabled(s, run[0]) && ValidRun(Next(s, run[0]), run[1..]))
  }

  function After(s: State, run: seq<Action>): State
    requires ValidRun(s, run)
    decreases |run|
  {
    if run == [] then s else After(Next(s, run[0]), run[1..])
  }

  /** A loaded board with no pending change. */
  ghost predicate Init(s: State) {
    && s.flusher.Idle? && s.window == [] && s.pending == {} && s.history == []
    && Keyed(s.redis.elements) && WellFormedTable(s.rows)
    && Marked(s) == {}
    && !s.redis.inDirtyBoards && s.redis.dirtyAge.None? && s.redis.dirtySince.None?
    && TableContent(s.rows) == RedisContent(s.redis.elements)
  }

  // ----- The invariant -----

  /** Ids that are not marked agree; in full-snapshot mode, a board outside the dirty index agrees. */
  ghost predicate Durable(s: State) {
    if s.incremental then AgreeOutside(s.rows, s.redis.elements, Marked(s))
    else s.window == [] ==> AgreeOutside(s.rows, s.redis.elements, {})
  }

  /** The dirty indexes follow the window of writes since the last accepted clear. */
  ghost predicate Indexed(s: State) {
    && s.redis.inDirtyBoards == (s.window != [])
    && s.redis.dirtyAge == s.redis.dirtySince == (if s.window == [] then None else Some(s.window[0]))
    && (s.incremental && s.window == [] ==> Marked(s) == {})
  }

  ghost predicate FlusherInv(s: State) {
    var f, r := s.flusher, s.redis;
    match f
    case Idle => true
    case Started(_) => true
    case Reading(_, e, d, x) =>
      && (e == r.epoch || (e < r.epoch && s.window != []))
      && (d.Some? || x.Some? ==> s.incremental)
      && (d.Some? ==> d.value <= Marked(s) && (e == r.epoch ==> d.value == r.dirty))
      && (x.Some? ==> x.value <= Marked(s) && (e == r.epoch ==> x.value == r.deleted))
    case Fetched(_, e, d, x, values) =>
      && (e == r.epoch || (e < r.epoch && s.window != []))
      && s.incremental
      && d + x <= Marked(s) && values.Keys <= d && Keyed(values)
      && (e == r.epoch ==> d == r.dirty && x == r.deleted && values == Fetch(r.elements, d))
    case FetchedAll(_, e, all) =>
      && (e == r.epoch || (e < r.epoch && s.window != []))
      && !s.incremental && Keyed(all)
      && (e == r.epoch ==> all == r.elements)
    case Written(_, e) =>
      && (e == r.epoch || (e < r.epoch && s.window != []))
      && (e == r.epoch ==> AgreeOutside(s.rows, r.elements, {}))
  }

  ghost predicate Inv(s: State) {
    && Keyed(s.redis.elements) && WellFormedTable(s.rows)
    && s.redis.deleted !! s.redis.elements.Keys
    && Durable(s)
    && Indexed(s)
    && FlusherInv(s)
  }

  lemma InitInv(s: State)
    requires Init(s)
    ensures Inv(s)
  {
    AgreeEverywhere(s.rows, s.redis.elements);
  }

  lemma WriteKeepsInv(s: State, c: Change, track: bool)
    requires Inv(s) && Enabled(s, Write(c, track))
    ensures Inv(Next(s, Write(c, track)))
    ensures Marked(s) <= Marked(Next(s, Write(c, track)))
  {
    var s' := Next(s, Write(c, track));
    var upserts := LastWins(c.upserts);
    LastWinsKeyed(c.upserts);
    WrittenElements(s.redis.elements, c);
    assert s'.redis.elements == s.redis.elements + upserts - c.deletes;
    assert Marked(s') == Marked(s) + IdsOf(c.upserts) + c.deletes;
    if s.incremental {
      forall id | id !in Marked(s') && id != "" ensures AgreeOn(s'.rows, s'.redis.elements, id) {
        assert AgreeOn(s.rows, s.redis.elements, id);
      }
    }
  }

  lemma WrittenElements(elements: map<Id, Element>, c: Change)
    ensures HSetAll(elements, c.upserts) - c.deletes == elements + LastWins(c.upserts) - c.deletes
  {
    OrderedMap.SetAllIsUpdate(elements, ById(c.upserts));
  }

  /** The transaction only touches marked ids, and with a current snapshot makes every id agree. */
  lemma CommitKeepsInv(s: State, now: Time)
    requires Inv(s) && Enabled(s, Commit(now))
    ensures Inv(Next(s, Commit(now)))
  {
    var s', f := Next(s, Commit(now)), s.flusher;
    forall id | id != "" ensures f.epoch == s.redis.epoch ==> AgreeOn(s'.rows, s.redis.elements, id) {
      assert id !in Marked(s) && s.incremental ==> AgreeOn(s.rows, s.redis.elements, id);
    }
    if s.incremental {
      forall id | id !in Marked(s) && id != "" ensures AgreeOn(s'.rows, s.redis.elements, id) {
        assert AgreeOn(s.rows, s.redis.elements, id);
      }
    }
  }

  lemma StepKeepsInv(s: State, a: Action)
    requires Inv(s) && Enabled(s, a)
    ensures Inv(Next(s, a))
    ensures !ClearAccepted(s, a) ==> Marked(s) <= Marked(Next(s, a)) && s.window <= Next(s, a).window
  {
    match a
    case Write(c, track) => WriteKeepsInv(s, c, track);
    case Commit(now) => CommitKeepsInv(s, now);
    case ReadElements =>
      if s.incremental && s.flusher.dirtyIds.value == {} && s.flusher.deletedIds.value == {} && s.flusher.epoch == s.redis.epoch {
        assert Marked(s) == {};
      }
    case Clear =>
      if s.incremental && ClearAccepted(s, a) {
        assert Marked(Next(s, a)) == {};
      }
    case _ =>
  }

  lemma {:induction false} RunKeepsInv(s: State, run: seq<Action>)
    requires Inv(s) && ValidRun(s, run)
    ensures Inv(After(s, run))
    decreases |run|
  {
    if run != [] {
      StepKeepsInv(s, run[0]);
      RunKeepsInv(Next(s, run[0]), run[1..]);
    }
  }

  // ----- Theorems over every run -----

  /** In every reachable state, crashes and retries included, an id that is not marked
      has the same content in Postgres as in Redis. */
  lemma UnmarkedIdsAreDurable(s: State, run: seq<Action>, id: Id)
    requires Init(s) && s.incremental && ValidRun(s, run)
    requires id !in Marked(After(s, run)) && id != ""
    ensures AgreeOn(After(s, run).rows, After(s, run).redis.elements, id)
  {
    InitInv(s);
    RunKeepsInv(s, run);
    ModeIsFixed(s, run);
  }

  lemma {:induction false} ModeIsFixed(s: State, run: seq<Action>)
    requires ValidRun(s, run)
    ensures After(s, run).incremental == s.incremental
    decreases |run|
  {
    if run != [] {
      ModeIsFixed(Next(s, run[0]), run[1..]);
    }
  }

  /** The incremental flush refines the full snapshot: in either mode, when the clear is
      accepted the table holds what delete-all/insert-all of Redis would leave, and nothing
      is marked any more. */
  lemma AcceptedClearIsFullSnapshot(s: State, run: seq<Action>, now: Time)
    requires Init(s) && ValidRun(s, run) && ClearAccepted(After(s, run), Clear)
    ensures var t := After(s, run); var t' := Next(t, Clear);
      && TableContent(t'.rows) == TableContent(FullSnapshot(t'.redis.elements, now)) == RedisContent(t'.redis.elements)
      && !t'.redis.inDirtyBoards && t'.redis.dirtyAge == t'.redis.dirtySince == None
      && (s.incremental ==> Marked(t') == {})
  {
    InitInv(s);
    RunKeepsInv(s, run);
    ModeIsFixed(s, run);
    var t := After(s, run);
    AgreeEverywhere(t.rows, t.redis.elements);
    SnapshotContent(t.redis.elements, now);
  }

  lemma SnapshotContent(elements: map<Id, Element>, now: Time)
    ensures TableContent(FullSnapshot(elements, now)) == RedisContent(elements)
  {
  }

  /** A marked board is in both dirty indexes, under the timestamp of the earliest write
      since the last accepted clear. */
  lemma MarkedBoardsAreIndexed(s: State, run: seq<Action>)
    requires Init(s) && s.incremental && ValidRun(s, run)
    ensures var t := After(s, run);
      && (Marked(t) != {} ==> t.window != [])
      && (t.window != [] ==> t.redis.inDirtyBoards && t.redis.dirtyAge == t.redis.dirtySince == Some(t.window[0]))
      && (t.window == [] ==> !t.redis.inDirtyBoards && t.redis.dirtyAge == t.redis.dirtySince == None)
  {
    InitInv(s);
    RunKeepsInv(s, run);
    ModeIsFixed(s, run);
  }

  predicate Finishes(a: Action) {
    a.Clear? || a.Crash?
  }

  function Writes(run: seq<Action>): nat {
    if run == [] then 0 else (if run[0].Write? then 1 else 0) + Writes(run[1..])
  }

  /** No clear of the run is accepted: all its flushes crash, are still going, or are rejected. */
  ghost predicate NoClearAccepted(s: State, run: seq<Action>)
    requires ValidRun(s, run)
    decreases |run|
  {
    run == [] || (!ClearAccepted(s, run[0]) && NoClearAccepted(Next(s, run[0]), run[1..]))
  }

  /** Markers survive every step but an accepted clear, so no crashed, failed or rejected
      flush forgets a write. */
  lemma {:induction false} MarkersOnlyGrow(s: State, run: seq<Action>)
    requires Inv(s) && ValidRun(s, run) && NoClearAccepted(s, run)
    ensures Marked(s) <= Marked(After(s, run)) && s.window <= After(s, run).window
    decreases |run|
  {
    if run != [] {
      StepKeepsInv(s, run[0]);
      MarkersOnlyGrow(Next(s, run[0]), run[1..]);
    }
  }

  lemma {:induction false} EpochCountsWrites(s: State, run: seq<Action>)
    requires !s.flusher.Idle? && !s.flusher.Started? && ValidRun(s, run)
    requires forall i | 0 <= i < |run| :: !Finishes(run[i])
    ensures var t := After(s, run);
      && t.redis.epoch == s.redis.epoch + Writes(run)
      && !t.flusher.Idle? && !t.flusher.Started? && t.flusher.epoch == s.flusher.epoch
    decreases |run|
  {
    if run != [] {
      EpochCountsWrites(Next(s, run[0]), run[1..]);
    }
  }

  /** The compare-and-clear is exact: it is accepted if and only if no write landed after the epoch was read. */
  lemma ClearAcceptedIffNoWrite(s: State, between: seq<Action>)
    requires Enabled(s, ReadEpoch) && ValidRun(Next(s, ReadEpoch), between)
    requires forall i | 0 <= i < |between| :: !Finishes(between[i])
    requires Enabled(After(Next(s, ReadEpoch), between), Clear)
    ensures ClearAccepted(After(Next(s, ReadEpoch), between), Clear) <==> Writes(between) == 0
  {
    hide Next, Writes;
    ReadEpochReads(s);
    EpochCountsWrites(Next(s, ReadEpoch), between);
  }

  lemma ReadEpochReads(s: State)
    requires Enabled(s, ReadEpoch)
    ensures Next(s, ReadEpoch).flusher == Reading(s.flusher.sequence, s.redis.epoch, None, None)
    ensures Next(s, ReadEpoch).redis == s.redis
  {
  }

  lemma {:induction false} Snoc(s: State, run: seq<Action>, a: Action)
    requires ValidRun(s, run) && Enabled(After(s, run), a)
    ensures ValidRun(s, run + [a]) && After(s, run + [a]) == Next(After(s, run), a)
    decreases |run|
  {
    if run == [] {
      assert [] + [a] == [a] && [a][1..] == [];
    } else {
      assert (run + [a])[1..] == run[1..] + [a];
      Snoc(Next(s, run[0]), run[1..], a);
    }
  }

  // ----- What the recorded flushed sequence means -----

  function Numbers(history: seq<Change>): set<nat> {
    set i | 0 <= i < |history| :: history[i].sequence
  }

  /** Every number handed out since `start` is pending or has landed, never both. */
  ghost predicate NumbersKept(start: nat, s: State) {
    && start <= s.redis.sequence
    && (forall n: nat :: start < n <= s.redis.sequence <==> n in s.pending || n in Numbers(s.history))
    && s.pending !! Numbers(s.history)
    && (!s.flusher.Idle? ==> s.flusher.sequence <= s.redis.sequence)
  }

  /** Redis is the replay of what has landed. */
  ghost predicate Replayed(start: map<Id, Element>, s: State) {
    s.redis.elements == ChangeLog.Replay(start, s.history)
  }

  ghost predicate Accounted(start: State, s: State) {
    NumbersKept(start.redis.sequence, s) && Replayed(start.redis.elements, s)
  }

  lemma NumbersSnoc(history: seq<Change>, c: Change)
    ensures Numbers(history + [c]) == Numbers(history) + {c.sequence}
  {
    var h := history + [c];
    assert h[|history|] == c;
    assert forall i | 0 <= i < |history| :: h[i] == history[i];
  }

  lemma StepReplays(start: map<Id, Element>, s: State, a: Action)
    requires Replayed(start, s) && Enabled(s, a)
    ensures Replayed(start, Next(s, a))
  {
    hide HSetAll;
    if a.Write? {
      var h := s.history + [a.c];
      assert h[..|h| - 1] == s.history && h[|h| - 1] == a.c;
    }
  }

  lemma StepNumbers(start: nat, s: State, a: Action)
    requires NumbersKept(start, s) && Enabled(s, a)
    ensures NumbersKept(start, Next(s, a))
  {
    hide HSetAll, Numbers;
    if a.Write? {
      NumbersSnoc(s.history, a.c);
    }
  }

  lemma StepAccounts(start: State, s: State, a: Action)
    requires Accounted(start, s) && Enabled(s, a)
    ensures Accounted(start, Next(s, a))
  {
    hide Next, NumbersKept, Replayed;
    StepReplays(start.redis.elements, s, a);
    StepNumbers(start.redis.sequence, s, a);
  }

  lemma {:induction false} RunAccounts(start: State, s: State, run: seq<Action>)
    requires Accounted(start, s) && ValidRun(s, run)
    ensures Accounted(start, After(s, run))
    decreases |run|
  {
    hide Accounted, Next;
    if run != [] {
      StepAccounts(start, s, run[0]);
      RunAccounts(start, Next(s, run[0]), run[1..]);
    }
  }

  /** When a clear is accepted the table holds exactly the changes that have landed. The sequence number
      it records covers only landed changes if and only if no number up to it is still pending. */
  lemma FlushedSequenceIsDurableIff(s: State, run: seq<Action>)
    requires Init(s) && ValidRun(s, run) && ClearAccepted(After(s, run), Clear)
    ensures var t := After(s, run); var t' := Next(t, Clear); var q := t.flusher.sequence;
      && t'.redis.lastFlushedSequence == Some(q)
      && TableContent(t'.rows) == RedisContent(ChangeLog.Replay(s.redis.elements, t'.history))
      && ((forall n: nat | s.redis.sequence < n <= q :: n in Numbers(t'.history)) <==> (forall n | n in t'.pending :: n > q))
  {
    assert Numbers([]) == {} && ChangeLog.Replay(s.redis.elements, []) == s.redis.elements;
    RunAccounts(s, s, run);
    AcceptedClearIsFullSnapshot(s, run, 0);
  }

  /** While one flush is under way, new numbers are above the one it read. */
  lemma {:induction false} NewNumbersAreAbove(s: State, run: seq<Action>)
    requires !s.flusher.Idle? && s.flusher.sequence <= s.redis.sequence && (forall n | n in s.pending :: n > s.flusher.sequence)
    requires ValidRun(s, run) && forall i | 0 <= i < |run| :: !Finishes(run[i])
    ensures var t := After(s, run);
      !t.flusher.Idle? && t.flusher.sequence == s.flusher.sequence && forall n | n in t.pending :: n > t.flusher.sequence
    decreases |run|
  {
    if run != [] {
      NewNumbersAreAbove(Next(s, run[0]), run[1..]);
    }
  }

  lemma {:induction false} RunAppend(s: State, run: seq<Action>, more: seq<Action>)
    requires ValidRun(s, run) && ValidRun(After(s, run), more)
    ensures ValidRun(s, run + more) && After(s, run + more) == After(After(s, run), more)
    decreases |run|
  {
    if run == [] {
      assert run + more == more;
    } else {
      assert (run + more)[1..] == run[1..] + more;
      RunAppend(Next(s, run[0]), run[1..], more);
    }
  }

  /** A flush that starts while no number is pending, as one under the board lock does, records a number
      up to which every change is in the table. */
  lemma LockedFlushIsDurable(s: State, run: seq<Action>, between: seq<Action>)
    requires Init(s) && ValidRun(s, run) && After(s, run).pending == {} && Enabled(After(s, run), ReadSequence)
    requires ValidRun(Next(After(s, run), ReadSequence), between) && forall i | 0 <= i < |between| :: !Finishes(between[i])
    requires ClearAccepted(After(Next(After(s, run), ReadSequence), between), Clear)
    ensures var t := Next(After(Next(After(s, run), ReadSequence), between), Clear);
      && t.redis.lastFlushedSequence == Some(After(s, run).redis.sequence)
      && (forall n: nat | s.redis.sequence < n <= After(s, run).redis.sequence :: n in Numbers(t.history))
      && TableContent(t.rows) == RedisContent(ChangeLog.Replay(s.redis.elements, t.history))
  {
    var s0 := After(s, run);
    var s1 := Next(s0, ReadSequence);
    assert s1.flusher == Started(s0.redis.sequence) && s1.redis == s0.redis && s1.pending == {};
    hide Next, Accounted, Numbers;
    NewNumbersAreAbove(s1, between);
    Then(s0, ReadSequence, between);
    RunAppend(s, run, [ReadSequence] + between);
    FlushedSequenceIsDurableIff(s, run + ([ReadSequence] + between));
    ClearKeepsPending(After(s1, between));
  }

  lemma ClearKeepsPending(s: State)
    requires Enabled(s, Clear)
    ensures Next(s, Clear).pending == s.pending && Next(s, Clear).history == s.history
  {
  }

  /** The recorded flushed sequence may run ahead of the table: a writer that has its number
      but not yet run its pipeline is counted as flushed. */
  lemma FlushedSequenceMayRunAhead(s: State, e: Element) returns (run: seq<Action>)
    requires Init(s) && s.incremental && IdOf(e) !in s.rows
    ensures var c := Change(s.redis.sequence + 1, 0, [e], {});
      && ValidRun(s, run)
      && After(s, run).redis.lastFlushedSequence == Some(c.sequence)
      && Enabled(After(s, run), Write(c, false))
      && !AgreeOn(Next(After(s, run), Write(c, false)).rows, Next(After(s, run), Write(c, false)).redis.elements, IdOf(e))
  {
    var steps := [Increment, ReadSequence, ReadEpoch, ReadDirty, ReadDeleted, ReadElements, Clear];
    run := [];
    assert s.redis.dirty <= Marked(s) && s.redis.deleted <= Marked(s);
    for i := 0 to 7
      invariant run == steps[..i] && ValidRun(s, run)
      invariant var t := After(s, run);
        && t.incremental && t.rows == s.rows && t.redis.dirty == t.redis.deleted == {} && t.redis.epoch == s.redis.epoch
        && t.redis.sequence == s.redis.sequence + (if i == 0 then 0 else 1)
        && (i > 0 ==> s.redis.sequence + 1 in t.pending)
        && (i < 2 ==> t.flusher == Idle)
        && (i == 2 ==> t.flusher == Started(t.redis.sequence))
        && (3 <= i < 6 ==> t.flusher == Reading(t.redis.sequence, t.redis.epoch,
              if i > 3 then Some({}) else None, if i > 4 then Some({}) else None))
        && (i == 6 ==> t.flusher == Written(t.redis.sequence, t.redis.epoch))
        && (i == 7 ==> t.redis.lastFlushedSequence == Some(t.redis.sequence))
    {
      Snoc(s, run, steps[i]);
      run := run + [steps[i]];
    }
    var c := Change(s.redis.sequence + 1, 0, [e], {});
    NewElementIsWritten(After(s, run), e, c.sequence);
  }

  lemma NewElementIsWritten(s: State, e: Element, n: nat)
    requires n in s.pending && IdOf(e) !in s.rows
    ensures var s' := Next(s, Write(Change(n, 0, [e], {}), false)); !AgreeOn(s'.rows, s'.redis.elements, IdOf(e))
  {
    WrittenElements(s.redis.elements, Change(n, 0, [e], {}));
    OrderedMap.EntryIsValue(ById([e]), 0);
  }

  // ----- A flush that nothing interrupts -----

  function FlushedRows(incremental: bool, r: RedisBoard, rows: Rows, now: Time): Rows {
    if !incremental then FullSnapshot(r.elements, now)
    else if r.dirty == {} && r.deleted == {} then rows
    else WriteRows(rows, r.dirty, r.deleted, Fetch(r.elements, r.dirty), now)
  }

  function FlushedRedis(incremental: bool, r: RedisBoard): RedisBoard {
    CompareAndClear(r, r.epoch, r.sequence, incremental)
  }

  /** The steps of a flush with nothing in between; with no marker there is nothing to commit. */
  function FlushSteps(s: State, now: Time): seq<Action> {
    [ReadSequence, ReadEpoch]
    + (if s.incremental then [ReadDirty, ReadDeleted] else [])
    + [ReadElements]
    + (if s.incremental && Marked(s) == {} then [] else [Commit(now)])
    + [Clear]
  }

  lemma Then(s: State, a: Action, rest: seq<Action>)
    requires Enabled(s, a) && ValidRun(Next(s, a), rest)
    ensures ValidRun(s, [a] + rest) && After(s, [a] + rest) == After(Next(s, a), rest)
  {
    assert ([a] + rest)[1..] == rest;
  }

  /** What a flush leaves when nothing interrupts it. */
  function Flushed(s: State, now: Time): State {
    s.(redis := FlushedRedis(s.incremental, s.redis), rows := FlushedRows(s.incremental, s.redis, s.rows, now),
       flusher := Idle, window := [])
  }

  lemma StepsFlush(s: State, now: Time)
    requires s.flusher.Idle?
    ensures ValidRun(s, FlushSteps(s, now)) && After(s, FlushSteps(s, now)) == Flushed(s, now)
  {
    hide Next, Enabled, Flushed;
    FirstReads(s);
    var s1 := Next(s, ReadSequence);
    var s2 := Next(s1, ReadEpoch);
    EndOfFlush(s, now);
    var tail := EndSteps(s, now);
    if s.incremental {
      MarkerReads(s);
      Then(Next(s2, ReadDirty), ReadDeleted, tail);
      Then(s2, ReadDirty, [ReadDeleted] + tail);
      tail := [ReadDirty] + ([ReadDeleted] + tail);
    }
    Then(s1, ReadEpoch, tail);
    Then(s, ReadSequence, [ReadEpoch] + tail);
    assert [ReadSequence] + ([ReadEpoch] + tail) == FlushSteps(s, now);
  }

  /** A flush from the read of the elements on. */
  function EndSteps(s: State, now: Time): seq<Action> {
    [ReadElements] + (if s.incremental && Marked(s) == {} then [] else [Commit(now)]) + [Clear]
  }

  function MarkersRead(s: State): State {
    var r := s.redis;
    s.(flusher := Reading(r.sequence, r.epoch, if s.incremental then Some(r.dirty) else None,
                          if s.incremental then Some(r.deleted) else None))
  }

  lemma FirstReads(s: State)
    requires s.flusher.Idle?
    ensures Enabled(s, ReadSequence) && Enabled(Next(s, ReadSequence), ReadEpoch)
    ensures !s.incremental ==> Next(Next(s, ReadSequence), ReadEpoch) == MarkersRead(s)
  {
  }

  lemma MarkerReads(s: State)
    requires s.flusher.Idle? && s.incremental
    ensures Enabled(s, ReadSequence) && Enabled(Next(s, ReadSequence), ReadEpoch)
    ensures var s2 := Next(Next(s, ReadSequence), ReadEpoch);
      Enabled(s2, ReadDirty) && Enabled(Next(s2, ReadDirty), ReadDeleted) && Next(Next(s2, ReadDirty), ReadDeleted) == MarkersRead(s)
  {
  }

  lemma EndOfFlush(s: State, now: Time)
    requires s.flusher.Idle?
    ensures ValidRun(MarkersRead(s), EndSteps(s, now)) && After(MarkersRead(s), EndSteps(s, now)) == Flushed(s, now)
  {
    hide CompareAndClear, WriteRows, FullSnapshot;
    var s4 := MarkersRead(s);
    var s5 := Next(s4, ReadElements);
    assert s5.flusher.Written? <==> s.incremental && Marked(s) == {};
    var s6 := if s5.flusher.Written? then s5 else Next(s5, Commit(now));
    Then(s6, Clear, []);
    var tail := [Clear] + [];
    if !s5.flusher.Written? {
      Then(s5, Commit(now), tail);
      tail := [Commit(now)] + tail;
    }
    Then(s4, ReadElements, tail);
    assert [ReadElements] + tail == EndSteps(s, now);
  }

  /** The steps of a flush in a row are one atomic flush, in both modes and with or without markers; it
      leaves Postgres equal to Redis, the markers gone, and everything a reader of Redis sees untouched. */
  lemma QuietFlush(s: State, now: Time)
    requires Inv(s) && s.flusher.Idle?
    ensures ValidRun(s, FlushSteps(s, now)) && After(s, FlushSteps(s, now)) == Flushed(s, now)
    ensures Inv(Flushed(s, now))
    ensures TableContent(Flushed(s, now).rows) == RedisContent(s.redis.elements)
    ensures Flushed(s, now).redis.elements == s.redis.elements
    ensures s.incremental ==> Marked(Flushed(s, now)) == {}
  {
    hide Inv, FlushSteps;
    StepsFlush(s, now);
    RunKeepsInv(s, FlushSteps(s, now));
    SyncedWhenClean(Flushed(s, now));
  }

  lemma SyncedWhenClean(s: State)
    requires Inv(s) && s.window == []
    ensures TableContent(s.rows) == RedisContent(s.redis.elements)
    ensures s.incremental ==> Marked(s) == {}
  {
    AgreeEverywhere(s.rows, s.redis.elements);
  }

  /** The one exception: an incremental flush never writes an element whose id is empty, yet its
      accepted clear forgets the marker. */
  lemma EmptyIdIsNeverFlushed(r: RedisBoard, rows: Rows, e: Element, now: Time)
    requires IdOf(e) == "" && "" !in rows && "" !in r.dirty + r.deleted
    ensures var w := Pipeline(NextSequence(r), Change(r.sequence + 1, now, [e], {}), false);
      && "" in w.dirty && "" in FlushedRedis(true, w).elements
      && "" !in FlushedRows(true, w, rows, now)
      && FlushedRedis(true, w).dirty == FlushedRedis(true, w).deleted == {}
  {
    WrittenElements(r.elements, Change(r.sequence + 1, now, [e], {}));
    OrderedMap.EntryIsValue(ById([e]), 0);
    assert ById([e])[0].0 in IdsOf([e]);
  }
}
