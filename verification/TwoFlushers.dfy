/** Two flushers at once. Each process lines up its own flushes of a board, but nothing lines up those of
    two processes: the epoch guards the clear of a flush, not its row write. */
module TwoFlushers {
  import opened Elements
  import opened BoardState
  import opened FlushProtocol

  /** The flush machine, and a second flusher over the same keys and table. */
  datatype Pair = Pair(s: State, other: Flusher)

  /** A step, by the second flusher or not; it does not matter for the steps of writers. */
  datatype Step = Step(second: bool, a: Action)

  function Swap(p: Pair): Pair {
    Pair(p.s.(flusher := p.other), p.s.flusher)
  }

  predicate PairEnabled(p: Pair, t: Step) {
    Enabled(if t.second then Swap(p).s else p.s, t.a)
  }

  function PairNext(p: Pair, t: Step): Pair
    requires PairEnabled(p, t)
  {
    if t.second then Swap(Pair(Next(Swap(p).s, t.a), Swap(p).other)) else Pair(Next(p.s, t.a), p.other)
  }

  ghost predicate PairRun(p: Pair, run: seq<Step>)
    decreases |run|
  {
    run == [] || (PairEnabled(p, run[0]) && PairRun(PairNext(p, run[0]), run[1..]))
  }

  function PairAfter(p: Pair, run: seq<Step>): Pair
    requires PairRun(p, run)
    decreases |run|
  {
    if run == [] then p else PairAfter(PairNext(p, run[0]), run[1..])
  }

  // ----- Stale commits -----

  /** The row write of a flush whose epoch has moved on. */
  predicate StaleCommit(s: State, a: Action) {
    a.Commit? && (s.flusher.Fetched? || s.flusher.FetchedAll?) && s.flusher.epoch != s.redis.epoch
  }

  /** What a flush holds for an id, among those it writes, is what Redis holds now. */
  ghost predicate Current(values: map<Id, Element>, elements: map<Id, Element>, id: Id) {
    && (id in values <==> id in elements)
    && (id in values ==> RowContent(ToElementRow(values[id], 0)) == RowContent(ToElementRow(elements[id], 0)))
  }

  /** The ids on which the table may differ from Redis: those marked, but none while the other flusher has
      written and its clear would still be accepted. */
  function MayDiffer(s: State, other: Flusher): set<Id> {
    if other.Written? && other.epoch == s.redis.epoch then {} else Marked(s)
  }

  /** A row write keeps the table in agreement outside `free` if and only if what it holds of
      each id it writes outside `free` is current. */
  lemma CommitIsHarmlessIff(s: State, now: Time, free: set<Id>)
    requires s.flusher.Fetched? && s.flusher.values.Keys <= s.flusher.dirty
    requires AgreeOutside(s.rows, s.redis.elements, free)
    ensures var f := s.flusher;
      AgreeOutside(Next(s, Commit(now)).rows, s.redis.elements, free) <==>
        forall id | id in f.dirty + f.deleted && id !in free && id != "" :: Current(f.values, s.redis.elements, id)
  {
    hide RowContent, ToElementRow;
    forall id | id !in free && id != ""
      ensures AgreeOn(Next(s, Commit(now)).rows, s.redis.elements, id) <==>
        (id in s.flusher.dirty + s.flusher.deleted ==> Current(s.flusher.values, s.redis.elements, id))
    {
      assert AgreeOn(s.rows, s.redis.elements, id);
      CommitAt(s, now, id);
    }
  }

  /** A full snapshot leaves the table in agreement if and only if it has the content of Redis now. */
  lemma SnapshotIsHarmlessIff(s: State, now: Time)
    requires s.flusher.FetchedAll?
    ensures AgreeOutside(Next(s, Commit(now)).rows, s.redis.elements, {}) <==> RedisContent(s.flusher.all) == RedisContent(s.redis.elements)
  {
    AgreeEverywhere(FullSnapshot(s.flusher.all, now), s.redis.elements);
    SnapshotContent(s.flusher.all, now);
  }

  /** Whether the whole table must agree: in full-snapshot mode, with no write since the last accepted clear, or after
      a row write of the other flusher whose clear would still be accepted. */
  predicate MustAgree(s: State, other: Flusher) {
    s.window == [] || (other.Written? && other.epoch == s.redis.epoch)
  }

  lemma CommitAt(s: State, now: Time, id: Id)
    requires s.flusher.Fetched? && s.flusher.values.Keys <= s.flusher.dirty
    requires AgreeOn(s.rows, s.redis.elements, id) && id != ""
    ensures AgreeOn(Next(s, Commit(now)).rows, s.redis.elements, id) <==>
      (id in s.flusher.dirty + s.flusher.deleted ==> Current(s.flusher.values, s.redis.elements, id))
  {
    var f, rows := s.flusher, Next(s, Commit(now)).rows;
    if id in f.values {
      assert rows[id] == ToElementRow(f.values[id], now);
      assert RowContent(rows[id]) == RowContent(ToElementRow(f.values[id], 0));
    } else if id in f.dirty + f.deleted {
      assert id !in rows;
    } else {
      assert id in rows <==> id in s.rows;
    }
  }

  // ----- Runs -----

  /** A flusher whose epoch is current holds current content, and its marks cover the board's. */
  ghost predicate Fresh(s: State, f: Flusher) {
    match f
    case Idle => true
    case Started(_) => true
    case Reading(_, e, d, x) =>
      && (e == s.redis.epoch && d.Some? ==> s.redis.dirty <= d.value)
      && (e == s.redis.epoch && x.Some? ==> s.redis.deleted <= x.value && x.value !! s.redis.elements.Keys)
      && e <= s.redis.epoch
    case Fetched(_, e, d, x, values) =>
      && s.incremental && Keyed(values) && values.Keys <= d
      && (e == s.redis.epoch ==>
            s.redis.dirty <= d && s.redis.deleted <= x && x !! s.redis.elements.Keys && values == Fetch(s.redis.elements, d))
      && e <= s.redis.epoch
    case FetchedAll(_, e, all) => !s.incremental && Keyed(all) && (e == s.redis.epoch ==> all == s.redis.elements) && e <= s.redis.epoch
    case Written(_, e) => (e == s.redis.epoch ==> AgreeOutside(s.rows, s.redis.elements, {})) && e <= s.redis.epoch
  }

  ghost predicate BoardInv(s: State) {
    && Keyed(s.redis.elements) && WellFormedTable(s.rows)
    && s.redis.deleted !! s.redis.elements.Keys
    && Durable(s) && Indexed(s)
  }

  ghost predicate PairInv(p: Pair) {
    BoardInv(p.s) && Fresh(p.s, p.s.flusher) && Fresh(p.s, p.other)
  }

  /** A stale commit is harmless if it writes nothing but current content where the table must agree. */
  ghost predicate Harmless(s: State, other: Flusher, a: Action) {
    StaleCommit(s, a) ==>
      if s.flusher.FetchedAll? then MustAgree(s, other) ==> RedisContent(s.flusher.all) == RedisContent(s.redis.elements)
      else forall id | id in s.flusher.dirty + s.flusher.deleted && id !in MayDiffer(s, other) && id != "" ::
        Current(s.flusher.values, s.redis.elements, id)
  }

  lemma WriteStep(s: State, other: Flusher, c: Change, track: bool)
    requires BoardInv(s) && Enabled(s, Write(c, track)) && Fresh(s, other)
    ensures BoardInv(Next(s, Write(c, track))) && Fresh(Next(s, Write(c, track)), other)
  {
    var s' := Next(s, Write(c, track));
    LastWinsKeyed(c.upserts);
    WrittenElements(s.redis.elements, c);
    assert s'.redis.elements == s.redis.elements + LastWins(c.upserts) - c.deletes;
    assert Marked(s') == Marked(s) + IdsOf(c.upserts) + c.deletes;
    if s.incremental {
      forall id | id !in Marked(s') && id != "" ensures AgreeOn(s'.rows, s'.redis.elements, id) {
        assert AgreeOn(s.rows, s.redis.elements, id);
      }
    }
  }

  /** A current commit makes every id agree. */
  lemma CurrentCommit(s: State, now: Time)
    requires BoardInv(s) && s.flusher.Fetched? && s.flusher.epoch == s.redis.epoch && Fresh(s, s.flusher)
    ensures AgreeOutside(Next(s, Commit(now)).rows, s.redis.elements, {})
  {
    hide RowContent, ToElementRow;
    var f := s.flusher;
    forall id | id != "" ensures AgreeOn(Next(s, Commit(now)).rows, s.redis.elements, id) {
      if id in f.dirty + f.deleted {
        WrittenCurrent(s, now, id);
      } else {
        assert AgreeOn(s.rows, s.redis.elements, id);
        CommitAt(s, now, id);
      }
    }
  }

  lemma WrittenCurrent(s: State, now: Time, id: Id)
    requires s.flusher.Fetched? && id in s.flusher.dirty + s.flusher.deleted && id != ""
    requires s.flusher.values == Fetch(s.redis.elements, s.flusher.dirty) && s.flusher.deleted !! s.redis.elements.Keys
    ensures AgreeOn(Next(s, Commit(now)).rows, s.redis.elements, id)
  {
  }

  lemma CommitKeepsTable(s: State, now: Time)
    requires BoardInv(s) && Fresh(s, s.flusher) && Enabled(s, Commit(now))
    ensures WellFormedTable(Next(s, Commit(now)).rows)
  {
  }

  /** What a harmless commit leaves, where the table must agree. */
  lemma CommitAgrees(s: State, other: Flusher, now: Time)
    requires PairInv(Pair(s, other)) && Enabled(s, Commit(now)) && Harmless(s, other, Commit(now)) && s.flusher.Fetched?
    ensures AgreeOutside(Next(s, Commit(now)).rows, s.redis.elements, MayDiffer(s, other))
    ensures s.flusher.epoch == s.redis.epoch ==> AgreeOutside(Next(s, Commit(now)).rows, s.redis.elements, {})
  {
    hide RowContent, ToElementRow, AgreeOn, Indexed, WellFormedTable, Keyed, WriteRows;
    if s.flusher.epoch == s.redis.epoch {
      CurrentCommit(s, now);
    } else {
      CommitIsHarmlessIff(s, now, MayDiffer(s, other));
    }
  }

  lemma SnapshotAgrees(s: State, other: Flusher, now: Time)
    requires PairInv(Pair(s, other)) && Enabled(s, Commit(now)) && Harmless(s, other, Commit(now)) && s.flusher.FetchedAll?
    ensures s.flusher.epoch == s.redis.epoch || MustAgree(s, other) ==> AgreeOutside(Next(s, Commit(now)).rows, s.redis.elements, {})
  {
    hide RowContent, ToElementRow, AgreeOn, AgreeOutside, Indexed, WellFormedTable, Keyed, WriteRows, FullSnapshot;
    SnapshotIsHarmlessIff(s, now);
  }

  lemma CommitOnlyWrites(s: State, now: Time)
    requires s.flusher.Fetched? || s.flusher.FetchedAll?
    ensures Next(s, Commit(now)) == s.(rows := Next(s, Commit(now)).rows, flusher := Written(s.flusher.sequence, s.flusher.epoch))
  {
    hide WriteRows, FullSnapshot;
  }

  lemma CommitStep(s: State, other: Flusher, now: Time)
    requires PairInv(Pair(s, other)) && Enabled(s, Commit(now)) && Harmless(s, other, Commit(now))
    ensures PairInv(Pair(Next(s, Commit(now)), other))
  {
    CommitOnlyWrites(s, now);
    CommitKeepsTable(s, now);
    if s.flusher.Fetched? {
      CommitAgrees(s, other, now);
    } else {
      SnapshotAgrees(s, other, now);
    }
    hide Next, RowContent, ToElementRow, AgreeOn, WellFormedTable, Keyed, Harmless, RedisContent;
  }

  lemma ReadStep(s: State, other: Flusher, a: Action)
    requires PairInv(Pair(s, other)) && Enabled(s, a)
    requires a.ReadSequence? || a.ReadEpoch? || a.ReadDirty? || a.ReadDeleted? || a.ReadElements?
    ensures PairInv(Pair(Next(s, a), other))
  {
    var f := Next(s, a).flusher;
    if a.ReadElements? {
      ElementsRead(s);
    } else {
      hide AgreeOn, Indexed, WellFormedTable, Keyed, Fetch;
    }
    assert Fresh(s, f);
    FlusherIsNoPart(s, f);
    hide Fresh, BoardInv;
    assert Next(s, a) == s.(flusher := f);
  }

  lemma ElementsRead(s: State)
    requires BoardInv(s) && Fresh(s, s.flusher) && Enabled(s, ReadElements)
    ensures Fresh(s, Next(s, ReadElements).flusher)
  {
    hide AgreeOn, Indexed, WellFormedTable;
    if s.incremental && s.flusher.epoch == s.redis.epoch && s.flusher.dirtyIds.value == {} && s.flusher.deletedIds.value == {} {
      assert Marked(s) == {};
    }
  }

  lemma ClearStep(s: State, other: Flusher)
    requires PairInv(Pair(s, other)) && Enabled(s, Clear)
    ensures PairInv(Pair(Next(s, Clear), other))
  {
    hide AgreeOn, RowContent, ToElementRow;
    if s.incremental && ClearAccepted(s, Clear) {
      assert Marked(Next(s, Clear)) == {};
    }
  }

  lemma IncrementStep(s: State, other: Flusher)
    requires PairInv(Pair(s, other))
    ensures PairInv(Pair(Next(s, Increment), other))
  {
    hide AgreeOn, RowContent, ToElementRow;
  }

  lemma PairStep(s: State, other: Flusher, a: Action)
    requires PairInv(Pair(s, other)) && Enabled(s, a) && Harmless(s, other, a)
    ensures PairInv(Pair(Next(s, a), other))
  {
    hide AgreeOutside, Harmless, Indexed, Fresh, Pipeline, WriteRows, CompareAndClear;
    match a
    case Increment => IncrementStep(s, other);
    case Write(c, track) =>
      WriteStep(s, other, c, track);
      WriteStep(s, s.flusher, c, track);
    case Commit(now) => CommitStep(s, other, now);
    case Clear => ClearStep(s, other);
    case Crash => CrashStep(s, other);
    case _ => ReadStep(s, other, a);
  }

  lemma CrashStep(s: State, other: Flusher)
    requires PairInv(Pair(s, other))
    ensures PairInv(Pair(Next(s, Crash), other))
  {
    FlusherIsNoPart(s, Idle);
    hide BoardInv;
    assert Fresh(s, Idle);
  }

  lemma SwapKeeps(p: Pair)
    ensures PairInv(Swap(p)) == PairInv(p)
  {
    hide AgreeOutside, Indexed;
    FlusherIsNoPart(p.s, p.other);
  }

  lemma FlusherIsNoPart(s: State, f: Flusher)
    ensures BoardInv(s.(flusher := f)) == BoardInv(s)
    ensures forall g :: Fresh(s.(flusher := f), g) == Fresh(s, g)
  {
    hide AgreeOutside;
  }

  ghost predicate HarmlessStep(p: Pair, t: Step) {
    if t.second then Harmless(Swap(p).s, Swap(p).other, t.a) else Harmless(p.s, p.other, t.a)
  }

  ghost predicate HarmlessRun(p: Pair, run: seq<Step>)
    requires PairRun(p, run)
    decreases |run|
  {
    run == [] || (HarmlessStep(p, run[0]) && HarmlessRun(PairNext(p, run[0]), run[1..]))
  }

  lemma StepKeepsMode(p: Pair, t: Step)
    requires PairEnabled(p, t)
    ensures PairNext(p, t).s.incremental == p.s.incremental
  {
  }

  lemma {:induction false} PairRunKeepsInv(p: Pair, run: seq<Step>)
    requires PairInv(p) && PairRun(p, run) && HarmlessRun(p, run)
    ensures PairInv(PairAfter(p, run)) && PairAfter(p, run).s.incremental == p.s.incremental
    decreases |run|
  {
    hide PairInv, Harmless, Enabled, Next;
    if run != [] {
      if run[0].second {
        SwapKeeps(p);
        PairStep(Swap(p).s, Swap(p).other, run[0].a);
        SwapKeeps(Pair(Next(Swap(p).s, run[0].a), Swap(p).other));
      } else {
        assert p == Pair(p.s, p.other);
        PairStep(p.s, p.other, run[0].a);
      }
      StepKeepsMode(p, run[0]);
      PairRunKeepsInv(PairNext(p, run[0]), run[1..]);
    }
  }

  /** What flushing keeps: unmarked ids agree, in full-snapshot mode a board outside the dirty index agrees, and
      the indexes follow the writes. */
  ghost predicate Kept(incremental: bool, t: State, id: Id) {
    && t.incremental == incremental
    && (incremental ==> (id !in Marked(t) && id != "" ==> AgreeOn(t.rows, t.redis.elements, id)))
    && (incremental && Marked(t) != {} ==> t.window != [])
    && (!incremental && !t.redis.inDirtyBoards ==> TableContent(t.rows) == RedisContent(t.redis.elements))
    && (t.window != [] ==> t.redis.inDirtyBoards && t.redis.dirtyAge == t.redis.dirtySince == Some(t.window[0]))
  }

  lemma InvKept(incremental: bool, s: State, id: Id)
    requires BoardInv(s) && s.incremental == incremental
    ensures Kept(incremental, s, id)
  {
    hide AgreeOn, RedisContent, TableContent;
    AgreeEverywhere(s.rows, s.redis.elements);
  }

  lemma StartInv(s: State)
    requires Init(s)
    ensures PairInv(Pair(s, Idle))
  {
    hide AgreeOn, RedisContent, TableContent;
    AgreeEverywhere(s.rows, s.redis.elements);
  }

  /** Two flushers may overlap in any way, in either mode: as long as every stale commit is harmless, what one flusher
      keeps is kept. A stale commit that is not harmless breaks it at once, by CommitIsHarmlessIff and
      SnapshotIsHarmlessIff. */
  lemma TwoFlushersAreSafe(s: State, run: seq<Step>, id: Id)
    requires Init(s) && PairRun(Pair(s, Idle), run) && HarmlessRun(Pair(s, Idle), run)
    ensures Kept(s.incremental, PairAfter(Pair(s, Idle), run).s, id)
  {
    StartInv(s);
    PairRunKeepsInv(Pair(s, Idle), run);
    InvKept(s.incremental, PairAfter(Pair(s, Idle), run).s, id);
  }

  // ----- Exactly when -----

  /** The table has what it should now, and what it should once a clear that would be accepted has been. */
  ghost predicate TableIsRight(p: Pair) {
    Durable(p.s) && ClearIsRight(p.s, p.s.flusher) && ClearIsRight(p.s, p.other)
  }

  ghost predicate ClearIsRight(s: State, f: Flusher) {
    f.Written? && f.epoch == s.redis.epoch ==> AgreeOutside(s.rows, s.redis.elements, {})
  }

  ghost predicate RightThroughout(p: Pair, run: seq<Step>)
    requires PairRun(p, run)
    decreases |run|
  {
    TableIsRight(p) && (run != [] ==> RightThroughout(PairNext(p, run[0]), run[1..]))
  }

  lemma InvIsRight(p: Pair)
    requires PairInv(p)
    ensures TableIsRight(p)
  {
    hide AgreeOutside;
  }

  lemma RightIsHarmless(s: State, other: Flusher, a: Action)
    requires PairInv(Pair(s, other)) && Enabled(s, a) && TableIsRight(Pair(Next(s, a), other))
    ensures Harmless(s, other, a)
  {
    hide AgreeOn, RedisContent, WriteRows, FullSnapshot, RowContent, ToElementRow;
    if StaleCommit(s, a) {
      if s.flusher.Fetched? {
        CommitOnlyWrites(s, a.now);
        CommitIsHarmlessIff(s, a.now, MayDiffer(s, other));
      } else {
        SnapshotIsHarmlessIff(s, a.now);
      }
    }
  }

  lemma RightSwap(p: Pair)
    ensures TableIsRight(Swap(p)) == TableIsRight(p)
  {
    hide AgreeOutside;
  }

  lemma RightStepIff(p: Pair, t: Step)
    requires PairInv(p) && PairEnabled(p, t)
    ensures HarmlessStep(p, t) ==> PairInv(PairNext(p, t))
    ensures TableIsRight(PairNext(p, t)) ==> HarmlessStep(p, t)
  {
    hide PairInv, Harmless, Enabled, Next, TableIsRight;
    var q := if t.second then Swap(p) else p;
    SwapKeeps(p);
    var r := Pair(Next(q.s, t.a), q.other);
    SwapKeeps(r);
    RightSwap(r);
    assert q == Pair(q.s, q.other);
    if Harmless(q.s, q.other, t.a) {
      PairStep(q.s, q.other, t.a);
    }
    if TableIsRight(r) {
      RightIsHarmless(q.s, q.other, t.a);
    }
  }

  lemma {:induction false} RightThroughoutIffHarmless(p: Pair, run: seq<Step>)
    requires PairInv(p) && PairRun(p, run)
    ensures RightThroughout(p, run) <==> HarmlessRun(p, run)
    decreases |run|
  {
    hide PairInv, HarmlessStep, PairEnabled, PairNext, TableIsRight;
    InvIsRight(p);
    if run != [] {
      RightStepIff(p, run[0]);
      var next := PairNext(p, run[0]);
      if HarmlessStep(p, run[0]) {
        RightThroughoutIffHarmless(next, run[1..]);
      } else {
        assert !RightThroughout(next, run[1..]);
      }
    }
  }

  /** The table is right at every moment of a run, in either mode, if and only if every stale commit is harmless. */
  lemma TwoFlushersAreRightIff(s: State, run: seq<Step>)
    requires Init(s) && PairRun(Pair(s, Idle), run)
    ensures RightThroughout(Pair(s, Idle), run) <==> HarmlessRun(Pair(s, Idle), run)
  {
    StartInv(s);
    RightThroughoutIffHarmless(Pair(s, Idle), run);
  }

  // ----- A condition on the schedule -----

  /** The pair, and for each flusher whether the other one had a clear accepted since it read markers. */
  datatype Watched = Watched(p: Pair, late: bool, otherLate: bool)

  /** The ids a flusher has read from the markers and not yet committed. */
  function ReadIds(f: Flusher): set<Id> {
    match f
    case Reading(_, _, d, x) => (if d.Some? then d.value else {}) + (if x.Some? then x.value else {})
    case Fetched(_, _, d, x, _) => d + x
    case _ => {}
  }

  predicate HasRead(incremental: bool, f: Flusher) {
    if incremental then ReadIds(f) != {} else f.Reading? || f.FetchedAll?
  }

  function SwapWatch(w: Watched): Watched {
    Watched(Swap(w.p), w.otherLate, w.late)
  }

  function WatchFirst(w: Watched, a: Action): Watched
    requires Enabled(w.p.s, a)
  {
    Watched(Pair(Next(w.p.s, a), w.p.other),
            if a.ReadEpoch? then false else w.late,
            w.otherLate || (ClearAccepted(w.p.s, a) && HasRead(w.p.s.incremental, w.p.other)))
  }

  function WatchNext(w: Watched, t: Step): Watched
    requires PairEnabled(w.p, t)
  {
    if t.second then SwapWatch(WatchFirst(SwapWatch(w), t.a)) else WatchFirst(w, t.a)
  }

  ghost predicate WatchedRun(w: Watched, run: seq<Step>)
    decreases |run|
  {
    run == [] || (PairEnabled(w.p, run[0]) && WatchedRun(WatchNext(w, run[0]), run[1..]))
  }

  function WatchedAfter(w: Watched, run: seq<Step>): Watched
    requires WatchedRun(w, run)
    decreases |run|
  {
    if run == [] then w else WatchedAfter(WatchNext(w, run[0]), run[1..])
  }

  /** A stale commit comes too late after a clear of the other flusher was accepted since its reads, or between the
      commit of the other and a clear that would still be accepted. */
  ghost predicate InTimeFirst(w: Watched, a: Action) {
    StaleCommit(w.p.s, a) ==> !w.late && !(w.p.other.Written? && w.p.other.epoch == w.p.s.redis.epoch)
  }

  ghost predicate InTime(w: Watched, t: Step) {
    if t.second then InTimeFirst(SwapWatch(w), t.a) else InTimeFirst(w, t.a)
  }

  ghost predicate InTimeRun(w: Watched, run: seq<Step>)
    requires WatchedRun(w, run)
    decreases |run|
  {
    run == [] || (InTime(w, run[0]) && InTimeRun(WatchNext(w, run[0]), run[1..]))
  }

  /** What a flusher that is not late has read is still marked; in full-snapshot mode there has been a write since the
      last accepted clear, unless its epoch is current. */
  ghost predicate Covered(s: State, f: Flusher) {
    if s.incremental then ReadIds(f) <= Marked(s)
    else (f.Reading? || f.FetchedAll?) ==> f.epoch == s.redis.epoch || s.window != []
  }

  ghost predicate StillMarked(w: Watched) {
    && (!w.late ==> Covered(w.p.s, w.p.s.flusher))
    && (!w.otherLate ==> Covered(w.p.s, w.p.other))
  }

  lemma InTimeIsHarmless(w: Watched, a: Action)
    requires StillMarked(w) && InTimeFirst(w, a) && Fresh(w.p.s, w.p.s.flusher)
    ensures Harmless(w.p.s, w.p.other, a)
  {
  }

  lemma WriteMarks(s: State, c: Change, track: bool)
    requires Enabled(s, Write(c, track))
    ensures Marked(s) <= Marked(Next(s, Write(c, track)))
  {
    hide HSetAll;
  }

  lemma WatchKeepsMarked(w: Watched, a: Action)
    requires StillMarked(w) && Enabled(w.p.s, a)
    ensures StillMarked(WatchFirst(w, a))
  {
    match a
    case Write(c, track) =>
      WriteMarks(w.p.s, c, track);
      hide Pipeline;
    case _ =>
  }

  lemma {:induction false} InTimeKeepsInv(w: Watched, run: seq<Step>)
    requires PairInv(w.p) && StillMarked(w) && WatchedRun(w, run) && InTimeRun(w, run)
    ensures PairInv(WatchedAfter(w, run).p) && WatchedAfter(w, run).p.s.incremental == w.p.s.incremental
    decreases |run|
  {
    hide PairInv, Harmless, Enabled, Next, InTimeFirst, StillMarked, ClearAccepted;
    if run != [] {
      if run[0].second {
        SwapKeeps(w.p);
        SwapKeepsMarked(w);
        InTimeStep(SwapWatch(w), run[0].a);
        var v := WatchFirst(SwapWatch(w), run[0].a);
        SwapKeeps(v.p);
        SwapKeepsMarked(v);
      } else {
        InTimeStep(w, run[0].a);
      }
      StepKeepsMode(w.p, run[0]);
      InTimeKeepsInv(WatchNext(w, run[0]), run[1..]);
    }
  }

  lemma InTimeStep(w: Watched, a: Action)
    requires PairInv(w.p) && StillMarked(w) && Enabled(w.p.s, a) && InTimeFirst(w, a)
    ensures PairInv(WatchFirst(w, a).p) && StillMarked(WatchFirst(w, a))
  {
    hide Harmless, Next, InTimeFirst, StillMarked;
    InTimeIsHarmless(w, a);
    assert w.p == Pair(w.p.s, w.p.other);
    PairStep(w.p.s, w.p.other, a);
    WatchKeepsMarked(w, a);
  }

  lemma SwapKeepsMarked(w: Watched)
    ensures StillMarked(SwapWatch(w)) == StillMarked(w)
  {
  }

  /** Two flushers are safe on every schedule in which no stale commit comes too late; the overlap of
      StaleCommitLosesAnEdit is one in which it does. */
  lemma ScheduleIsSafe(s: State, run: seq<Step>, id: Id)
    requires Init(s)
    requires WatchedRun(Watched(Pair(s, Idle), false, false), run) && InTimeRun(Watched(Pair(s, Idle), false, false), run)
    ensures Kept(s.incremental, WatchedAfter(Watched(Pair(s, Idle), false, false), run).p.s, id)
  {
    var w := Watched(Pair(s, Idle), false, false);
    StartInv(s);
    InTimeKeepsInv(w, run);
    InvKept(s.incremental, WatchedAfter(w, run).p.s, id);
  }

  // ----- A harmful overlap -----

  function By(second: bool, steps: seq<Action>): seq<Step> {
    seq(|steps|, i requires 0 <= i < |steps| => Step(second, steps[i]))
  }

  lemma {:induction false} FirstAlone(p: Pair, steps: seq<Action>)
    requires ValidRun(p.s, steps)
    ensures PairRun(p, By(false, steps)) && PairAfter(p, By(false, steps)) == Pair(After(p.s, steps), p.other)
    decreases |steps|
  {
    hide Next, Enabled;
    if steps != [] {
      assert By(false, steps)[1..] == By(false, steps[1..]);
      FirstAlone(Pair(Next(p.s, steps[0]), p.other), steps[1..]);
    }
  }

  lemma {:induction false} SecondAlone(p: Pair, steps: seq<Action>)
    requires ValidRun(Swap(p).s, steps)
    ensures PairRun(p, By(true, steps)) && PairAfter(p, By(true, steps)) == Swap(Pair(After(Swap(p).s, steps), p.s.flusher))
    decreases |steps|
  {
    hide Next, Enabled;
    if steps == [] {
      assert Swap(Swap(p)) == p;
    } else {
      assert By(true, steps)[1..] == By(true, steps[1..]);
      var p1 := PairNext(p, Step(true, steps[0]));
      assert Swap(p1) == Pair(Next(Swap(p).s, steps[0]), Swap(p).other);
      SecondAlone(p1, steps[1..]);
    }
  }

  lemma {:induction false} PairAppend(p: Pair, run: seq<Step>, more: seq<Step>)
    requires PairRun(p, run) && PairRun(PairAfter(p, run), more)
    ensures PairRun(p, run + more) && PairAfter(p, run + more) == PairAfter(PairAfter(p, run), more)
    decreases |run|
  {
    hide PairNext, PairEnabled;
    if run == [] {
      assert run + more == more;
    } else {
      assert (run + more)[1..] == run[1..] + more;
      PairAppend(PairNext(p, run[0]), run[1..], more);
    }
  }

  lemma OneUpsert(r: RedisBoard, e: Element, n: nat)
    ensures var w := Pipeline(r, Change(n, 0, [e], {}), false);
      && w.elements == r.elements[IdOf(e) := e] && w.dirty == r.dirty + {IdOf(e)} && w.deleted == r.deleted - {IdOf(e)}
      && w.epoch == r.epoch + 1 && w.sequence == r.sequence
  {
    WrittenElements(r.elements, Change(n, 0, [e], {}));
    LastWinsSnoc([], e);
    LastWinsKeyed([e]);
    assert [] + [e] == [e] && ById([]) == [];
    assert r.elements + map[IdOf(e) := e] - {} == r.elements[IdOf(e) := e];
  }

  function EditSteps(s: State, e: Element): seq<Action> {
    [Increment, Write(Change(s.redis.sequence + 1, 0, [e], {}), false)]
  }

  lemma Edit(s: State, e: Element)
    ensures ValidRun(s, EditSteps(s, e))
    ensures var t := After(s, EditSteps(s, e));
      && t.redis.elements == s.redis.elements[IdOf(e) := e]
      && t.redis.dirty == s.redis.dirty + {IdOf(e)} && t.redis.deleted == s.redis.deleted - {IdOf(e)}
      && t.flusher == s.flusher && t.incremental == s.incremental
  {
    var c := Change(s.redis.sequence + 1, 0, [e], {});
    var s1 := Next(s, Increment);
    OneUpsert(s1.redis, e, c.sequence);
    assert After(Next(s1, Write(c, false)), []) == Next(s1, Write(c, false));
    Then(s1, Write(c, false), []);
    Then(s, Increment, [Write(c, false)] + []);
    assert [Increment] + ([Write(c, false)] + []) == EditSteps(s, e);
  }

  const READS: seq<Action> := [ReadSequence, ReadEpoch, ReadDirty, ReadDeleted, ReadElements]

  lemma Reads(s: State)
    requires s.incremental && s.flusher.Idle? && s.redis.dirty != {}
    ensures ValidRun(s, READS)
    ensures var r := s.redis;
      After(s, READS) == s.(flusher := Fetched(r.sequence, r.epoch, r.dirty, r.deleted, Fetch(r.elements, r.dirty)))
  {
    var s1 := Next(s, ReadSequence);
    var s2 := Next(s1, ReadEpoch);
    var s3 := Next(s2, ReadDirty);
    var s4 := Next(s3, ReadDeleted);
    var s5 := Next(s4, ReadElements);
    Then(s4, ReadElements, []);
    Then(s3, ReadDeleted, [ReadElements] + []);
    Then(s2, ReadDirty, [ReadDeleted] + ([ReadElements] + []));
    Then(s1, ReadEpoch, [ReadDirty] + ([ReadDeleted] + ([ReadElements] + [])));
    Then(s, ReadSequence, [ReadEpoch] + ([ReadDirty] + ([ReadDeleted] + ([ReadElements] + []))));
    assert READS == [ReadSequence] + ([ReadEpoch] + ([ReadDirty] + ([ReadDeleted] + ([ReadElements] + []))));
  }

  lemma CleanStart(s: State)
    requires Init(s)
    ensures s.redis.dirty == {} && s.flusher == Idle
  {
    assert s.redis.dirty <= Marked(s);
  }

  lemma FetchOne(elements: map<Id, Element>, e: Element)
    ensures Fetch(elements[IdOf(e) := e], {IdOf(e)}) == map[IdOf(e) := e]
  {
  }

  /** The reads of the first flusher, before and after an edit of one element. */
  lemma ReadThenEdit(s: State, stale: Element, edit: Element) returns (steps: seq<Action>)
    requires Init(s) && s.incremental && IdOf(stale) == IdOf(edit)
    ensures ValidRun(s, steps)
    ensures var t, k := After(s, steps), IdOf(stale);
      && t.incremental && k in t.redis.elements && t.redis.elements[k] == edit
      && t.flusher.Fetched? && t.flusher.dirty == {k} && t.flusher.values == map[k := stale]
  {
    hide *;
    CleanStart(s);
    Edit(s, stale);
    var s1 := After(s, EditSteps(s, stale));
    assert s1.redis.dirty == {IdOf(stale)} && s1.flusher.Idle?;
    Reads(s1);
    var s2 := After(s1, READS);
    FetchOne(s.redis.elements, stale);
    Edit(s2, edit);
    RunAppend(s1, READS, EditSteps(s2, edit));
    RunAppend(s, EditSteps(s, stale), READS + EditSteps(s2, edit));
    steps := EditSteps(s, stale) + (READS + EditSteps(s2, edit));
  }

  /** An edit can be lost for good: one flusher reads an element, it is edited, the other flushes the edit and
      clears the markers, and then the first commits what it had read. */
  lemma StaleCommitLosesAnEdit(s: State, stale: Element, edit: Element) returns (run: seq<Step>)
    requires Init(s) && s.incremental && IdOf(stale) == IdOf(edit) != ""
    requires RowContent(ToElementRow(stale, 0)) != RowContent(ToElementRow(edit, 0))
    ensures PairRun(Pair(s, Idle), run)
    ensures var t := PairAfter(Pair(s, Idle), run).s; Marked(t) == {} && !AgreeOn(t.rows, t.redis.elements, IdOf(stale))
  {
    var steps := ReadThenEdit(s, stale, edit);
    var p, t := Pair(s, Idle), After(s, steps);
    FirstAlone(p, steps);
    var q := Pair(t, Idle);
    var flush := FlushSteps(Swap(q).s, 0);
    StepsFlush(Swap(q).s, 0);
    SecondAlone(q, flush);
    var u := Flushed(Swap(q).s, 0).(flusher := t.flusher);
    assert PairAfter(q, By(true, flush)) == Pair(u, Idle);
    FirstAlone(Pair(u, Idle), [Commit(0)]);
    PairAppend(q, By(true, flush), By(false, [Commit(0)]));
    PairAppend(p, By(false, steps), By(true, flush) + By(false, [Commit(0)]));
    run := By(false, steps) + (By(true, flush) + By(false, [Commit(0)]));
    CommitOld(u, stale, edit);
  }

  lemma CommitOld(s: State, stale: Element, edit: Element)
    requires s.flusher.Fetched? && s.flusher.values == map[IdOf(stale) := stale] && IdOf(stale) != ""
    requires IdOf(stale) in s.redis.elements && s.redis.elements[IdOf(stale)] == edit
    requires RowContent(ToElementRow(stale, 0)) != RowContent(ToElementRow(edit, 0))
    ensures After(s, [Commit(0)]) == Next(s, Commit(0)) && Next(s, Commit(0)).redis == s.redis
    ensures !AgreeOn(Next(s, Commit(0)).rows, s.redis.elements, IdOf(stale))
  {
    assert [Commit(0)][1..] == [];
    assert Next(s, Commit(0)).rows[IdOf(stale)] == ToElementRow(stale, 0);
  }
}
