/** Eviction and reload: evictions delete the keys of a board while any number of loaders compete to
    install it again; what gets installed is what was evicted. */
module LoadEvict {
  import opened Elements
  import opened BoardState
  import opened FlushProtocol
  import opened OrderedMap
  import opened BoardService
  import opened Eviction

  /** What a load decodes from a table. */
  function Decoded(rows: Rows): map<Id, Element> {
    map k | k in rows :: FromElementRow(rows[k])
  }

  /** The HSETs of a load, one row after another. */
  method InstallRows(rows: seq<Row>) returns (elements: map<Id, Element>)
    ensures elements == Decoded(ToMap(RowsById(rows)))
  {
    elements := map[];
    for i := 0 to |rows|
      invariant elements == Decoded(ToMap(RowsById(rows[..i])))
    {
      assert RowsById(rows[..i + 1]) == RowsById(rows[..i]) + [(rows[i].id, rows[i])];
      ToMapSnoc(RowsById(rows[..i]), rows[i].id, rows[i]);
      DecodedUpdate(ToMap(RowsById(rows[..i])), rows[i].id, rows[i]);
      elements := elements[rows[i].id := FromElementRow(rows[i])];
    }
    assert rows[..|rows|] == rows;
  }

  lemma DecodedUpdate(rows: Rows, id: Id, row: Row)
    ensures Decoded(rows[id := row]) == Decoded(rows)[id := FromElementRow(row)]
  {
    hide FromElementRow;
  }

  lemma DecodedKeyed(rows: Rows)
    requires WellFormedTable(rows)
    ensures Keyed(Decoded(rows))
  {
    hide FromElementRow;
    forall k | k in rows ensures IdOf(Decoded(rows)[k]) == k {
      DecodedId(rows[k]);
    }
  }

  lemma DecodedId(row: Row)
    requires CleanRow(row)
    ensures IdOf(FromElementRow(row)) == row.id
  {
    assert "id" !in row.data;
  }

  function Installed(r: RedisBoard, rows: Rows): RedisBoard {
    r.(elements := r.elements + Decoded(rows), sequence := 0, loaded := true)
  }

  // ----- What lands during an eviction -----

  datatype Landing =
    | Land(c: Change, track: bool)
    | Number
    | Load(rows: Rows)

  function LandOne(r: RedisBoard, l: Landing): RedisBoard {
    match l
    case Land(c, track) => Pipeline(r, c, track)
    case Number => NextSequence(r)
    case Load(rows) => Installed(r, rows)
  }

  function LandAll(r: RedisBoard, ls: seq<Landing>): RedisBoard
    decreases |ls|
  {
    if ls == [] then r else LandAll(LandOne(r, ls[0]), ls[1..])
  }

  predicate HasWrite(ls: seq<Landing>) {
    exists i | 0 <= i < |ls| :: ls[i].Land?
  }

  /** A change that is written is never empty. */
  ghost predicate Changes(ls: seq<Landing>) {
    forall i | 0 <= i < |ls| && ls[i].Land? :: IdsOf(ls[i].c.upserts) + ls[i].c.deletes != {}
  }

  lemma {:induction false} WritesMark(r: RedisBoard, ls: seq<Landing>)
    requires Changes(ls)
    ensures r.dirty + r.deleted <= LandAll(r, ls).dirty + LandAll(r, ls).deleted
    ensures LandAll(r, ls).dirty + LandAll(r, ls).deleted != {} <==> r.dirty + r.deleted != {} || HasWrite(ls)
    ensures !HasWrite(ls) ==> LandAll(r, ls).dirty == r.dirty && LandAll(r, ls).deleted == r.deleted
    decreases |ls|
  {
    hide HSetAll;
    if ls != [] {
      var r1 := LandOne(r, ls[0]);
      assert forall i | 0 <= i < |ls[1..]| :: ls[1..][i] == ls[i + 1];
      WritesMark(r1, ls[1..]);
      assert HasWrite(ls) <==> ls[0].Land? || HasWrite(ls[1..]) by {
        if HasWrite(ls) && !ls[0].Land? {
          var i :| 0 <= i < |ls| && ls[i].Land?;
          assert ls[1..][i - 1].Land?;
        }
        if HasWrite(ls[1..]) {
          var i :| 0 <= i < |ls[1..]| && ls[1..][i].Land?;
          assert ls[i + 1].Land?;
        }
      }
      if ls[0].Land? {
        assert r1.dirty + r1.deleted == r.dirty + r.deleted + IdsOf(ls[0].c.upserts) + ls[0].c.deletes;
      }
    }
  }

  /** The keys after an eviction during which `early` landed between the scan and the delete, `late` between
      the delete and the removal from the indexes. */
  function AfterEviction(r: RedisBoard, early: seq<Landing>, late: seq<Landing>): RedisBoard {
    Unindexed(LandAll(DropKeys(LandAll(r, early), BoardKeys(r), r.seen), late))
  }

  /** An eviction leaves a marked board outside the dirty indexes, where no flush looks for it, if and only if
      a write lands after the delete, or one before it creates a marker set that the scan had not found.
      For a board that was clean at the scan: if and only if any write lands during the eviction at all. */
  lemma EvictionOrphansMarkersIff(r: RedisBoard, early: seq<Landing>, late: seq<Landing>)
    requires Changes(early) && Changes(late)
    ensures var end, before := AfterEviction(r, early, late), LandAll(r, early);
      && !end.inDirtyBoards && end.dirtyAge == None
      && (end.dirty + end.deleted != {} <==>
            || HasWrite(late)
            || (r.dirty == {} && before.dirty != {}) || (r.deleted == {} && before.deleted != {}))
      && (r.dirty + r.deleted == {} ==> (end.dirty + end.deleted != {} <==> HasWrite(early) || HasWrite(late)))
  {
    hide LandAll, HasWrite, Changes;
    var before := LandAll(r, early);
    var dropped := DropKeys(before, BoardKeys(r), r.seen);
    assert DirtyKey in BoardKeys(r) <==> r.dirty != {};
    assert DeletedKey in BoardKeys(r) <==> r.deleted != {};
    WritesMark(r, early);
    WritesMark(dropped, late);
  }

  function WriteCount(ls: seq<Landing>): nat {
    if ls == [] then 0 else (if ls[0].Land? then 1 else 0) + WriteCount(ls[1..])
  }

  lemma {:induction false} WritesCount(r: RedisBoard, ls: seq<Landing>)
    ensures LandAll(r, ls).epoch == r.epoch + WriteCount(ls)
    ensures HasWrite(ls) <==> WriteCount(ls) > 0
    decreases |ls|
  {
    hide HSetAll;
    if ls != [] {
      WritesCount(LandOne(r, ls[0]), ls[1..]);
      if HasWrite(ls) && !ls[0].Land? {
        var i :| 0 <= i < |ls| && ls[i].Land?;
        assert ls[1..][i - 1].Land?;
      }
      if HasWrite(ls[1..]) {
        var i :| 0 <= i < |ls[1..]| && ls[1..][i].Land?;
        assert ls[i + 1].Land?;
      }
    }
  }

  /** An eviction restarts the epoch of a board that had been written to. A flush that read epoch `e` before it has its
      clear accepted after it if and only if exactly `e` writes landed since the delete; then it takes the
      markers of all of them away, though it has written none. */
  lemma StaleClearAfterEvictionIff(r: RedisBoard, early: seq<Landing>, late: seq<Landing>, e: nat, q: nat)
    requires 0 < e <= r.epoch && Changes(late)
    ensures var end := AfterEviction(r, early, late); var cleared := CompareAndClear(end, e, q, true);
      && (end.epoch == e <==> WriteCount(late) == e)
      && (end.epoch == e ==> end.dirty + end.deleted != {} && cleared.dirty == cleared.deleted == {})
  {
    hide LandAll, HasWrite, Changes;
    var dropped := DropKeys(LandAll(r, early), BoardKeys(r), r.seen);
    assert EpochKey in BoardKeys(r);
    WritesCount(dropped, late);
    WritesMark(dropped, late);
  }

  // ----- Numbers that land late -----

  /** One landing on a board that an eviction has emptied leaves it loaded, yet without its elements, if and only
      if it is the increment of a sequence number, and the table has rows. */
  lemma OneLandingIff(r: RedisBoard, l: Landing, rows: Rows)
    requires !r.loaded && r.elements == map[] && (l.Load? ==> l.rows == rows)
    ensures var after := LandOne(r, l);
      after.loaded && after.elements != Decoded(rows) <==> l.Number? && rows != map[]
  {
    hide HSetAll;
    InstallOnEmpty(r, rows);
    assert Decoded(rows) == map[] <==> rows == map[] by {
      assert Decoded(rows).Keys == rows.Keys;
    }
  }

  /** Loaders install on an unloaded board only. */
  ghost predicate LoadsWhenUnloaded(r: RedisBoard, ls: seq<Landing>)
    decreases |ls|
  {
    ls == [] || ((ls[0].Load? ==> !r.loaded) && LoadsWhenUnloaded(LandOne(r, ls[0]), ls[1..]))
  }

  predicate HasLoad(ls: seq<Landing>) {
    ls != [] && (ls[0].Load? || HasLoad(ls[1..]))
  }

  /** Of the landings that create the sequence key, the first is an increment. */
  predicate NumberFirst(ls: seq<Landing>) {
    ls != [] && (ls[0].Number? || (ls[0].Land? && NumberFirst(ls[1..])))
  }

  /** After an eviction the board comes to count as loaded without ever being loaded again, so that its elements stay
      missing, if and only if the first landing that creates the sequence key is an increment. */
  lemma {:induction false} NeverReloadedIff(r: RedisBoard, ls: seq<Landing>)
    requires !r.loaded && LoadsWhenUnloaded(r, ls)
    ensures LandAll(r, ls).loaded && !HasLoad(ls) <==> NumberFirst(ls)
    decreases |ls|
  {
    hide HSetAll, Installed;
    if ls != [] {
      match ls[0]
      case Land(_, _) => NeverReloadedIff(LandOne(r, ls[0]), ls[1..]);
      case Number => LoadedStays(LandOne(r, ls[0]), ls[1..]);
      case Load(_) =>
    }
  }

  lemma {:induction false} LoadedStays(r: RedisBoard, ls: seq<Landing>)
    requires r.loaded && LoadsWhenUnloaded(r, ls)
    ensures LandAll(r, ls).loaded && !HasLoad(ls)
    decreases |ls|
  {
    hide HSetAll, Installed;
    if ls != [] {
      LoadedStays(LandOne(r, ls[0]), ls[1..]);
    }
  }

  // ----- The machine -----

  type LoaderId = nat
  type EvictorId = nat

  /** Where a loader is in its loop. */
  datatype Phase =
    | Polling
    | NoEviction
    | NotLoaded
    | Holding
    | Rechecked
    | HasRows(rows: Rows)
    | Ready(rows: Rows)
    | Releasing(count: nat)
    | Done(count: nat)

  predicate InLock(p: Phase) {
    p.Holding? || p.Rechecked? || p.HasRows? || p.Ready? || p.Releasing?
  }

  /** Where an eviction is; a scan also notes the version of the board it saw. */
  datatype EvictionPhase =
    | Locked
    | Scanned(found: set<Key>, seen: set<MutationId>, version: nat)
    | Dropped
    | Finished

  /** `version` counts uses and installs. `settled` says that the last delete saw the version its scan saw, and
      that nobody has used the board since. `installs` and `unloads` count loads and deletes of a loaded board. */
  datatype State = State(
    keys: RedisBoard,
    rows: Rows,
    lock: Option<LoaderId>,
    evictionLock: Option<EvictorId>,
    loaders: map<LoaderId, Phase>,
    evictors: map<EvictorId, EvictionPhase>,
    version: nat,
    settled: bool,
    installs: nat,
    unloads: nat)

  datatype Action =
    | Start(id: LoaderId)
    | Step(id: LoaderId)
    | CrashLoader(id: LoaderId)
    | ExpireLock
    | BeginEviction(e: EvictorId)
    | Scan(e: EvictorId)
    | Drop(e: EvictorId)
    | Unindex(e: EvictorId)
    | EndEviction(e: EvictorId)
    | CrashEvictor(e: EvictorId)
    | ExpireEvictionLock
    | Use(keys: RedisBoard, rows: Rows)

  /** Writers and flushers use a loaded board only. Locks may expire at any time; an eviction may end without
      touching anything, as when the board is not idle. */
  ghost predicate Enabled(s: State, a: Action) {
    match a
    case Start(id) => id !in s.loaders && s.lock != Some(id)
    case Step(id) => id in s.loaders && !s.loaders[id].Done?
    case CrashLoader(id) => id in s.loaders
    case ExpireLock => s.lock.Some?
    case BeginEviction(e) => e !in s.evictors && s.evictionLock != Some(e)
    case Scan(e) => e in s.evictors && s.evictors[e].Locked?
    case Drop(e) => e in s.evictors && s.evictors[e].Scanned?
    case Unindex(e) => e in s.evictors && s.evictors[e].Dropped?
    case EndEviction(e) => e in s.evictors && (s.evictors[e].Locked? || s.evictors[e].Finished?)
    case CrashEvictor(e) => e in s.evictors
    case ExpireEvictionLock => s.evictionLock.Some?
    case Use(keys, rows) => s.keys.loaded && keys.loaded && Keyed(keys.elements) && WellFormedTable(rows)
  }

  /** Where one await of the load loop takes a loader. */
  function PhaseAfter(s: State, id: LoaderId): Phase
    requires id in s.loaders && !s.loaders[id].Done?
  {
    match s.loaders[id]
    case Polling => if s.evictionLock.Some? then Polling else NoEviction
    case NoEviction => if s.keys.loaded then Done(0) else NotLoaded
    case NotLoaded => if s.lock.Some? then Polling else Holding
    case Holding => if s.keys.loaded then Releasing(0) else Rechecked
    case Rechecked => HasRows(s.rows)
    case HasRows(rows) => if s.keys.loaded then Releasing(0) else Ready(rows)
    case Ready(rows) => Releasing(|rows|)
    case Releasing(n) => Done(n)
  }

  /** What it does to the keys: take the lock, install the rows at sequence 0, release the lock. */
  function Effect(s: State, id: LoaderId): State
    requires id in s.loaders && !s.loaders[id].Done?
  {
    match s.loaders[id]
    case NotLoaded => if s.lock.None? then s.(lock := Some(id)) else s
    case Ready(rows) => s.(keys := Installed(s.keys, rows), version := s.version + 1, installs := s.installs + 1)
    case Releasing(_) => if s.lock == Some(id) then s.(lock := None) else s
    case _ => s
  }

  function Advance(s: State, id: LoaderId): State
    requires id in s.loaders && !s.loaders[id].Done?
  {
    Effect(s, id).(loaders := s.loaders[id := PhaseAfter(s, id)])
  }

  function Present(s: State): set<Key> {
    BoardKeys(s.keys)
    + (if s.lock.Some? then {LoadLockKey} else {})
    + (if s.evictionLock.Some? then {EvictionLockKey} else {})
  }

  /** The DEL of an eviction takes the locks it found along. */
  function Delete(s: State, e: EvictorId): State
    requires e in s.evictors && s.evictors[e].Scanned?
  {
    var scan := s.evictors[e];
    var keys := DropKeys(s.keys, scan.found, scan.seen);
    s.(keys := keys,
       lock := if LoadLockKey in scan.found then None else s.lock,
       evictionLock := if EvictionLockKey in scan.found then None else s.evictionLock,
       evictors := s.evictors[e := Dropped],
       settled := scan.version == s.version,
       unloads := s.unloads + if s.keys.loaded && !keys.loaded then 1 else 0)
  }

  function Next(s: State, a: Action): State
    requires Enabled(s, a)
  {
    match a
    case Start(id) => s.(loaders := s.loaders[id := Polling])
    case Step(id) => Advance(s, id)
    case CrashLoader(id) => s.(loaders := s.loaders - {id})
    case ExpireLock => s.(lock := None)
    case BeginEviction(e) =>
      if s.evictionLock.Some? then s else s.(evictionLock := Some(e), evictors := s.evictors[e := Locked])
    case Scan(e) => s.(evictors := s.evictors[e := Scanned(Present(s), s.keys.seen, s.version)])
    case Drop(e) => Delete(s, e)
    case Unindex(e) => s.(keys := Unindexed(s.keys), evictors := s.evictors[e := Finished])
    case EndEviction(e) =>
      s.(evictionLock := if s.evictionLock == Some(e) then None else s.evictionLock, evictors := s.evictors - {e})
    case CrashEvictor(e) => s.(evictors := s.evictors - {e})
    case ExpireEvictionLock => s.(evictionLock := None)
    case Use(keys, rows) => s.(keys := keys, rows := rows, version := s.version + 1, settled := false)
  }

  ghost predicate ValidRun(s: State, run: seq<Action>)
    decreases |run|
  {
    run == [] || (Enabled(s, run[0]) && ValidRun(Next(s, run[0]), run[1..]))
  }

  ghost function After(s: State, run: seq<Action>): State
    requires ValidRun(s, run)
    decreases |run|
  {
    if run == [] then s else After(Next(s, run[0]), run[1..])
  }

  /** A board with nobody loading or evicting it. */
  function Resting(keys: RedisBoard, rows: Rows): State {
    State.State(keys, rows, None, None, map[], map[], 0, false, 0, 0)
  }

  // ----- The load lock -----

  /** The steps that take the load lock away: its expiry, and the delete of an eviction whose scan found it. */
  predicate LosesLock(s: State, a: Action) {
    || a.ExpireLock?
    || (a.Drop? && a.e in s.evictors && s.evictors[a.e].Scanned? && LoadLockKey in s.evictors[a.e].found)
  }

  ghost predicate NobodyInside(s: State) {
    forall id | id in s.loaders :: !InLock(s.loaders[id])
  }

  ghost predicate Exclusive(s: State) {
    forall i, j | i in s.loaders && j in s.loaders && InLock(s.loaders[i]) && InLock(s.loaders[j]) :: i == j
  }

  /** The lock is lost only while no loader is inside. */
  ghost predicate LocksLast(s: State, run: seq<Action>)
    requires ValidRun(s, run)
    decreases |run|
  {
    run == [] || ((LosesLock(s, run[0]) ==> NobodyInside(s)) && LocksLast(Next(s, run[0]), run[1..]))
  }

  /** A loader inside the lock holds it, and from its recheck on the board stays unloaded and its rows current. */
  ghost predicate LoaderOk(s: State, id: LoaderId)
    requires id in s.loaders
  {
    var p := s.loaders[id];
    && (InLock(p) ==> s.lock == Some(id))
    && (p.Rechecked? || p.HasRows? || p.Ready? ==> !s.keys.loaded)
    && (p.HasRows? ==> p.rows == s.rows)
    && (p.Ready? ==> p.rows == s.rows)
  }

  ghost predicate LoadersOk(s: State) {
    forall id | id in s.loaders :: LoaderOk(s, id)
  }

  /** A settled board is empty and unloaded, or the decoded table at sequence 0. */
  ghost predicate Settled(s: State) {
    s.settled ==>
      if s.keys.loaded then s.keys.elements == Decoded(s.rows) && s.keys.sequence == 0 else s.keys.elements == map[]
  }

  /** A scan that saw the present version found all there is of the board. */
  ghost predicate ScansOk(s: State) {
    forall e | e in s.evictors && s.evictors[e].Scanned? && s.evictors[e].version == s.version ::
      && (s.keys.elements != map[] ==> ElementsKey in s.evictors[e].found)
      && (s.keys.loaded ==> SequenceKey in s.evictors[e].found)
  }

  ghost predicate VersionsOk(s: State) {
    forall e | e in s.evictors && s.evictors[e].Scanned? :: s.evictors[e].version <= s.version
  }

  /** Every install was of an unloaded board. */
  ghost predicate Balanced(start: RedisBoard, s: State) {
    s.installs + (if start.loaded then 1 else 0) == s.unloads + (if s.keys.loaded then 1 else 0)
  }

  ghost predicate Inv(start: RedisBoard, s: State) {
    LoadersOk(s) && Settled(s) && ScansOk(s) && VersionsOk(s) && Balanced(start, s)
  }

  lemma AdvanceLeavesOthers(s: State, id: LoaderId, other: LoaderId)
    requires id in s.loaders && !s.loaders[id].Done? && LoaderOk(s, id)
    requires other in s.loaders && other != id && LoaderOk(s, other)
    ensures LoaderOk(Advance(s, id), other)
  {
    hide Installed;
    var s' := Advance(s, id);
    assert s'.loaders[other] == s.loaders[other];
    if InLock(s.loaders[other]) {
      assert !InLock(s.loaders[id]);
      assert s'.lock == s.lock && s'.keys.loaded == s.keys.loaded;
    }
  }

  lemma AdvanceKeepsSelf(s: State, id: LoaderId)
    requires id in s.loaders && !s.loaders[id].Done? && LoaderOk(s, id)
    ensures LoaderOk(Advance(s, id), id)
  {
    hide Installed;
  }

  lemma OtherStepsKeepLoader(s: State, a: Action, id: LoaderId)
    requires LoadersOk(s) && Enabled(s, a) && !a.Step? && (LosesLock(s, a) ==> NobodyInside(s)) && id in Next(s, a).loaders
    ensures LoaderOk(Next(s, a), id)
  {
    hide Advance, DropKeys, Unindexed, Present, Keyed, WellFormedTable;
    if id in s.loaders {
      assert LoaderOk(s, id);
    }
    if a.Drop? {
      DropUnloads(s.keys, s.evictors[a.e].found, s.evictors[a.e].seen);
    }
    if a.Unindex? {
      UnindexKeeps(s.keys);
    }
  }

  lemma DropUnloads(r: RedisBoard, found: set<Key>, seen: set<MutationId>)
    ensures DropKeys(r, found, seen).loaded <==> r.loaded && SequenceKey !in found
    ensures DropKeys(r, found, seen).elements == if ElementsKey in found then map[] else r.elements
  {
  }

  lemma UnindexKeeps(r: RedisBoard)
    ensures Unindexed(r).loaded == r.loaded && Unindexed(r).elements == r.elements && Unindexed(r).sequence == r.sequence
  {
  }

  lemma StepKeepsLoaders(s: State, a: Action)
    requires LoadersOk(s) && Enabled(s, a) && (LosesLock(s, a) ==> NobodyInside(s))
    ensures LoadersOk(Next(s, a))
  {
    forall id | id in Next(s, a).loaders ensures LoaderOk(Next(s, a), id) {
      if a.Step? {
        StepKeepsLoader(s, a.id, id);
      } else {
        OtherStepsKeepLoader(s, a, id);
      }
    }
  }

  lemma StepKeepsLoader(s: State, stepping: LoaderId, id: LoaderId)
    requires LoadersOk(s) && stepping in s.loaders && !s.loaders[stepping].Done? && id in Advance(s, stepping).loaders
    ensures LoaderOk(Advance(s, stepping), id)
  {
    hide LoaderOk, Effect, PhaseAfter;
    assert Advance(s, stepping).loaders == s.loaders[stepping := PhaseAfter(s, stepping)];
    if stepping == id {
      AdvanceKeepsSelf(s, id);
    } else {
      AdvanceLeavesOthers(s, stepping, id);
    }
  }

  lemma AdvanceKeepsSettled(s: State, id: LoaderId)
    requires id in s.loaders && !s.loaders[id].Done? && LoaderOk(s, id) && Settled(s)
    ensures Settled(Advance(s, id))
  {
    hide Decoded;
    InstallOnEmpty(s.keys, s.rows);
  }

  lemma StepKeepsSettled(s: State, a: Action)
    requires LoadersOk(s) && Settled(s) && ScansOk(s) && Enabled(s, a)
    ensures Settled(Next(s, a))
  {
    hide Advance, LoaderOk, DropKeys, Unindexed, Decoded, Present, Keyed, WellFormedTable;
    match a
    case Step(id) => AdvanceKeepsSettled(s, id);
    case Drop(e) => DropUnloads(s.keys, s.evictors[e].found, s.evictors[e].seen);
    case Unindex(_) => UnindexKeeps(s.keys);
    case _ =>
  }

  lemma InstallOnEmpty(r: RedisBoard, rows: Rows)
    ensures r.elements == map[] ==> Installed(r, rows).elements == Decoded(rows)
  {
    if r.elements == map[] {
      assert map[] + Decoded(rows) == Decoded(rows);
    }
  }

  lemma ScanFindsAll(s: State)
    ensures s.keys.elements != map[] ==> ElementsKey in Present(s)
    ensures s.keys.loaded ==> SequenceKey in Present(s)
  {
  }

  ghost predicate ScanOk(s: State, e: EvictorId)
    requires e in s.evictors
  {
    s.evictors[e].Scanned? ==>
      && s.evictors[e].version <= s.version
      && (s.evictors[e].version == s.version ==>
            && (s.keys.elements != map[] ==> ElementsKey in s.evictors[e].found)
            && (s.keys.loaded ==> SequenceKey in s.evictors[e].found))
  }

  /** A scan stays right while the keys it saw only go away, or the version moves on. */
  lemma ScanStays(s: State, s': State, e: EvictorId)
    requires e in s.evictors && e in s'.evictors && s'.evictors[e] == s.evictors[e] && ScanOk(s, e) && s.version <= s'.version
    requires s'.version == s.version ==>
      && (s'.keys.elements != map[] ==> s.keys.elements != map[])
      && (s'.keys.loaded ==> s.keys.loaded)
    ensures ScanOk(s', e)
  {
  }

  lemma AdvanceKeepsScan(s: State, id: LoaderId, e: EvictorId)
    requires id in s.loaders && !s.loaders[id].Done? && e in s.evictors && ScanOk(s, e)
    ensures Advance(s, id).evictors == s.evictors && ScanOk(Advance(s, id), e)
  {
    hide ScanOk, Installed;
    ScanStays(s, Advance(s, id), e);
  }

  lemma AdvanceKeepsEvictors(s: State, id: LoaderId)
    requires id in s.loaders && !s.loaders[id].Done?
    ensures Advance(s, id).evictors == s.evictors
  {
    hide Installed;
  }

  lemma StepKeepsScan(s: State, a: Action, e: EvictorId)
    requires Enabled(s, a) && e in Next(s, a).evictors && (e in s.evictors ==> ScanOk(s, e))
    ensures ScanOk(Next(s, a), e)
  {
    hide Advance, DropKeys, Unindexed, Present, Decoded, Keyed, WellFormedTable;
    ScanFindsAll(s);
    match a
    case Step(id) =>
      AdvanceKeepsEvictors(s, id);
      AdvanceKeepsScan(s, id, e);
    case Drop(d) => DropUnloads(s.keys, s.evictors[d].found, s.evictors[d].seen);
    case Unindex(_) => UnindexKeeps(s.keys);
    case _ =>
  }

  lemma StepKeepsScans(s: State, a: Action)
    requires Enabled(s, a) && ScansOk(s) && VersionsOk(s)
    ensures ScansOk(Next(s, a)) && VersionsOk(Next(s, a))
  {
    var s' := Next(s, a);
    hide Next;
    forall e | e in s'.evictors ensures ScanOk(s', e) {
      StepKeepsScan(s, a, e);
    }
  }

  lemma AdvanceKeepsBalance(start: RedisBoard, s: State, id: LoaderId)
    requires id in s.loaders && !s.loaders[id].Done? && LoaderOk(s, id) && Balanced(start, s)
    ensures Balanced(start, Advance(s, id))
  {
    hide Decoded;
  }

  lemma StepKeepsBalance(start: RedisBoard, s: State, a: Action)
    requires LoadersOk(s) && Balanced(start, s) && Enabled(s, a)
    ensures Balanced(start, Next(s, a))
  {
    hide Advance, LoaderOk, DropKeys, Unindexed, Present, Keyed, WellFormedTable;
    match a
    case Step(id) => AdvanceKeepsBalance(start, s, id);
    case Drop(e) => DropUnloads(s.keys, s.evictors[e].found, s.evictors[e].seen);
    case Unindex(_) => UnindexKeeps(s.keys);
    case _ =>
  }

  lemma {:induction false} RunKeepsInv(start: RedisBoard, s: State, run: seq<Action>)
    requires Inv(start, s) && ValidRun(s, run) && LocksLast(s, run)
    ensures Inv(start, After(s, run))
    decreases |run|
  {
    if run != [] {
      StepKeepsLoaders(s, run[0]);
      StepKeepsSettled(s, run[0]);
      StepKeepsScans(s, run[0]);
      StepKeepsBalance(start, s, run[0]);
      hide Next, LoadersOk, Settled, ScansOk, VersionsOk, Balanced;
      RunKeepsInv(start, Next(s, run[0]), run[1..]);
    }
  }

  /** However many loaders and evictions come, crash and interleave, as long as no loader inside loses the load
      lock: at most one loader is inside, each install is of a board that an eviction had unloaded, and a
      board that nobody has used since a quiet delete is, once loaded, the decoded table at sequence 0. */
  lemma OneInstallPerEviction(keys: RedisBoard, rows: Rows, run: seq<Action>)
    requires ValidRun(Resting(keys, rows), run) && LocksLast(Resting(keys, rows), run)
    ensures var s := After(Resting(keys, rows), run);
      && Exclusive(s)
      && s.installs + (if keys.loaded then 1 else 0) == s.unloads + (if s.keys.loaded then 1 else 0)
      && (s.settled && s.keys.loaded ==> s.keys.elements == Decoded(s.rows) && s.keys.sequence == 0)
  {
    RunKeepsInv(keys, Resting(keys, rows), run);
    var s := After(Resting(keys, rows), run);
    assert forall id | id in s.loaders :: LoaderOk(s, id);
  }

  /** The assumption is exact: a step that takes the load lock away keeps loaders exclusive if and only if no
      loader is inside; otherwise the next loader to try gets in beside it. */
  lemma LockLossIsSafeIff(keys: RedisBoard, rows: Rows, run: seq<Action>, a: Action, next: LoaderId)
    requires ValidRun(Resting(keys, rows), run) && LocksLast(Resting(keys, rows), run)
    requires var s := After(Resting(keys, rows), run);
      Enabled(s, a) && LosesLock(s, a) && next in s.loaders && s.loaders[next].NotLoaded?
    ensures var s := After(Resting(keys, rows), run);
      && next in Next(s, a).loaders && Next(s, a).loaders[next].NotLoaded?
      && (Exclusive(Advance(Next(s, a), next)) <==> NobodyInside(s))
  {
    RunKeepsInv(keys, Resting(keys, rows), run);
    var s := After(Resting(keys, rows), run);
    var t := Next(s, a);
    LossKeepsLoaders(s, a);
    var u := Advance(t, next);
    EntersBeside(t, next);
    hide Next, Advance;
    if id :| id in s.loaders && InLock(s.loaders[id]) {
      assert id != next && u.loaders == s.loaders[next := Holding];
      assert id in u.loaders && next in u.loaders && InLock(u.loaders[id]) && InLock(u.loaders[next]);
    }
  }

  lemma LossKeepsLoaders(s: State, a: Action)
    requires Enabled(s, a) && LosesLock(s, a)
    ensures Next(s, a).loaders == s.loaders && Next(s, a).lock.None?
  {
    hide DropKeys;
  }

  lemma EntersBeside(s: State, id: LoaderId)
    requires id in s.loaders && s.loaders[id].NotLoaded? && s.lock.None?
    ensures Advance(s, id).loaders == s.loaders[id := Holding]
  {
  }

  /** An eviction deletes its own lock while it still has to leave the indexes. */
  lemma EvictionDropsItsOwnLock(s: State, e: EvictorId)
    requires e in s.evictors && s.evictors[e].Locked? && s.evictionLock == Some(e)
    ensures var scanned := Next(s, Scan(e)); var dropped := Next(scanned, Drop(e));
      Enabled(dropped, Unindex(e)) && dropped.evictionLock.None? && !dropped.keys.loaded
  {
  }

  // ----- The round trip -----

  lemma RowDecodesToElement(row: Row, e: Element)
    requires row.id == IdOf(e) && CleanRow(row)
    ensures Content(FromElementRow(row)) == Content(e) <==> RowContent(row) == RowContent(ToElementRow(e, 0))
  {
    EncodeDecode(row);
    RowContentIsContent(FromElementRow(row), e, row.updatedAt, 0);
  }

  /** The decoded table has the content of the board exactly when Postgres agrees with Redis on every
      id (the empty one aside, which an incremental flush never writes). */
  lemma DecodedIffAgree(rows: Rows, elements: map<Id, Element>)
    requires WellFormedTable(rows) && Keyed(elements)
    ensures Contents(Decoded(rows)) - {""} == Contents(elements) - {""} <==> TableContent(rows) == RedisContent(elements)
  {
    hide RowContent, ToElementRow, FromElementRow, Content, CleanRow;
    var decoded, board := Contents(Decoded(rows)) - {""}, Contents(elements) - {""};
    var table, redis := TableContent(rows), RedisContent(elements);
    forall k | k in decoded && k in board ensures decoded[k] == board[k] <==> table[k] == redis[k] {
      RowDecodesToElement(rows[k], elements[k]);
    }
    EqualAlike(decoded, board, table, redis);
  }

  lemma EqualAlike<K, A, B>(m: map<K, A>, m': map<K, A>, n: map<K, B>, n': map<K, B>)
    requires m.Keys == n.Keys && m'.Keys == n'.Keys
    requires forall k | k in m && k in m' :: m[k] == m'[k] <==> n[k] == n'[k]
    ensures m == m' <==> n == n'
  {
    if m == m' {
      assert forall k | k in n :: k in m;
    }
    if n == n' {
      assert forall k | k in m :: k in n;
    }
  }

  lemma {:induction false} UnusedKeepsRows(s: State, run: seq<Action>)
    requires ValidRun(s, run) && forall i | 0 <= i < |run| :: !run[i].Use?
    ensures After(s, run).rows == s.rows
    decreases |run|
  {
    if run != [] {
      StepKeepsRows(s, run[0]);
      assert forall i | 0 <= i < |run[1..]| :: run[1..][i] == run[i + 1];
      UnusedKeepsRows(Next(s, run[0]), run[1..]);
    }
  }

  lemma StepKeepsRows(s: State, a: Action)
    requires Enabled(s, a) && !a.Use?
    ensures Next(s, a).rows == s.rows
  {
    hide DropKeys, Installed, Present;
  }

  /** Evicting any reachable board and reloading it, whatever loaders and evictions compete, restores it, up
      to timestamps, exactly when Postgres agreed with Redis; in particular whenever nothing was marked, or in
      full-snapshot mode whenever the board was not dirty. */
  lemma EvictReloadRoundTrip(s: FlushProtocol.State, steps: seq<FlushProtocol.Action>, run: seq<Action>)
    requires FlushProtocol.Init(s) && FlushProtocol.ValidRun(s, steps)
    requires var before := FlushProtocol.After(s, steps);
      && ValidRun(Resting(before.redis, before.rows), run) && LocksLast(Resting(before.redis, before.rows), run)
      && forall i | 0 <= i < |run| :: !run[i].Use?
    ensures var before := FlushProtocol.After(s, steps);
      var after := After(Resting(before.redis, before.rows), run);
      after.settled && after.keys.loaded ==>
        && after.keys.sequence == 0
        && (TableContent(before.rows) == RedisContent(before.redis.elements) <==>
            Contents(after.keys.elements) - {""} == Contents(before.redis.elements) - {""})
        && ((if s.incremental then Marked(before) == {} else !before.redis.inDirtyBoards) ==>
            Contents(after.keys.elements) - {""} == Contents(before.redis.elements) - {""})
  {
    var before := FlushProtocol.After(s, steps);
    FlushProtocol.InitInv(s);
    FlushProtocol.RunKeepsInv(s, steps);
    FlushProtocol.ModeIsFixed(s, steps);
    OneInstallPerEviction(before.redis, before.rows, run);
    UnusedKeepsRows(Resting(before.redis, before.rows), run);
    DecodedIffAgree(before.rows, before.redis.elements);
    AgreeEverywhere(before.rows, before.redis.elements);
  }

  // ----- A quiet eviction and load -----

  lemma Then(s: State, a: Action, rest: seq<Action>)
    requires Enabled(s, a) && !LosesLock(s, a) && ValidRun(Next(s, a), rest) && LocksLast(Next(s, a), rest)
    ensures ValidRun(s, [a] + rest) && LocksLast(s, [a] + rest) && After(s, [a] + rest) == After(Next(s, a), rest)
  {
    hide Next, Enabled, LosesLock;
    assert ([a] + rest)[1..] == rest;
  }

  lemma {:induction false} RunAppend(s: State, run: seq<Action>, more: seq<Action>)
    requires ValidRun(s, run) && LocksLast(s, run) && ValidRun(After(s, run), more) && LocksLast(After(s, run), more)
    ensures ValidRun(s, run + more) && LocksLast(s, run + more) && After(s, run + more) == After(After(s, run), more)
    decreases |run|
  {
    hide Next, Enabled, LosesLock;
    if run == [] {
      assert run + more == more;
    } else {
      assert (run + more)[1..] == run[1..] + more;
      RunAppend(Next(s, run[0]), run[1..], more);
    }
  }

  const EVICTION: seq<Action> := [BeginEviction(0), Scan(0), Drop(0), Unindex(0), EndEviction(0)]
  const LOADING: seq<Action> := [Start(0), Step(0), Step(0), Step(0), Step(0), Step(0), Step(0), Step(0), Step(0)]

  /** Nobody is about, and no lock is held. */
  ghost predicate Deserted(s: State) {
    s.lock.None? && s.evictionLock.None? && s.loaders == map[] && s.evictors == map[]
  }

  /** An eviction on its own after its scan, which found everything there is. */
  ghost predicate AfterScan(s: State, rows: Rows) {
    && s.lock.None? && s.evictionLock == Some(0) && s.loaders == map[] && s.rows == rows
    && 0 in s.evictors && s.evictors == map[0 := s.evictors[0]] && s.evictors[0].Scanned?
    && s.evictors[0].version == s.version && ScanOk(s, 0)
    && LoadLockKey !in s.evictors[0].found && EvictionLockKey in s.evictors[0].found
  }

  lemma ScanQuietly(s: State)
    requires Deserted(s)
    ensures Enabled(s, BeginEviction(0)) && Enabled(Next(s, BeginEviction(0)), Scan(0))
    ensures AfterScan(Next(Next(s, BeginEviction(0)), Scan(0)), s.rows)
  {
    var s1 := Next(s, BeginEviction(0));
    ScanFindsAll(s1);
    assert !Exists(s1.keys, LoadLockKey);
  }

  lemma DropQuietly(s: State, rows: Rows)
    requires AfterScan(s, rows)
    ensures Enabled(s, Drop(0)) && !LosesLock(s, Drop(0))
    ensures var t := Next(s, Drop(0));
      t == s.(keys := t.keys, evictionLock := None, evictors := map[0 := Dropped], settled := true, unloads := t.unloads)
      && !t.keys.loaded
  {
    hide DropKeys;
    DropUnloads(s.keys, s.evictors[0].found, s.evictors[0].seen);
    assert s.evictors[0 := Dropped] == map[0 := Dropped];
  }

  lemma LeaveQuietly(s: State)
    requires s.lock.None? && s.evictionLock.None? && s.loaders == map[] && s.evictors == map[0 := Dropped]
    ensures Enabled(s, Unindex(0)) && Enabled(Next(s, Unindex(0)), EndEviction(0))
    ensures var t := Next(Next(s, Unindex(0)), EndEviction(0));
      Deserted(t) && t.keys.loaded == s.keys.loaded && t.settled == s.settled && t.rows == s.rows
  {
    UnindexKeeps(s.keys);
    hide Unindexed;
    var t := Next(Next(s, Unindex(0)), EndEviction(0));
    assert t.evictors == map[];
  }

  lemma EvictQuietly(s: State)
    requires Deserted(s)
    ensures ValidRun(s, EVICTION) && LocksLast(s, EVICTION)
    ensures var t := After(s, EVICTION); Deserted(t) && t.settled && !t.keys.loaded && t.rows == s.rows
  {
    hide Next, Enabled, Deserted, AfterScan;
    ScanQuietly(s);
    var s1 := Next(s, BeginEviction(0));
    var s2 := Next(s1, Scan(0));
    DropQuietly(s2, s.rows);
    var s3 := Next(s2, Drop(0));
    ScanLeft(s2, s.rows);
    LeaveQuietly(s3);
    var s4 := Next(s3, Unindex(0));
    Then(s4, EndEviction(0), []);
    Then(s3, Unindex(0), [EndEviction(0)] + []);
    Then(s2, Drop(0), [Unindex(0)] + ([EndEviction(0)] + []));
    Then(s1, Scan(0), [Drop(0)] + ([Unindex(0)] + ([EndEviction(0)] + [])));
    Then(s, BeginEviction(0), [Scan(0)] + ([Drop(0)] + ([Unindex(0)] + ([EndEviction(0)] + []))));
    assert EVICTION == [BeginEviction(0)] + ([Scan(0)] + ([Drop(0)] + ([Unindex(0)] + ([EndEviction(0)] + []))));
  }

  lemma ScanLeft(s: State, rows: Rows)
    requires AfterScan(s, rows)
    ensures s.lock.None? && s.loaders == map[] && s.rows == rows
  {
  }

  /** The steps of a lone loader from some point of its loop on. */
  lemma LoadQuietly(s: State)
    requires s.loaders == map[] && s.settled && s.evictionLock.None? && s.lock.None? && !s.keys.loaded
    ensures ValidRun(s, LOADING) && LocksLast(s, LOADING)
    ensures After(s, LOADING).settled && After(s, LOADING).keys.loaded
  {
    var s1 := Next(s, Start(0));
    LoadFrom(s1, Polling, 8);
    var rest: seq<Action> := seq(8, i => Step(0));
    Then(s, Start(0), rest);
    assert LOADING == [Start(0)] + rest;
  }

  lemma {:induction false} LoadFrom(s: State, p: Phase, n: nat)
    requires s.loaders == map[0 := p] && s.settled && s.evictionLock.None?
    requires if p.Polling? then n == 8 && s.lock.None? && !s.keys.loaded
             else if p.NoEviction? then n == 7 && s.lock.None? && !s.keys.loaded
             else if p.NotLoaded? then n == 6 && s.lock.None? && !s.keys.loaded
             else if p.Holding? then n == 5 && !s.keys.loaded
             else if p.Rechecked? then n == 4 && !s.keys.loaded
             else if p.HasRows? then n == 3 && !s.keys.loaded
             else if p.Ready? then n == 2
             else if p.Releasing? then n == 1 && s.keys.loaded
             else n == 0 && s.keys.loaded
    ensures ValidRun(s, seq(n, i => Step(0))) && LocksLast(s, seq(n, i => Step(0)))
    ensures var t := After(s, seq(n, i => Step(0))); t.settled && t.keys.loaded
    decreases n
  {
    hide Decoded;
    if n > 0 {
      var s1 := Advance(s, 0);
      assert s1.loaders == map[0 := PhaseAfter(s, 0)];
      LoadFrom(s1, PhaseAfter(s, 0), n - 1);
      var rest := seq(n - 1, i => Step(0));
      Then(s, Step(0), rest);
      assert seq(n, i => Step(0)) == [Step(0)] + rest;
    }
  }

  /** The result is not empty: from any board, an eviction and a load that nothing interrupts are such a run,
      and end with the board settled and loaded. */
  lemma QuietEvictAndLoad(keys: RedisBoard, rows: Rows)
    ensures var run := EVICTION + LOADING;
      && ValidRun(Resting(keys, rows), run) && LocksLast(Resting(keys, rows), run)
      && (forall i | 0 <= i < |run| :: !run[i].Use?)
      && After(Resting(keys, rows), run).settled && After(Resting(keys, rows), run).keys.loaded
  {
    hide Next, Enabled, LosesLock, ValidRun, LocksLast, After;
    var s := Resting(keys, rows);
    EvictQuietly(s);
    LoadQuietly(After(s, EVICTION));
    RunAppend(s, EVICTION, LOADING);
    assert forall i | 0 <= i < |EVICTION + LOADING| :: !(EVICTION + LOADING)[i].Use?;
  }
}
