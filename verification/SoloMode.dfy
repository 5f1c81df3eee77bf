/** Who is on a board, and the switch between solo mode, where a batch is flushed at its end,
    and collab mode, where it is not. */
module Presence {
  import opened Elements
  import opened Processor

  const CLIENT_LEASE_TTL_MS := 90_000
  const VIEWER_SESSION_TTL_MS := 90_000
  const COLLAB_MODE_COOLDOWN_MS := 90_000

  type Member = string
  type Session = string

  /** The presence keys of a board; `collabUntil` is the collab marker. */
  datatype Presence = Presence(clients: set<Member>, leases: map<Member, Time>, viewers: map<Session, Time>, collabUntil: Option<Time>)

  function Extended(p: Presence, now: Time): Presence {
    p.(collabUntil := Some(now + COLLAB_MODE_COOLDOWN_MS))
  }

  function ExtendedIf(p: Presence, count: nat, now: Time): Presence {
    if count >= 2 then Extended(p, now) else p
  }

  function Joined(p: Presence, m: Member, now: Time): Presence {
    p.(clients := p.clients + {m}, leases := p.leases[m := now + CLIENT_LEASE_TTL_MS])
  }

  function Left(p: Presence, m: Member): Presence {
    p.(clients := p.clients - {m}, leases := p.leases - {m})
  }

  function Seen(p: Presence, s: Session, now: Time): Presence {
    p.(viewers := Recent(p.viewers[s := now], now))
  }

  /** Drop the sessions whose last touch is a time-to-live ago. */
  function Recent(viewers: map<Session, Time>, now: Time): map<Session, Time> {
    map s | s in viewers && !(0 <= viewers[s] <= now - VIEWER_SESSION_TTL_MS) :: viewers[s]
  }

  predicate Leased(p: Presence, m: Member, now: Time) {
    m in p.leases && now < p.leases[m]
  }

  function Pruned(p: Presence, now: Time): Presence {
    p.(clients := set m | m in p.clients && Leased(p, m, now))
  }

  predicate MarkerLive(p: Presence, now: Time) {
    p.collabUntil.Some? && p.collabUntil.value > now
  }

  /** Both counts of a probe, stale entries dropped. */
  function Counted(p: Presence, now: Time): Presence {
    Pruned(p, now).(viewers := Recent(p.viewers, now))
  }

  predicate Crowded(p: Presence) {
    |p.clients| >= 2 || |p.viewers| >= 2
  }

  function Probed(p: Presence, now: Time): (Presence, Mode) {
    if MarkerLive(p, now) then (p, Collab)
    else if Crowded(Counted(p, now)) then (Extended(Counted(p, now), now), Collab)
    else (Counted(p, now), Solo)
  }

  function Rearmed(p: Presence, now: Time): Presence {
    if MarkerLive(p, now) then Extended(p, now)
    else if Crowded(Counted(p, now)) then Extended(Counted(p, now), now)
    else Counted(p, now)
  }

  const NO_PRESENCE := Presence({}, map[], map[], None)

  class BoardPresence {
    var clients: set<Member>
    var leases: map<Member, Time>
    var viewers: map<Session, Time>
    var collabUntil: Option<Time>

    ghost function Keys(): Presence
      reads this
    {
      Presence(clients, leases, viewers, collabUntil)
    }

    constructor ()
      ensures Keys() == NO_PRESENCE
    {
      clients, leases, viewers, collabUntil := {}, map[], map[], None;
    }

    /** The presence keys are among those that an eviction deletes. */
    method Evict()
      modifies this
      ensures Keys() == NO_PRESENCE
    {
      clients, leases, viewers, collabUntil := {}, map[], map[], None;
    }

    method ExtendCollabMode(now: Time)
      modifies this
      ensures Keys() == Extended(old(Keys()), now)
    {
      collabUntil := Some(now + COLLAB_MODE_COOLDOWN_MS);
    }

    method TrackClient(m: Member, now: Time)
      modifies this
      ensures var joined := Joined(old(Keys()), m, now); Keys() == ExtendedIf(joined, |joined.clients|, now)
    {
      clients := clients + {m};
      leases := leases[m := now + CLIENT_LEASE_TTL_MS];
      if |clients| >= 2 {
        ExtendCollabMode(now);
      }
    }

    method RemoveClient(m: Member)
      modifies this
      ensures Keys() == Left(old(Keys()), m)
    {
      clients := clients - {m};
      leases := leases - {m};
    }

    /** Look up the lease of every member, then remove the stale ones. */
    method PruneStaleClients(now: Time)
      modifies this
      ensures Keys() == Pruned(old(Keys()), now)
    {
      var members, stale := clients, {};
      while members != {}
        invariant members <= clients == old(clients)
        invariant Keys() == old(Keys())
        invariant stale == set m | m in clients - members && !Leased(Keys(), m, now)
        decreases members
      {
        var m :| m in members;
        members := members - {m};
        if !(m in leases && now < leases[m]) {
          stale := stale + {m};
        }
      }
      clients := clients - stale;
    }

    method TouchViewerSession(s: Session, now: Time)
      modifies this
      ensures var touched := Seen(old(Keys()), s, now); Keys() == ExtendedIf(touched, |touched.viewers|, now)
    {
      viewers := viewers[s := now];
      viewers := Recent(viewers, now);
      if |viewers| >= 2 {
        ExtendCollabMode(now);
      }
    }

    method RemoveViewerSession(s: Session)
      modifies this
      ensures Keys() == old(Keys()).(viewers := old(viewers) - {s})
    {
      viewers := viewers - {s};
    }

    method CountParticipants(now: Time) returns (clientCount: nat, viewerCount: nat)
      modifies this
      ensures Keys() == Counted(old(Keys()), now) && clientCount == |clients| && viewerCount == |viewers|
    {
      PruneStaleClients(now);
      viewers := Recent(viewers, now);
      clientCount, viewerCount := |clients|, |viewers|;
    }

    method GetSyncWriteMode(now: Time) returns (mode: Mode)
      modifies this
      ensures (Keys(), mode) == Probed(old(Keys()), now)
    {
      if collabUntil.Some? && collabUntil.value > now {
        return Collab;
      }
      var clientCount, viewerCount := CountParticipants(now);
      if clientCount >= 2 || viewerCount >= 2 {
        ExtendCollabMode(now);
        return Collab;
      }
      return Solo;
    }

    method RearmCollabModeIfActive(now: Time)
      modifies this
      ensures Keys() == Rearmed(old(Keys()), now)
    {
      if collabUntil.Some? && collabUntil.value > now {
        ExtendCollabMode(now);
        return;
      }
      var clientCount, viewerCount := CountParticipants(now);
      if clientCount >= 2 || viewerCount >= 2 {
        ExtendCollabMode(now);
      }
    }
  }

  lemma CountingOnlyDrops(p: Presence, now: Time)
    ensures |Counted(p, now).clients| <= |p.clients| && |Counted(p, now).viewers| <= |p.viewers|
    ensures Counted(p, now).collabUntil == p.collabUntil
  {
    FewerMembers(Counted(p, now).clients, p.clients);
    FewerMembers(Counted(p, now).viewers.Keys, p.viewers.Keys);
  }

  lemma {:induction false} FewerMembers<T>(a: set<T>, b: set<T>)
    requires a <= b
    ensures |a| <= |b|
    decreases a
  {
    if a != {} {
      var x :| x in a;
      FewerMembers(a - {x}, b - {x});
    }
  }
}

/** Batches and presence together: runs on a board with at most one participant. */
module SoloMode {
  import opened Elements
  import opened BoardState
  import opened Processor
  import opened Batch
  import opened MutationProcessor
  import opened Presence
  import BoardService
  import LockEnforcement
  import F = FlushProtocol
  import LoadEvict

  /** A board: its presence keys, the mode of the batch in progress, its keys and its table. */
  datatype Board = Board(presence: Presence, batch: Option<Mode>, redis: RedisBoard, rows: F.Rows)

  /** The commands that touch presence come apart: a count may be taken after others have come and gone. */
  datatype Action =
    | Join(m: Member, now: Time)
    | CountClients(now: Time)
    | Leave(m: Member)
    | Prune(now: Time)
    | TouchViewer(s: Session, now: Time)
    | CountViewers(now: Time)
    | LeaveViewer(s: Session)
    | Probe(now: Time)
    | RunBatch(batch: seq<Mutation>, clock: nat -> Time, now: Time)
    | Rearm(now: Time)

  predicate Enabled(s: Board, a: Action) {
    match a
    case Probe(_) => s.batch.None?
    case RunBatch(_, _, _) => s.batch.Some?
    case Rearm(_) => s.batch.Some?
    case _ => true
  }

  ghost function SettingOf(mode: Mode, clock: nat -> Time): Setting {
    Setting(b => mode, clock, b => BoardService.Stored)
  }

  ghost function Next(incremental: bool, b: BoardId, s: Board, a: Action): Board
    requires Enabled(s, a)
  {
    var p := s.presence;
    match a
    case Join(m, now) => s.(presence := Joined(p, m, now))
    case CountClients(now) => s.(presence := ExtendedIf(p, |p.clients|, now))
    case Leave(m) => s.(presence := Left(p, m))
    case Prune(now) => s.(presence := Pruned(p, now))
    case TouchViewer(v, now) => s.(presence := Seen(p, v, now))
    case CountViewers(now) => s.(presence := ExtendedIf(p, |p.viewers|, now))
    case LeaveViewer(v) => s.(presence := p.(viewers := p.viewers - {v}))
    case Probe(now) => s.(presence := Probed(p, now).0, batch := Some(Probed(p, now).1))
    case RunBatch(batch, clock, now) =>
      var st := SettingOf(s.batch.value, clock);
      s.(redis := FinalRedis(incremental, map[b := s.redis], batch, b, st),
         rows := FinalTable(incremental, map[b := s.redis], map[b := s.rows], batch, b, st, now))
    case Rearm(now) => s.(presence := if s.batch.value.Collab? then Extended(p, now) else Rearmed(p, now), batch := None)
  }

  /** A run on a board where neither set ever has two members. */
  ghost predicate AloneRun(incremental: bool, b: BoardId, s: Board, run: seq<Action>)
    decreases |run|
  {
    && !Crowded(s.presence)
    && (run == [] || (Enabled(s, run[0]) && AloneRun(incremental, b, Next(incremental, b, s, run[0]), run[1..])))
  }

  ghost function After(incremental: bool, b: BoardId, s: Board, run: seq<Action>): Board
    requires AloneRun(incremental, b, s, run)
    decreases |run|
  {
    if run == [] then s else After(incremental, b, Next(incremental, b, s, run[0]), run[1..])
  }

  // ----- A batch in solo mode -----

  /** The flush machine with no flush under way and no number pending. */
  function AtRest(incremental: bool, r: RedisBoard, rows: F.Rows, window: seq<Time>): F.State {
    F.State.State(incremental, r, rows, F.Idle, window, {}, [])
  }

  /** The keys and the table satisfy the invariant of the flush protocol. */
  ghost predicate Sound(incremental: bool, r: RedisBoard, rows: F.Rows) {
    exists window :: F.Inv(AtRest(incremental, r, rows, window))
  }

  /** Postgres equals Redis, and nothing is marked. */
  ghost predicate Synced(incremental: bool, r: RedisBoard, rows: F.Rows) {
    && F.TableContent(rows) == F.RedisContent(r.elements)
    && !r.inDirtyBoards && r.dirtyAge == r.dirtySince == None
    && (incremental ==> r.dirty == r.deleted == {})
  }

  lemma SyncedIsSound(incremental: bool, r: RedisBoard, rows: F.Rows)
    requires Synced(incremental, r, rows) && Keyed(r.elements) && F.WellFormedTable(rows) && r.deleted == {}
    ensures Sound(incremental, r, rows)
  {
    F.AgreeEverywhere(rows, r.elements);
    assert F.Inv(AtRest(incremental, r, rows, []));
  }

  lemma SeenIsNotPartOfIt(incremental: bool, r: RedisBoard, rows: F.Rows, seen: set<MutationId>, window: seq<Time>)
    requires F.Inv(AtRest(incremental, r, rows, window))
    ensures F.Inv(AtRest(incremental, r.(seen := seen), rows, window))
  {
  }

  /** Nor are the numbers handed out. */
  lemma NumbersAreNotPartOfIt(s: F.State)
    requires F.Inv(s)
    ensures F.Inv(s.(pending := {}, history := []))
  {
  }

  lemma ChangeIsSound(incremental: bool, r: RedisBoard, rows: F.Rows, c: Change, track: bool)
    requires Sound(incremental, r, rows) && c.sequence == r.sequence + 1
    ensures Sound(incremental, Pipeline(NextSequence(r), c, track), rows)
  {
    hide F.Inv, Pipeline;
    var window :| F.Inv(AtRest(incremental, r, rows, window));
    var s := AtRest(incremental, r, rows, window);
    F.StepKeepsInv(s, F.Increment);
    F.StepKeepsInv(F.Next(s, F.Increment), F.Write(c, track));
    var s' := F.Next(F.Next(s, F.Increment), F.Write(c, track));
    NumbersAreNotPartOfIt(s');
    assert s'.(pending := {}, history := [])
        == AtRest(incremental, Pipeline(NextSequence(r), c, track), rows, window + [c.serverTimestamp]);
  }

  lemma MutationIsSound(incremental: bool, r: RedisBoard, rows: F.Rows, m: Mutation, context: map<Id, Element>,
                        blocked: bool, mode: Mode, now: Time)
    requires Sound(incremental, r, rows)
    ensures var out := Process(r, m, context, blocked, mode, now);
      && Sound(incremental, out.redis, rows)
      && (!out.applied ==> out.redis == r.(seen := out.redis.seen))
      && (out.applied || r.loaded ==> out.redis.loaded)
  {
    hide Sound, AppliedChangeSet, ToChangeSet, Rejected;
    var r1 := r.(seen := r.seen + {m.mutationId});
    SeenIsSound(incremental, r, rows, r1.seen);
    var (upserts, deletes) := ToChangeSet(context, m.op);
    ChangeSetIsSound(incremental, r1, rows, upserts, deletes, mode.Collab?, now);
  }

  lemma SeenIsSound(incremental: bool, r: RedisBoard, rows: F.Rows, seen: set<MutationId>)
    requires Sound(incremental, r, rows)
    ensures Sound(incremental, r.(seen := seen), rows)
  {
    hide F.Inv;
    var window :| F.Inv(AtRest(incremental, r, rows, window));
    SeenIsNotPartOfIt(incremental, r, rows, seen, window);
  }

  lemma ChangeSetIsSound(incremental: bool, r: RedisBoard, rows: F.Rows, upserts: seq<Element>, deletes: seq<Id>,
                         track: bool, now: Time)
    requires Sound(incremental, r, rows)
    ensures var (r', c) := AppliedChangeSet(r, upserts, deletes, track, now);
      Sound(incremental, r', rows) && if c.None? then r' == r else r'.loaded
  {
    hide Sound, HSetAll, Survivors, CascadeOf;
    ChangeIsSound(incremental, r, rows, ToChange(r, upserts, deletes, now), track);
  }

  lemma {:induction false} MutationsAreSound(incremental: bool, boards: Boards, rows: F.Rows, batch: seq<Mutation>,
                                             b: BoardId, n: nat, st: Setting)
    requires n <= |batch| && Sound(incremental, At(boards, b), rows)
    ensures var r := CachedAt(At(boards, b), batch, b, n, st).0;
      && Sound(incremental, r, rows)
      && (!ChangedBy(boards, batch, b, n, st) ==> r == At(boards, b).(seen := r.seen))
      && (ChangedBy(boards, batch, b, n, st) ==> r.loaded)
  {
    hide Process, ContextAfter, Sound;
    if n > 0 {
      MutationsAreSound(incremental, boards, rows, batch, b, n - 1, st);
      var (before, context) := CachedAt(At(boards, b), batch, b, n - 1, st);
      var m := batch[n - 1];
      if m.boardId == b {
        var blocked := LockEnforcement.IsBlocked(m.op, context);
        MutationIsSound(incremental, before, rows, m, context, blocked, st.modes(b), st.clock(n - 1));
        assert ResultAt(boards, batch, n - 1, st) == Process(before, m, context, blocked, st.modes(b), st.clock(n - 1));
        if ResultAt(boards, batch, n - 1, st).applied {
          assert ChangedBy(boards, batch, b, n, st);
        } else if ChangedBy(boards, batch, b, n - 1, st) {
          assert ChangedBy(boards, batch, b, n, st);
        }
      }
    }
  }

  lemma FlushIsSynced(incremental: bool, r: RedisBoard, rows: F.Rows, now: Time)
    requires Sound(incremental, r, rows)
    ensures var r', rows' := F.FlushedRedis(incremental, r), F.FlushedRows(incremental, r, rows, now);
      Sound(incremental, r', rows') && Synced(incremental, r', rows')
  {
    var window :| F.Inv(AtRest(incremental, r, rows, window));
    F.QuietFlush(AtRest(incremental, r, rows, window), now);
    assert F.Flushed(AtRest(incremental, r, rows, window), now)
        == AtRest(incremental, F.FlushedRedis(incremental, r), F.FlushedRows(incremental, r, rows, now), []);
  }

  /** Whether the batch applied a change. */
  ghost predicate Applied(b: BoardId, s: Board, a: Action) {
    a.RunBatch? && s.batch.Some? && ChangedBy(map[b := s.redis], a.batch, b, |a.batch|, SettingOf(s.batch.value, a.clock))
  }

  lemma SoloBatch(incremental: bool, b: BoardId, s: Board, a: Action)
    requires a.RunBatch? && s.batch == Some(Solo) && Sound(incremental, s.redis, s.rows)
    ensures var s' := Next(incremental, b, s, a);
      && Sound(incremental, s'.redis, s'.rows)
      && (Applied(b, s, a) || Synced(incremental, s.redis, s.rows) ==> Synced(incremental, s'.redis, s'.rows))
  {
    hide Sound, CachedAt, OneByOne, ChangedBy, F.FlushedRedis, F.FlushedRows;
    var boards, st := map[b := s.redis], SettingOf(Solo, a.clock);
    MutationsAreSound(incremental, boards, s.rows, a.batch, b, |a.batch|, st);
    CachedIsOneByOne(boards, a.batch, |a.batch|, st, b);
    FlushIsSynced(incremental, At(OneByOne(boards, a.batch, |a.batch|, st).boards, b), s.rows, a.now);
  }

  // ----- Runs -----

  ghost predicate SoloInv(incremental: bool, s: Board) {
    s.presence.collabUntil.None? && s.batch != Some(Collab) && Sound(incremental, s.redis, s.rows)
  }

  /** A freshly loaded board with no marker is where such a run starts: synced, and in solo mode. */
  lemma LoadedBoardStartsSolo(incremental: bool, presence: Presence, rows: F.Rows)
    requires F.WellFormedTable(rows) && presence.collabUntil.None?
    ensures var r := LoadEvict.Installed(NO_KEYS, rows);
      Synced(incremental, r, rows) && SoloInv(incremental, Board(presence, None, r, rows))
  {
    var r := LoadEvict.Installed(NO_KEYS, rows);
    LoadEvict.InstallOnEmpty(NO_KEYS, rows);
    LoadEvict.DecodedKeyed(rows);
    LoadEvict.DecodedIffAgree(rows, r.elements);
    SyncedIsSound(incremental, r, rows);
  }

  lemma AloneStep(incremental: bool, b: BoardId, s: Board, a: Action)
    requires SoloInv(incremental, s) && Enabled(s, a) && !Crowded(s.presence)
    ensures var s' := Next(incremental, b, s, a);
      && SoloInv(incremental, s')
      && (Applied(b, s, a) || Synced(incremental, s.redis, s.rows) ==> Synced(incremental, s'.redis, s'.rows))
  {
    hide Sound, Synced, FinalRedis, FinalTable, Counted, ChangedBy;
    match a
    case RunBatch(_, _, _) =>
      assert s.batch.value.Solo?;
      SoloBatch(incremental, b, s, a);
    case Probe(now) =>
      CountingOnlyDrops(s.presence, now);
      assert Probed(s.presence, now) == (Counted(s.presence, now), Solo);
    case Rearm(now) => CountingOnlyDrops(s.presence, now);
    case _ =>
  }

  /** While neither set reaches two members the marker is never set, whatever comes and goes; and
      once synced, as after any batch that applied a change, Postgres stays equal to Redis with nothing marked. */
  lemma {:induction false} AloneStaysSolo(incremental: bool, b: BoardId, s: Board, run: seq<Action>)
    requires SoloInv(incremental, s) && AloneRun(incremental, b, s, run)
    ensures SoloInv(incremental, After(incremental, b, s, run))
    ensures Synced(incremental, s.redis, s.rows) ==>
      Synced(incremental, After(incremental, b, s, run).redis, After(incremental, b, s, run).rows)
    decreases |run|
  {
    hide SoloInv, Synced, Next;
    if run != [] {
      AloneStep(incremental, b, s, run[0]);
      AloneStaysSolo(incremental, b, Next(incremental, b, s, run[0]), run[1..]);
    }
  }

  /** The state before the `i`th step of a run. */
  ghost function StateAt(incremental: bool, b: BoardId, s: Board, run: seq<Action>, i: nat): Board
    requires AloneRun(incremental, b, s, run) && i <= |run|
    decreases i
  {
    if i == 0 then s else StateAt(incremental, b, Next(incremental, b, s, run[0]), run[1..], i - 1)
  }

  /** Every completed batch of such a run that applied a change leaves Postgres equal to Redis with nothing marked. */
  lemma {:induction false} EveryBatchIsDurable(incremental: bool, b: BoardId, s: Board, run: seq<Action>, i: nat)
    requires SoloInv(incremental, s) && AloneRun(incremental, b, s, run) && i < |run|
    requires Applied(b, StateAt(incremental, b, s, run, i), run[i])
    ensures var t := StateAt(incremental, b, s, run, i + 1);
      t.presence.collabUntil.None? && Synced(incremental, t.redis, t.rows)
    decreases i
  {
    hide SoloInv, Synced, Next, Applied;
    AloneStep(incremental, b, s, run[0]);
    var s1 := Next(incremental, b, s, run[0]);
    if i == 0 {
      assert StateAt(incremental, b, s1, run[1..], 0) == s1;
      MarkerOf(incremental, s1);
    } else {
      EveryBatchIsDurable(incremental, b, s1, run[1..], i - 1);
    }
  }

  lemma MarkerOf(incremental: bool, s: Board)
    requires SoloInv(incremental, s)
    ensures s.presence.collabUntil.None?
  {
  }

  // ----- Once there are two -----

  function TimeOf(a: Action, otherwise: Time): Time {
    match a
    case Leave(_) => otherwise
    case LeaveViewer(_) => otherwise
    case _ => a.now
  }

  ghost predicate Runs(incremental: bool, b: BoardId, s: Board, run: seq<Action>)
    decreases |run|
  {
    run == [] || (Enabled(s, run[0]) && Runs(incremental, b, Next(incremental, b, s, run[0]), run[1..]))
  }

  ghost function End(incremental: bool, b: BoardId, s: Board, run: seq<Action>): Board
    requires Runs(incremental, b, s, run)
    decreases |run|
  {
    if run == [] then s else End(incremental, b, Next(incremental, b, s, run[0]), run[1..])
  }

  ghost predicate MarkedUntil(p: Presence, until: Time) {
    p.collabUntil.Some? && p.collabUntil.value >= until
  }

  lemma MarkerStays(incremental: bool, b: BoardId, s: Board, a: Action, start: Time)
    requires Enabled(s, a) && TimeOf(a, start) >= start && MarkedUntil(s.presence, start + COLLAB_MODE_COOLDOWN_MS)
    ensures MarkedUntil(Next(incremental, b, s, a).presence, start + COLLAB_MODE_COOLDOWN_MS)
  {
    hide FinalRedis, FinalTable, Counted, Crowded, Recent, Leased;
    if a.Probe? || a.Rearm? {
      CountingOnlyDrops(s.presence, a.now);
    }
  }

  lemma {:induction false} MarkerLasts(incremental: bool, b: BoardId, s: Board, run: seq<Action>, start: Time)
    requires Runs(incremental, b, s, run) && MarkedUntil(s.presence, start + COLLAB_MODE_COOLDOWN_MS)
    requires forall i | 0 <= i < |run| :: TimeOf(run[i], start) >= start
    ensures MarkedUntil(End(incremental, b, s, run).presence, start + COLLAB_MODE_COOLDOWN_MS)
    decreases |run|
  {
    hide Next, MarkedUntil;
    if run != [] {
      MarkerStays(incremental, b, s, run[0], start);
      assert forall i | 0 <= i < |run[1..]| :: run[1..][i] == run[i + 1];
      MarkerLasts(incremental, b, Next(incremental, b, s, run[0]), run[1..], start);
    }
  }

  /** A step that counts two participants: after a join, after a touch, or in a probe or re-arm that has to count. */
  ghost predicate CountsTwo(s: Board, a: Action) {
    match a
    case CountClients(_) => |s.presence.clients| >= 2
    case CountViewers(_) => |s.presence.viewers| >= 2
    case Probe(now) => !MarkerLive(s.presence, now) && Crowded(Counted(s.presence, now))
    case Rearm(now) => !MarkerLive(s.presence, now) && Crowded(Counted(s.presence, now))
    case _ => false
  }

  lemma CountingTwoMarks(incremental: bool, b: BoardId, s: Board, a: Action)
    requires Enabled(s, a) && CountsTwo(s, a)
    ensures MarkedUntil(Next(incremental, b, s, a).presence, TimeOf(a, 0) + COLLAB_MODE_COOLDOWN_MS)
  {
    hide Counted, Crowded;
  }

  /** Once a step has counted two, every probe of the next cooldown says collab, even if everyone leaves. */
  lemma CollabLasts(incremental: bool, b: BoardId, s: Board, count: Action, run: seq<Action>, now: Time)
    requires Enabled(s, count) && CountsTwo(s, count)
    requires Runs(incremental, b, Next(incremental, b, s, count), run)
    requires forall i | 0 <= i < |run| :: TimeOf(run[i], TimeOf(count, 0)) >= TimeOf(count, 0)
    requires now < TimeOf(count, 0) + COLLAB_MODE_COOLDOWN_MS
    ensures Probed(End(incremental, b, Next(incremental, b, s, count), run).presence, now).1 == Collab
  {
    hide Next, Counted, Crowded;
    CountingTwoMarks(incremental, b, s, count);
    MarkerLasts(incremental, b, Next(incremental, b, s, count), run, TimeOf(count, 0));
  }
}
