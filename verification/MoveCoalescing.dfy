/** Queued moves: coalesced per element, flushed as one mutation after a debounce, and never held
    longer than a maximum wait. The tick manager and the CRDT rooms run the same engine. */
module MoveQueue {
  import opened Elements
  import opened OrderedMap
  import opened LockEnforcement

  datatype Position = Position(x: real, y: real)

  type Pending = Entries<Id, Position>

  datatype Rules = Rules(debounceMs: nat, maxWaitMs: nat)

  const TICK_RULES := Rules(400, 1500)
  const CRDT_RULES := Rules(400, 1600)

  /** What is pending for a board, and when its two timers are due. */
  datatype Room = Room(pending: Pending, debounce: Option<Time>, maxWait: Option<Time>)

  const EMPTY_ROOM := Room([], None, None)

  function Positions(moves: seq<Move>): Pending {
    seq(|moves|, i requires 0 <= i < |moves| => (moves[i].elementId, Position(moves[i].x, moves[i].y)))
  }

  function MovesOf(pending: Pending): seq<Move> {
    seq(|pending|, i requires 0 <= i < |pending| => Move(pending[i].0, pending[i].1.x, pending[i].1.y))
  }

  /** The debounce timer restarts; the maximum wait starts only if it is not running. */
  function Scheduled(r: Room, rules: Rules, now: Time): Room {
    r.(debounce := Some(now + rules.debounceMs),
       maxWait := if r.maxWait.Some? then r.maxWait else Some(now + rules.maxWaitMs))
  }

  /** The tick manager ignores an empty list of moves. */
  function Queued(r: Room, moves: seq<Move>, now: Time): Room {
    if moves == [] then r else Scheduled(r.(pending := PutAll(r.pending, Positions(moves))), TICK_RULES, now)
  }

  /** A CRDT update schedules a flush even when it brings no move. */
  function Merged(r: Room, moves: seq<Move>, now: Time): Room {
    Scheduled(r.(pending := PutAll(r.pending, Positions(moves))), CRDT_RULES, now)
  }

  function Flushed(r: Room): Room {
    if r.pending == [] then r else EMPTY_ROOM
  }

  /** The part of both managers that concerns one board. */
  class MoveRoom {
    var pending: Pending
    var debounce: Option<Time>
    var maxWait: Option<Time>

    ghost function AsRoom(): Room
      reads this
    {
      Room(pending, debounce, maxWait)
    }

    constructor ()
      ensures AsRoom() == EMPTY_ROOM
    {
      pending, debounce, maxWait := [], None, None;
    }

    method ClearTimers()
      modifies this
      ensures AsRoom() == old(AsRoom()).(debounce := None, maxWait := None)
    {
      debounce, maxWait := None, None;
    }

    method Schedule(rules: Rules, now: Time)
      modifies this
      ensures AsRoom() == Scheduled(old(AsRoom()), rules, now)
    {
      debounce := Some(now + rules.debounceMs);
      if maxWait.None? {
        maxWait := Some(now + rules.maxWaitMs);
      }
    }

    method SetAllMoves(moves: seq<Move>)
      modifies `pending
      ensures pending == PutAll(old(pending), Positions(moves))
    {
      for i := 0 to |moves|
        invariant pending == PutAll(old(pending), Positions(moves[..i]))
      {
        var position := Position(moves[i].x, moves[i].y);
        assert Positions(moves[..i + 1]) == Positions(moves[..i]) + [(moves[i].elementId, position)];
        PutAllAppend(old(pending), Positions(moves[..i]), [(moves[i].elementId, position)]);
        PutAllOne(PutAll(old(pending), Positions(moves[..i])), moves[i].elementId, position);
        pending := Put(pending, moves[i].elementId, position);
      }
      assert moves[..|moves|] == moves;
    }

    method QueueMoves(moves: seq<Move>, now: Time)
      modifies this
      ensures AsRoom() == Queued(old(AsRoom()), moves, now)
    {
      if |moves| == 0 {
        return;
      }
      SetAllMoves(moves);
      Schedule(TICK_RULES, now);
    }

    method ApplyRemoteUpdate(moves: seq<Move>, now: Time)
      modifies this
      ensures AsRoom() == Merged(old(AsRoom()), moves, now)
    {
      SetAllMoves(moves);
      Schedule(CRDT_RULES, now);
    }

    /** Take what is pending; the moves of the one mutation that the flush submits. */
    method Flush() returns (moves: seq<Move>)
      modifies this
      ensures AsRoom() == Flushed(old(AsRoom())) && moves == MovesOf(old(pending))
    {
      moves := MovesOf(pending);
      if |pending| == 0 {
        return;
      }
      ClearTimers();
      pending := [];
    }

    method ClearBoard()
      modifies this
      ensures AsRoom() == EMPTY_ROOM
    {
      ClearTimers();
      pending := [];
    }
  }

  lemma PutAllOne(m: Pending, id: Id, p: Position)
    ensures PutAll(m, [(id, p)]) == Put(m, id, p)
  {
    assert [(id, p)][1..] == [];
  }

  // ----- Timed runs -----

  /** `first` is when the oldest pending move was queued; `queued` all the moves since the last flush; `submitted`
      those of flushes whose mutation went through, `lost` those of flushes that failed or were cleared. */
  datatype State = State(now: Time, room: Room, first: Option<Time>, queued: seq<Move>, submitted: seq<Move>, lost: seq<Move>)

  datatype Action =
    | Arrive(moves: seq<Move>)
    | FireDebounce(ok: bool)
    | FireMaxWait(ok: bool)
    | FlushNow(ok: bool)
    | Clear
    | Wait(ms: nat)

  predicate Enabled(s: State, a: Action) {
    match a
    case FireDebounce(_) => s.room.debounce.Some? && s.room.debounce.value <= s.now
    case FireMaxWait(_) => s.room.maxWait.Some? && s.room.maxWait.value <= s.now
    case _ => true
  }

  /** A flush forgets the pending moves before it submits them, so a failure loses them. */
  function AfterFlush(s: State, r: Room, ok: bool): State {
    if r.pending == [] then s.(room := r)
    else if ok then s.(room := Flushed(r), first := None, queued := [], submitted := s.submitted + s.queued)
    else s.(room := Flushed(r), first := None, queued := [], lost := s.lost + s.queued)
  }

  /** `crdt` chooses between the two managers. */
  function Next(crdt: bool, s: State, a: Action): State
    requires Enabled(s, a)
  {
    match a
    case Arrive(moves) =>
      s.(room := if crdt then Merged(s.room, moves, s.now) else Queued(s.room, moves, s.now),
         first := if s.first.None? && moves != [] then Some(s.now) else s.first,
         queued := s.queued + moves)
    case FireDebounce(ok) => AfterFlush(s, s.room.(debounce := None), ok)
    case FireMaxWait(ok) => AfterFlush(s, s.room.(maxWait := None), ok)
    case FlushNow(ok) => AfterFlush(s, s.room, ok)
    case Clear => s.(room := EMPTY_ROOM, first := None, queued := [], lost := s.lost + s.queued)
    case Wait(ms) => s.(now := s.now + ms)
  }

  ghost predicate ValidRun(crdt: bool, s: State, run: seq<Action>)
    decreases |run|
  {
    run == [] || (Enabled(s, run[0]) && ValidRun(crdt, Next(crdt, s, run[0]), run[1..]))
  }

  function After(crdt: bool, s: State, run: seq<Action>): State
    requires ValidRun(crdt, s, run)
    decreases |run|
  {
    if run == [] then s else After(crdt, Next(crdt, s, run[0]), run[1..])
  }

  /** Timers fire when they are due: no wait passes one. */
  ghost predicate Punctual(s: State, a: Action) {
    a.Wait? ==>
      && (s.room.maxWait.Some? ==> s.now + a.ms <= s.room.maxWait.value)
      && (s.room.debounce.Some? ==> s.now + a.ms <= s.room.debounce.value)
  }

  ghost predicate PunctualRun(crdt: bool, s: State, run: seq<Action>)
    requires ValidRun(crdt, s, run)
    decreases |run|
  {
    run == [] || (Punctual(s, run[0]) && PunctualRun(crdt, Next(crdt, s, run[0]), run[1..]))
  }

  function RulesOf(crdt: bool): Rules {
    if crdt then CRDT_RULES else TICK_RULES
  }

  ghost predicate Inv(crdt: bool, s: State) {
    && s.room.pending == PutAll([], Positions(s.queued))
    && (s.first.Some? <==> s.queued != [])
    && (s.first.Some? ==> s.room.maxWait.Some? && s.room.maxWait.value <= s.first.value + RulesOf(crdt).maxWaitMs)
    && (s.room.maxWait.Some? ==> s.room.maxWait.value <= s.now + RulesOf(crdt).maxWaitMs)
    && (!crdt && s.room.maxWait.Some? ==> s.queued != [])
  }

  lemma {:induction false} PutAllNotEmpty(m: Pending, entries: Pending)
    ensures PutAll(m, entries) == [] <==> m == [] && entries == []
    decreases |entries|
  {
    if entries != [] {
      PutAllNotEmpty(Put(m, entries[0].0, entries[0].1), entries[1..]);
    }
  }

  lemma StepKeepsInv(crdt: bool, s: State, a: Action)
    requires Inv(crdt, s) && Enabled(s, a)
    ensures Inv(crdt, Next(crdt, s, a))
  {
    hide PutAll, Positions;
    PendingIffQueued(s.queued);
    if a.Arrive? {
      PendingGrows(s.queued, a.moves);
      PendingIffQueued(s.queued + a.moves);
    }
  }

  lemma PendingIffQueued(queued: seq<Move>)
    ensures PutAll([], Positions(queued)) == [] <==> queued == []
    ensures PutAll([], Positions([])) == []
  {
    PutAllNotEmpty([], Positions(queued));
    PutAllNotEmpty([], Positions([]));
  }

  lemma PendingGrows(queued: seq<Move>, moves: seq<Move>)
    ensures PutAll(PutAll([], Positions(queued)), Positions(moves)) == PutAll([], Positions(queued + moves))
    ensures moves == [] ==> queued + moves == queued
  {
    PutAllAppend([], Positions(queued), Positions(moves));
    assert Positions(queued + moves) == Positions(queued) + Positions(moves);
  }

  lemma {:induction false} RunKeepsInv(crdt: bool, s: State, run: seq<Action>)
    requires Inv(crdt, s) && ValidRun(crdt, s, run)
    ensures Inv(crdt, After(crdt, s, run))
    ensures PunctualRun(crdt, s, run) && OnTime(s) ==> OnTime(After(crdt, s, run))
    decreases |run|
  {
    hide Inv;
    if run != [] {
      StepKeepsInv(crdt, s, run[0]);
      if PunctualRun(crdt, s, run) && OnTime(s) {
        StepKeepsOnTime(crdt, s, run[0]);
      }
      RunKeepsInv(crdt, Next(crdt, s, run[0]), run[1..]);
    }
  }

  ghost predicate OnTime(s: State) {
    s.room.maxWait.Some? ==> s.now <= s.room.maxWait.value
  }

  lemma StepKeepsOnTime(crdt: bool, s: State, a: Action)
    requires Enabled(s, a) && Punctual(s, a) && OnTime(s)
    ensures OnTime(Next(crdt, s, a))
  {
    hide PutAll, Positions;
  }

  function Quiet(now: Time): State {
    State(now, EMPTY_ROOM, None, [], [], [])
  }

  /** In every reachable timed state, pending moves mean an armed timer due no later than the maximum
      wait after the first of them, and they are the queued moves with the last of each element;
      with timers that fire when due, no move waits longer than that. */
  lemma PendingIsBounded(crdt: bool, now: Time, run: seq<Action>)
    requires ValidRun(crdt, Quiet(now), run)
    ensures var s := After(crdt, Quiet(now), run);
      && (s.room.pending != [] <==> s.queued != [])
      && ToMap(s.room.pending) == ToMap(Positions(s.queued)) && Distinct(s.room.pending)
      && (s.room.pending != [] ==>
            && s.first.Some? && s.room.maxWait.Some?
            && s.room.maxWait.value <= s.first.value + (if crdt then 1600 else 1500)
            && (PunctualRun(crdt, Quiet(now), run) ==> s.now <= s.first.value + (if crdt then 1600 else 1500)))
  {
    assert Positions([]) == [];
    RunKeepsInv(crdt, Quiet(now), run);
    var s := After(crdt, Quiet(now), run);
    PendingIffQueued(s.queued);
    PutAllFromEmpty(Positions(s.queued));
  }

  // ----- No move goes missing -----

  function Arrived(run: seq<Action>): seq<Move>
    decreases |run|
  {
    if run == [] then [] else (if run[0].Arrive? then run[0].moves else []) + Arrived(run[1..])
  }

  /** A flush that fails, or a clear, while moves are pending. */
  predicate Loses(s: State, a: Action) {
    && s.queued != []
    && (a.Clear? || ((a.FireDebounce? || a.FireMaxWait? || a.FlushNow?) && !a.ok))
  }

  ghost predicate NeverLoses(crdt: bool, s: State, run: seq<Action>)
    requires ValidRun(crdt, s, run)
    decreases |run|
  {
    run == [] || (!Loses(s, run[0]) && NeverLoses(crdt, Next(crdt, s, run[0]), run[1..]))
  }

  function Accounted(s: State): multiset<Move> {
    multiset(s.queued) + multiset(s.submitted) + multiset(s.lost)
  }

  lemma FlushAccounts(s: State, r: Room, ok: bool)
    requires r.pending == [] <==> s.queued == []
    ensures Accounted(AfterFlush(s, r, ok)) == Accounted(s)
    ensures AfterFlush(s, r, ok).lost == [] <==> s.lost == [] && (s.queued == [] || ok)
  {
    hide Flushed;
  }

  lemma ArrivalAccounts(s: State, moves: seq<Move>, r: Room, first: Option<Time>)
    ensures Accounted(s.(room := r, first := first, queued := s.queued + moves)) == Accounted(s) + multiset(moves)
  {
  }

  lemma ClearAccounts(s: State)
    ensures Accounted(s.(room := EMPTY_ROOM, first := None, queued := [], lost := s.lost + s.queued)) == Accounted(s)
  {
  }

  lemma WaitAccounts(s: State, ms: nat)
    ensures Accounted(s.(now := s.now + ms)) == Accounted(s)
  {
  }

  lemma InvPending(crdt: bool, s: State)
    requires Inv(crdt, s)
    ensures s.room.pending == [] <==> s.queued == []
  {
    hide PutAll, Positions;
    PendingIffQueued(s.queued);
  }

  lemma StepAccounts(crdt: bool, s: State, a: Action)
    requires Inv(crdt, s) && Enabled(s, a)
    ensures Accounted(Next(crdt, s, a)) == Accounted(s) + multiset(if a.Arrive? then a.moves else [])
    ensures Next(crdt, s, a).lost == [] <==> s.lost == [] && !Loses(s, a)
    ensures s.lost != [] ==> Next(crdt, s, a).lost != []
  {
    hide Inv, Accounted, Merged, Queued, AfterFlush;
    InvPending(crdt, s);
    match a
    case Arrive(moves) =>
      ArrivalAccounts(s, moves, Next(crdt, s, a).room, Next(crdt, s, a).first);
    case FireDebounce(ok) => FlushAccounts(s, s.room.(debounce := None), ok);
    case FireMaxWait(ok) => FlushAccounts(s, s.room.(maxWait := None), ok);
    case FlushNow(ok) => FlushAccounts(s, s.room, ok);
    case Clear => ClearAccounts(s);
    case Wait(ms) => WaitAccounts(s, ms);
  }

  lemma {:induction false} RunAccounts(crdt: bool, s: State, run: seq<Action>)
    requires Inv(crdt, s) && ValidRun(crdt, s, run)
    ensures Accounted(After(crdt, s, run)) == Accounted(s) + multiset(Arrived(run))
    ensures After(crdt, s, run).lost == [] <==> s.lost == [] && NeverLoses(crdt, s, run)
    decreases |run|
  {
    hide Inv, Next, Accounted, Loses;
    if run != [] {
      StepKeepsInv(crdt, s, run[0]);
      StepAccounts(crdt, s, run[0]);
      RunAccounts(crdt, Next(crdt, s, run[0]), run[1..]);
    }
  }

  /** Every move that arrived is pending, submitted or lost, exactly once; and none is lost if and only if no
      flush failed and no clear came while moves were pending. */
  lemma MovesAreConserved(crdt: bool, now: Time, run: seq<Action>)
    requires ValidRun(crdt, Quiet(now), run)
    ensures var s := After(crdt, Quiet(now), run);
      && multiset(s.queued) + multiset(s.submitted) + multiset(s.lost) == multiset(Arrived(run))
      && (s.lost == [] <==> NeverLoses(crdt, Quiet(now), run))
  {
    assert Positions([]) == [];
    RunAccounts(crdt, Quiet(now), run);
  }
}

/** What a flush of the pending moves does to the board. */
module MoveCoalescing {
  import opened Elements
  import opened OrderedMap
  import opened BoardState
  import opened LockEnforcement
  import opened Processor
  import opened MoveQueue

  function PositionPatch(p: Position): Patch {
    map["x" := Num(p.x), "y" := Num(p.y)]
  }

  /** The board with its elements at new positions. */
  function Moved(board: Context, ps: map<Id, Position>): Context {
    map k | k in board :: if k in ps then Merge(board[k], PositionPatch(ps[k])) else board[k]
  }

  function MovedOnly(board: Context, ps: map<Id, Position>): Context {
    map k | k in board && k in ps :: Merge(board[k], PositionPatch(ps[k]))
  }

  lemma MovedOnlyCons(board: Context, id: Id, p: Position, rest: map<Id, Position>)
    ensures MovedOnly(board, map[id := p] + rest)
         == (if id in board then map[id := Merge(board[id], PositionPatch(p))] else map[]) + MovedOnly(board, rest)
  {
    hide Merge, PositionPatch;
  }

  lemma MovedIsUpdate(board: Context, ps: map<Id, Position>)
    ensures board + MovedOnly(board, ps) == Moved(board, ps)
  {
    hide Merge, PositionPatch;
  }

  lemma MergeKeepsId(e: Element, p: Position)
    ensures IdOf(Merge(e, PositionPatch(p))) == IdOf(e)
  {
  }

  lemma MoveUpsertsCons(board: Context, m: Move, rest: seq<Element>)
    requires Keyed(board)
    ensures LastWins(UpsertFromCache(board, m.elementId, map["x" := Num(m.x), "y" := Num(m.y)]) + rest)
         == (if m.elementId in board then map[m.elementId := Merge(board[m.elementId], PositionPatch(Position(m.x, m.y)))] else map[])
            + LastWins(rest)
  {
    hide LastWins, Merge, PositionPatch;
    FirstMove(board, m);
    MergeKeepsIdIn(board, m.elementId, Position(m.x, m.y));
    if m.elementId in board {
      LastWinsCons(Merge(board[m.elementId], PositionPatch(Position(m.x, m.y))), rest);
    } else {
      assert [] + rest == rest && map[] + LastWins(rest) == LastWins(rest);
    }
  }

  lemma PositionsCons(moves: seq<Move>)
    requires moves != []
    ensures ToMap(Positions(moves)) == map[moves[0].elementId := Position(moves[0].x, moves[0].y)] + ToMap(Positions(moves[1..]))
  {
    assert Positions(moves)[1..] == Positions(moves[1..]);
  }

  /** The change set of a move puts each element at the last position asked for. */
  lemma {:induction false} MoveUpsertsMeaning(board: Context, moves: seq<Move>)
    requires Keyed(board)
    ensures LastWins(MoveUpserts(board, moves)) == MovedOnly(board, ToMap(Positions(moves)))
  {
    hide LastWins, Merge, PositionPatch, MovedOnly, ToMap, Positions, UpsertFromCache, Keyed;
    if moves == [] {
      NoMoveUpserts(board);
    } else {
      MoveUpsertsMeaning(board, moves[1..]);
      PositionsCons(moves);
      MovedOnlyCons(board, moves[0].elementId, Position(moves[0].x, moves[0].y), ToMap(Positions(moves[1..])));
      MoveUpsertsCons(board, moves[0], MoveUpserts(board, moves[1..]));
    }
  }

  lemma NoMoveUpserts(board: Context)
    ensures LastWins([]) == map[] && MovedOnly(board, ToMap(Positions([]))) == map[]
  {
    assert ById([]) == [] && Positions([]) == [];
  }

  lemma MergeKeepsIdIn(board: Context, id: Id, p: Position)
    requires Keyed(board)
    ensures id in board ==> IdOf(Merge(board[id], PositionPatch(p))) == id
  {
    if id in board {
      MergeKeepsId(board[id], p);
    }
  }

  lemma FirstMove(board: Context, m: Move)
    ensures UpsertFromCache(board, m.elementId, map["x" := Num(m.x), "y" := Num(m.y)])
         == if m.elementId in board then [Merge(board[m.elementId], PositionPatch(Position(m.x, m.y)))] else []
  {
  }

  lemma StampsDoNotCount(board: Context, upserts: Context, now: Time)
    ensures Contents(board + StampAll(upserts, now)) == Contents(board + upserts)
  {
    hide Content, Stamp;
    forall k | k in upserts ensures Content(Stamp(upserts[k], now)) == Content(upserts[k]) {
      StampKeepsContent(upserts[k], now);
    }
    assert Contents(StampAll(upserts, now)) == Contents(upserts);
    ContentsMerge(board, StampAll(upserts, now));
    ContentsMerge(board, upserts);
  }

  lemma ContentsMerge(board: Context, upserts: Context)
    ensures Contents(board + upserts) == Contents(board) + Contents(upserts)
  {
    hide Content;
  }

  lemma StampKeepsContent(e: Element, now: Time)
    ensures Content(Stamp(e, now)) == Content(e)
  {
  }

  lemma MoveChangeSet(r: RedisBoard, moves: seq<Move>, track: bool, now: Time)
    requires Keyed(r.elements)
    ensures var r' := AppliedChangeSet(r, MoveUpserts(r.elements, moves), [], track, now).0;
      && Contents(r'.elements) == Contents(Moved(r.elements, ToMap(Positions(moves))))
      && Keyed(r'.elements) && r'.seen == r.seen
  {
    hide *;
    var upserts := MoveUpserts(r.elements, moves);
    ApplyChangeSetMeaning(r, upserts, [], track, now);
    SeenUntouched(r, upserts, [], track, now);
    MoveUpsertsMeaning(r.elements, moves);
    MovedIsUpdate(r.elements, ToMap(Positions(moves)));
    StampsDoNotCount(r.elements, LastWins(upserts), now);
    NoCascade(r.elements);
    assert r.elements + StampAll(LastWins(upserts), now) - {} == r.elements + StampAll(LastWins(upserts), now);
  }

  lemma NoCascade(board: Context)
    ensures CascadeOf(board, []) == {}
  {
  }

  /** One move mutation that is not blocked. */
  lemma MoveMutation(r: RedisBoard, m: Mutation, moves: seq<Move>, mode: Mode, now: Time)
    requires Keyed(r.elements) && m.op == MoveElements(moves, false) && m.mutationId !in r.seen
    ensures var out := ProcessFull(r, m, false, mode, now);
      && Contents(out.redis.elements) == Contents(Moved(r.elements, ToMap(Positions(moves))))
      && Keyed(out.redis.elements) && out.redis.seen == r.seen + {m.mutationId}
  {
    hide Contents, LastWins, AppliedChangeSet, Moved, Keyed, MoveUpserts, ToMap, Positions;
    var r1 := r.(seen := r.seen + {m.mutationId});
    assert ToChangeSet(r.elements, m.op) == (MoveUpserts(r.elements, moves), []);
    KeyedSeen(r, r1.seen);
    MoveChangeSet(r1, moves, mode.Collab?, now);
    SeenUntouched(r1, MoveUpserts(r.elements, moves), [], mode.Collab?, now);
  }

  lemma KeyedSeen(r: RedisBoard, seen: set<MutationId>)
    ensures Keyed(r.(seen := seen).elements) == Keyed(r.elements)
  {
  }

  // ----- Locks -----

  /** Boards with the same contents up to positions block the same moves. */
  lemma MovesKeepVerdicts(now: Context, board: Context, ps: map<Id, Position>, id: Id)
    requires Contents(now) == Contents(Moved(board, ps))
    ensures MoveBlocked(now, id) == MoveBlocked(board, id)
  {
    hide LockParents, IsLocked, IsManaged, StringAt, Merge, PositionPatch, Content;
    forall k ensures (k in now <==> k in board) && (k in now ==> SameLocks(now[k], board[k])) {
      assert k in now <==> k in Contents(now);
      assert k in Contents(Moved(board, ps)) <==> k in board;
      if k in now {
        assert Contents(now)[k] == Contents(Moved(board, ps))[k];
        PositionKeepsLocks(now[k], board[k], if k in ps then ps[k] else Position(0.0, 0.0));
      }
    }
    if id in now {
      SameLocksOpen(now[id], board[id]);
      forall p | p in now ensures IsLocked(now[p]) == IsLocked(board[p]) && IsManaged(now[p]) == IsManaged(board[p]) {
        SameLocksOpen(now[p], board[p]);
      }
    }
  }

  ghost predicate SameLocks(a: Element, b: Element) {
    && IsLocked(a) == IsLocked(b) && IsManaged(a) == IsManaged(b)
    && LockParents(a) == LockParents(b)
    && StringAt(a.fields, "metaContainerId") == StringAt(b.fields, "metaContainerId")
  }

  lemma SameLocksOpen(a: Element, b: Element)
    requires SameLocks(a, b)
    ensures IsLocked(a) == IsLocked(b) && IsManaged(a) == IsManaged(b)
    ensures LockParents(a) == LockParents(b)
    ensures StringAt(a.fields, "metaContainerId") == StringAt(b.fields, "metaContainerId")
  {
  }

  lemma SameAt(a: Element, b: Element, key: string)
    requires key != "updatedAt" && Content(a) == Content(b)
    ensures key in a.fields <==> key in b.fields
    ensures key in a.fields ==> a.fields[key] == b.fields[key]
  {
    assert key in a.fields <==> key in Content(a);
    assert key in b.fields <==> key in Content(b);
    if key in a.fields {
      assert Content(a)[key] == Content(b)[key];
    }
  }

  lemma PositionKeepsLocks(a: Element, b: Element, p: Position)
    requires Content(a) == Content(b) || Content(a) == Content(Merge(b, PositionPatch(p)))
    ensures SameLocks(a, b)
  {
    hide Content;
    var c := if Content(a) == Content(b) then b else Merge(b, PositionPatch(p));
    SameAt(a, c, "locked");
    SameAt(a, c, "monthRange");
    SameAt(a, c, "containerId");
    SameAt(a, c, "metaContainerId");
  }

  // ----- In arrival order -----

  /** The moves that no lock blocks. */
  function Unblocked(board: Context, moves: seq<Move>, n: nat): seq<Move>
    requires n <= |moves|
  {
    if n == 0 then []
    else Unblocked(board, moves, n - 1) + if MoveBlocked(board, moves[n - 1].elementId) then [] else [moves[n - 1]]
  }

  function MoveOne(b: BoardId, m: Move, id: MutationId): Mutation {
    Mutation(id, b, MoveElements([m], false))
  }

  /** Each move as its own mutation, in arrival order, each under the verdict of the full board at its time. */
  ghost function EachInOrder(r: RedisBoard, b: BoardId, moves: seq<Move>, n: nat, uuid: nat -> MutationId,
                             mode: Mode, clock: nat -> Time): RedisBoard
    requires n <= |moves|
  {
    if n == 0 then r
    else
      var before := EachInOrder(r, b, moves, n - 1, uuid, mode, clock);
      var m := MoveOne(b, moves[n - 1], uuid(n - 1));
      ProcessFull(before, m, IsBlocked(m.op, before.elements), mode, clock(n - 1)).redis
  }

  lemma OneMoveVerdict(context: Context, m: Move)
    ensures IsBlocked(MoveElements([m], false), context) == MoveBlocked(context, m.elementId)
  {
    assert m in [m];
  }

  lemma BlockedMutation(r: RedisBoard, m: Mutation, mode: Mode, now: Time)
    requires m.op.MoveElements? && !m.op.transient && m.mutationId !in r.seen
    ensures ProcessFull(r, m, true, mode, now).redis == r.(seen := r.seen + {m.mutationId})
  {
  }

  lemma PositionsSnoc(moves: seq<Move>, m: Move)
    ensures ToMap(Positions(moves + [m])) == ToMap(Positions(moves))[m.elementId := Position(m.x, m.y)]
  {
    assert Positions(moves + [m]) == Positions(moves) + [(m.elementId, Position(m.x, m.y))];
    ToMapSnoc(Positions(moves), m.elementId, Position(m.x, m.y));
  }

  lemma MergedContent(e: Element, p: Position)
    ensures Content(Merge(e, PositionPatch(p))) == Content(e) + PositionPatch(p)
  {
    DropUnderMerge(e.fields, PositionPatch(p), {"updatedAt"});
  }

  lemma PositionTwice(a: Element, b: Element, p: Position, q: Position)
    requires Content(a) == Content(b) || Content(a) == Content(Merge(b, PositionPatch(p)))
    ensures Content(Merge(a, PositionPatch(q))) == Content(Merge(b, PositionPatch(q)))
  {
    MergedContent(a, q);
    MergedContent(b, q);
    MergedContent(b, p);
    assert PositionPatch(p).Keys <= PositionPatch(q).Keys;
    MergeTwice(Content(b), PositionPatch(p), PositionPatch(q));
  }

  lemma MovedContent(board: Context, ps: map<Id, Position>, k: Id)
    ensures k in Contents(Moved(board, ps)) <==> k in board
    ensures k in board ==>
      Contents(Moved(board, ps))[k] == if k in ps then Content(Merge(board[k], PositionPatch(ps[k]))) else Content(board[k])
  {
    hide Content, Merge, PositionPatch;
  }

  lemma MoveAgainAt(now: Context, board: Context, ps: map<Id, Position>, id: Id, q: Position, k: Id)
    requires Contents(now) == Contents(Moved(board, ps))
    ensures k in now <==> k in board
    ensures k in now ==> Contents(Moved(now, map[id := q]))[k] == Contents(Moved(board, ps[id := q]))[k]
  {
    hide Content, Merge, PositionPatch, Moved;
    assert k in now <==> k in Contents(now);
    MovedContent(board, ps, k);
    MovedContent(board, ps[id := q], k);
    MovedContent(now, map[id := q], k);
    if k in now {
      assert Contents(now)[k] == Content(now[k]);
      PositionTwice(now[k], board[k], if k in ps then ps[k] else q, q);
    }
  }

  /** A later position replaces an earlier one. */
  lemma MoveAgain(now: Context, board: Context, ps: map<Id, Position>, id: Id, q: Position)
    requires Contents(now) == Contents(Moved(board, ps))
    ensures Contents(Moved(now, map[id := q])) == Contents(Moved(board, ps[id := q]))
  {
    var after, goal := Contents(Moved(now, map[id := q])), Contents(Moved(board, ps[id := q]));
    hide *;
    forall k ensures (k in after <==> k in goal) && (k in after ==> after[k] == goal[k]) {
      MoveAgainAt(now, board, ps, id, q, k);
      MovedContent(now, map[id := q], k);
      MovedContent(board, ps[id := q], k);
    }
  }

  lemma {:induction false} InOrderMeaning(r: RedisBoard, b: BoardId, moves: seq<Move>, n: nat, uuid: nat -> MutationId,
                                          mode: Mode, clock: nat -> Time)
    requires n <= |moves| && Keyed(r.elements) && FreshIds(r, uuid)
    ensures var end := EachInOrder(r, b, moves, n, uuid, mode, clock);
      && Contents(end.elements) == Contents(Moved(r.elements, ToMap(Positions(Unblocked(r.elements, moves, n)))))
      && Keyed(end.elements) && (forall i: nat | n <= i :: uuid(i) !in end.seen)
    decreases n
  {
    hide ProcessFull, Contents, Moved, MoveBlocked, Keyed, IsBlocked, ToMap, Positions;
    if n == 0 {
      NothingMoved(r.elements);
    } else {
      InOrderMeaning(r, b, moves, n - 1, uuid, mode, clock);
      var before, m := EachInOrder(r, b, moves, n - 1, uuid, mode, clock), moves[n - 1];
      var done := Unblocked(r.elements, moves, n - 1);
      OneMoveVerdict(before.elements, m);
      MovesKeepVerdicts(before.elements, r.elements, ToMap(Positions(done)), m.elementId);
      if MoveBlocked(r.elements, m.elementId) {
        BlockedMutation(before, MoveOne(b, m, uuid(n - 1)), mode, clock(n - 1));
        assert done + [] == done;
      } else {
        MoveMutation(before, MoveOne(b, m, uuid(n - 1)), [m], mode, clock(n - 1));
        PositionsSnoc([], m);
        PositionsSnoc(done, m);
        NoPositions();
        assert [] + [m] == [m];
        MoveAgain(before.elements, r.elements, ToMap(Positions(done)), m.elementId, Position(m.x, m.y));
      }
    }
  }

  lemma NoPositions()
    ensures ToMap(Positions([])) == map[]
  {
  }

  lemma NothingMoved(board: Context)
    ensures Contents(Moved(board, ToMap(Positions([])))) == Contents(board)
  {
    assert Moved(board, map[]) == board;
  }

  // ----- As one flush -----

  /** The mutation that flushes what `moves` left pending. */
  function FlushMutation(b: BoardId, moves: seq<Move>, id: MutationId): Mutation {
    Mutation(id, b, MoveElements(MovesOf(PutAll([], Positions(moves))), false))
  }

  lemma PositionsOfMoves(pending: Pending)
    ensures Positions(MovesOf(pending)) == pending
  {
  }

  ghost predicate Moves(moves: seq<Move>, id: Id) {
    exists m | m in moves :: m.elementId == id
  }

  lemma MovedIds(moves: seq<Move>, id: Id)
    ensures id in ToMap(Positions(moves)) <==> Moves(moves, id)
  {
    ToMapKeys(Positions(moves));
    if Moves(moves, id) {
      var m :| m in moves && m.elementId == id;
      var i :| 0 <= i < |moves| && moves[i] == m;
      assert Positions(moves)[i].0 == id;
    }
    if id in Keys(Positions(moves)) {
      var i :| 0 <= i < |moves| && Positions(moves)[i].0 == id;
      assert moves[i] in moves;
    }
  }

  /** The coalesced move is blocked exactly when one of the queued moves is. */
  lemma FlushVerdict(board: Context, b: BoardId, moves: seq<Move>, id: MutationId)
    ensures IsBlocked(FlushMutation(b, moves, id).op, board) <==> exists m | m in moves :: MoveBlocked(board, m.elementId)
  {
    hide MoveBlocked, PutAll, Positions, MovesOf;
    var pending := PutAll([], Positions(moves));
    PutAllFromEmpty(Positions(moves));
    PositionsOfMoves(pending);
    forall k ensures Moves(moves, k) <==> Moves(MovesOf(pending), k) {
      MovedIds(moves, k);
      MovedIds(MovesOf(pending), k);
    }
    if m :| m in moves && MoveBlocked(board, m.elementId) {
      assert Moves(MovesOf(pending), m.elementId);
      var m' :| m' in MovesOf(pending) && m'.elementId == m.elementId;
    }
    if m :| m in MovesOf(pending) && MoveBlocked(board, m.elementId) {
      assert Moves(moves, m.elementId);
      var m' :| m' in moves && m'.elementId == m.elementId;
    }
  }

  /** The flush moves every element to its last queued position, or nothing at all if one queued move is blocked. */
  lemma FlushMeaning(r: RedisBoard, b: BoardId, moves: seq<Move>, id: MutationId, mode: Mode, now: Time)
    requires Keyed(r.elements) && id !in r.seen
    ensures var m := FlushMutation(b, moves, id);
      var out := ProcessFull(r, m, IsBlocked(m.op, r.elements), mode, now);
      Contents(out.redis.elements) ==
        if exists q | q in moves :: MoveBlocked(r.elements, q.elementId) then Contents(r.elements)
        else Contents(Moved(r.elements, ToMap(Positions(moves))))
  {
    hide ProcessFull, Contents, Moved, MoveBlocked, Keyed, IsBlocked, PutAll;
    var m := FlushMutation(b, moves, id);
    FlushVerdict(r.elements, b, moves, id);
    if IsBlocked(m.op, r.elements) {
      BlockedMutation(r, m, mode, now);
    } else {
      MoveMutation(r, m, m.op.moves, mode, now);
      PutAllFromEmpty(Positions(moves));
      PositionsOfMoves(PutAll([], Positions(moves)));
    }
  }

  lemma {:induction false} AllUnblocked(board: Context, moves: seq<Move>, n: nat)
    requires n <= |moves| && forall m | m in moves :: !MoveBlocked(board, m.elementId)
    ensures Unblocked(board, moves, n) == moves[..n]
  {
    hide MoveBlocked;
    if n > 0 {
      AllUnblocked(board, moves, n - 1);
      assert moves[n - 1] in moves;
      assert moves[..n] == moves[..n - 1] + [moves[n - 1]];
    }
  }

  /** Coalescing is exact: one flush has the effect of every queued move in arrival order, up to
      timestamps, if and only if no queued move is blocked or the unblocked ones move nothing. */
  lemma CoalescingIsExact(r: RedisBoard, b: BoardId, moves: seq<Move>, id: MutationId, uuid: nat -> MutationId,
                          mode: Mode, clock: nat -> Time, now: Time)
    requires Keyed(r.elements) && id !in r.seen && FreshIds(r, uuid)
    ensures var m := FlushMutation(b, moves, id);
      var out := ProcessFull(r, m, IsBlocked(m.op, r.elements), mode, now);
      var end := EachInOrder(r, b, moves, |moves|, uuid, mode, clock);
      Contents(out.redis.elements) == Contents(end.elements) <==>
        || (forall q | q in moves :: !MoveBlocked(r.elements, q.elementId))
        || Contents(Moved(r.elements, ToMap(Positions(Unblocked(r.elements, moves, |moves|))))) == Contents(r.elements)
  {
    hide ProcessFull, Contents, Moved, MoveBlocked, Keyed, IsBlocked, EachInOrder, Positions, ToMap;
    FlushMeaning(r, b, moves, id, mode, now);
    InOrderMeaning(r, b, moves, |moves|, uuid, mode, clock);
    if forall q | q in moves :: !MoveBlocked(r.elements, q.elementId) {
      AllUnblocked(r.elements, moves, |moves|);
      assert moves[..|moves|] == moves;
    }
  }
}
