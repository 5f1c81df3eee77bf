/** The flush of queued moves: take them, load the board, and submit them as one mutation. */
module MoveFlush {
  import opened Elements
  import opened BoardState
  import opened FlushProtocol
  import opened LockEnforcement
  import opened Processor
  import opened Batch
  import opened BoardService
  import opened Presence
  import opened MutationProcessor
  import opened MoveQueue
  import LoadEvict

  /** The keys of a board once it is loaded. */
  function WhenLoaded(r: RedisBoard, rows: Rows): RedisBoard {
    if r.loaded then r else LoadEvict.Installed(r, rows)
  }

  lemma WhenLoadedKeyed(r: RedisBoard, rows: Rows)
    requires Keyed(r.elements) && WellFormedTable(rows)
    ensures Keyed(WhenLoaded(r, rows).elements)
  {
    LoadEvict.DecodedKeyed(rows);
  }

  /** A batch of one mutation that touches elements gives the outcome of the full board. */
  lemma BatchOfOne(boards: Boards, m: Mutation, st: Setting)
    requires !m.op.CreateElement? && !m.op.DeleteElements?
    ensures var r := At(boards, m.boardId);
      var out := ProcessFull(r, m, IsBlocked(m.op, r.elements), st.modes(m.boardId), st.clock(0));
      && OneByOne(boards, [m], 1, st) == InOrder(boards[m.boardId := out.redis], [out.result])
      && ChangedBy(boards, [m], m.boardId, 1, st) == out.applied
  {
    hide IsBlocked, Process, LoadedContext;
    SingleVerdictIsFull(boards, m, st);
    CachedAtIsFull(At(boards, m.boardId), [m], 0, st);
    assert OneByOne(boards, [m], 0, st) == InOrder(boards, []);
  }

  /** Where a lone outcome leaves the keys of a board, persisted if the board is solo. */
  function KeysAfter(incremental: bool, out: Outcome, mode: Mode, standing: Standing): RedisBoard {
    if mode.Solo? && out.applied then PersistedRedis(incremental, out.redis, standing) else out.redis
  }

  function TableAfter(incremental: bool, out: Outcome, rows: Rows, mode: Mode, standing: Standing, now: Time): Rows {
    if mode.Solo? && out.applied then PersistedRows(incremental, out.redis, rows, standing, now) else rows
  }

  lemma EndOfOne(incremental: bool, boards: Boards, tables: Tables, m: Mutation, st: Setting, now: Time)
    requires !m.op.CreateElement? && !m.op.DeleteElements?
    ensures var b, r, mode := m.boardId, At(boards, m.boardId), st.modes(m.boardId);
      var out := ProcessFull(r, m, IsBlocked(m.op, r.elements), mode, st.clock(0));
      && FinalRedis(incremental, boards, [m], b, st) == KeysAfter(incremental, out, mode, st.standing(b))
      && FinalTable(incremental, boards, tables, [m], b, st, now)
         == TableAfter(incremental, out, TableAt(tables, b), mode, st.standing(b), now)
    ensures forall a | a != m.boardId ::
      FinalRedis(incremental, boards, [m], a, st) == At(boards, a)
      && FinalTable(incremental, boards, tables, [m], a, st, now) == TableAt(tables, a)
  {
    BatchOfOne(boards, m, st);
    forall a | a != m.boardId
      ensures FinalRedis(incremental, boards, [m], a, st) == At(boards, a)
      ensures FinalTable(incremental, boards, tables, [m], a, st, now) == TableAt(tables, a)
    {
      UntouchedBoard(incremental, boards, tables, [m], a, st, now);
    }
    hide ProcessFull, IsBlocked, OneByOne, ChangedBy, PersistedRedis, PersistedRows;
  }

  /** One mutation that touches elements, as a batch: the outcome of the full board. */
  method Submit(service: BoardStateService, rooms: Rooms, m: Mutation, standing: BoardId -> Standing,
                probeAt: BoardId -> Time, rearmAt: BoardId -> Time, now: Time)
    returns (result: Result)
    requires !m.op.CreateElement? && !m.op.DeleteElements?
    requires AllKeyed(service.boards) && Apart(rooms) && m.boardId in rooms
    modifies service, rooms.Values
    ensures var b, r, mode := m.boardId, At(old(service.boards), m.boardId), ModesOf(old(PresenceOf(rooms)), probeAt)(m.boardId);
      var out := ProcessFull(r, m, IsBlocked(m.op, r.elements), mode, now);
      && result == out.result
      && At(service.boards, b) == KeysAfter(service.incremental, out, mode, standing(b))
      && TableAt(service.tables, b)
         == TableAfter(service.incremental, out, TableAt(old(service.tables), b), mode, standing(b), now)
    ensures forall a | a != m.boardId ::
      At(service.boards, a) == At(old(service.boards), a) && TableAt(service.tables, a) == TableAt(old(service.tables), a)
  {
    hide ProcessFull, IsBlocked, OneByOne, ChangedBy, KeysAfter, TableAfter, FinalRedis, FinalTable, RoomsAfter, AllKeyed,
      VerdictAt, EvictedBoards;
    ghost var boards, tables, st := service.boards, service.tables, Setting(ModesOf(PresenceOf(rooms), probeAt), i => now, standing);
    BatchOfOne(boards, m, st);
    EndOfOne(service.incremental, boards, tables, m, st, now);
    var results := ProcessBatch(service, rooms, [m], i => now, standing, probeAt, rearmAt, now);
    assert results[0] == Some(OneByOne(boards, [m], 1, st).results[0]);
    result := results[0].value;
  }

  /** Failing to load the board, the flush loses the moves it took; else they become one mutation, with the
      outcome of the full board, persisted if the board is solo. */
  method FlushMoves(service: BoardStateService, queue: MoveRoom, rooms: Rooms, b: BoardId, loads: bool, id: MutationId,
                    standing: BoardId -> Standing, probeAt: BoardId -> Time, rearmAt: BoardId -> Time, now: Time)
    returns (result: Option<Result>)
    requires AllKeyed(service.boards) && WellFormedTable(TableAt(service.tables, b)) && Apart(rooms) && b in rooms
    modifies service, queue, rooms.Values
    ensures queue.AsRoom() == MoveQueue.Flushed(old(queue.AsRoom()))
    ensures result.Some? <==> old(queue.pending) != [] && loads
    ensures result.None? ==> service.boards == old(service.boards) && service.tables == old(service.tables)
    ensures result.Some? ==>
      var rows := TableAt(old(service.tables), b);
      var r, mode := WhenLoaded(At(old(service.boards), b), rows), ModesOf(old(PresenceOf(rooms)), probeAt)(b);
      var m := Mutation(id, b, MoveElements(MovesOf(old(queue.pending)), false));
      var out := ProcessFull(r, m, IsBlocked(m.op, r.elements), mode, now);
      && result.value == out.result
      && At(service.boards, b) == KeysAfter(service.incremental, out, mode, standing(b))
      && TableAt(service.tables, b) == TableAfter(service.incremental, out, rows, mode, standing(b), now)
    ensures forall a | a != b ::
      At(service.boards, a) == At(old(service.boards), a) && TableAt(service.tables, a) == TableAt(old(service.tables), a)
  {
    hide ProcessFull, IsBlocked, KeysAfter, TableAfter, WhenLoaded, Keyed;
    var moves := queue.Flush();
    if moves == [] || !loads {
      return None;
    }
    ghost var boards := service.boards;
    WhenLoadedKeyed(At(boards, b), TableAt(service.tables, b));
    service.boards := service.boards[b := WhenLoaded(At(service.boards, b), TableAt(service.tables, b))];
    assert forall a | a != b :: At(service.boards, a) == At(boards, a);
    var one := Submit(service, rooms, Mutation(id, b, MoveElements(moves, false)), standing, probeAt, rearmAt, now);
    result := Some(one);
  }
}
