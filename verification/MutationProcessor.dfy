/** The methods of the mutation processor, proved against the batch semantics. */
module MutationProcessor {
  import opened Elements
  import opened OrderedMap
  import opened Cascade
  import opened BoardState
  import opened BoardService
  import opened FlushProtocol
  import opened LockEnforcement
  import opened Processor
  import opened Batch
  import opened Presence

  // ----- Building the context -----

  method CollectTouchedElementIds(ops: seq<Operation>) returns (ids: set<Id>)
    ensures ids == TouchedByAll(ops)
  {
    ids := {};
    for i := 0 to |ops|
      invariant ids == TouchedByAll(ops[..i])
    {
      CollectSnoc(ops[..i], ops[i]);
      assert ops[..i + 1] == ops[..i] + [ops[i]];
      match ops[i] {
        case UpdateElement(id, _) => ids := ids + {id};
        case ReorderElement(id, _) => ids := ids + {id};
        case MoveElements(moves, _) => ids := ids + set m | m in moves :: m.elementId;
        case UpdateElements(updates) => ids := ids + set u | u in updates :: u.elementId;
        case ReconcileMonthRange(metaId, _, deletes) => ids := ids + {metaId} + SetOf(deletes);
        case _ =>
      }
    }
    assert ops[..|ops|] == ops;
  }

  method CollectReferencedMetaIds(ops: seq<Operation>) returns (ids: set<Id>)
    ensures ids == ReferencedByAll(ops)
  {
    ids := {};
    for i := 0 to |ops|
      invariant ids == ReferencedByAll(ops[..i])
    {
      CollectSnoc(ops[..i], ops[i]);
      assert ops[..i + 1] == ops[..i] + [ops[i]];
      ids := ids + ReferencedMetaIds(ops[i]);
    }
    assert ops[..|ops|] == ops;
  }

  lemma CollectSnoc(ops: seq<Operation>, op: Operation)
    ensures TouchedByAll(ops + [op]) == TouchedByAll(ops) + TouchedIds(op)
    ensures ReferencedByAll(ops + [op]) == ReferencedByAll(ops) + ReferencedMetaIds(op)
  {
    assert forall o :: o in ops + [op] <==> o in ops || o == op;
  }

  lemma FetchedParents(board: Context, ids: set<Id>)
    ensures ParentsIn(map k | k in board && k in ids :: board[k], ids) == ParentsIn(board, ids)
  {
    var context := map k | k in board && k in ids :: board[k];
    forall p | p in ParentsIn(board, ids) ensures p in ParentsIn(context, ids) {
      var k :| k in ids && k in board && p in LockParents(board[k]);
      assert context[k] == board[k];
    }
    forall p | p in ParentsIn(context, ids) ensures p in ParentsIn(board, ids) {
      var k :| k in ids && k in context && p in LockParents(context[k]);
      assert context[k] == board[k];
    }
  }

  /** Two targeted reads: the touched elements, then the parents that are still missing. */
  method CreateCachedBoardContext(board: Context, ops: seq<Operation>) returns (context: Context)
    ensures context == LoadedContext(board, ops)
  {
    hide TouchedByAll, ReferencedByAll, ParentsIn;
    var touched := CollectTouchedElementIds(ops);
    if touched == {} {
      return map[];
    }
    context := map k | k in board && k in touched :: board[k];
    var referenced := CollectReferencedMetaIds(ops);
    var parentIds := ParentsIn(context, touched) + referenced;
    FetchedParents(board, touched);
    var missing := parentIds - context.Keys;
    var parents := map k | k in board && k in missing :: board[k];
    TwoReads(board, touched, parentIds);
    context := context + parents;
  }

  lemma TwoReads(board: Context, first: set<Id>, more: set<Id>)
    ensures var context := map k | k in board && k in first :: board[k];
      context + (map k | k in board && k in more - context.Keys :: board[k])
        == map k | k in board && k in first + more :: board[k]
  {
  }

  method ApplyPersistedChangeToContext(context: Context, result: Result) returns (after: Context)
    ensures after == ContextAfter(context, result)
  {
    after := context;
    if result.change.None? {
      return;
    }
    var c := result.change.value;
    for i := 0 to |c.upserts|
      invariant after == HSetAll(context, c.upserts[..i])
    {
      assert ById(c.upserts[..i + 1])[..i] == ById(c.upserts[..i]);
      after := after[IdOf(c.upserts[i]) := c.upserts[i]];
    }
    assert c.upserts[..|c.upserts|] == c.upserts;
    after := after - c.deletes;
  }

  // ----- Processing -----

  ghost predicate AllKeyed(boards: Boards) {
    forall b :: Keyed(At(boards, b).elements)
  }

  method RejectsReconcile(op: Operation, context: Context) returns (rejected: bool)
    ensures rejected == Rejected(op, context)
  {
    rejected := false;
    if op.ReconcileMonthRange? {
      var error := ValidateReconcileMonthRange(op.metaId, op.upserts, op.deletes, context);
      rejected := error.Some?;
    }
  }

  method ProcessMutationWithContext(service: BoardStateService, m: Mutation, context: Context, mode: Mode, now: Time)
    returns (result: Result, applied: bool)
    modifies service`boards
    ensures var out := Process(At(old(service.boards), m.boardId), m, context, IsBlocked(m.op, context), mode, now);
      result == out.result && applied == out.applied && At(service.boards, m.boardId) == out.redis
    ensures forall b | b != m.boardId :: At(service.boards, b) == At(old(service.boards), b)
  {
    if m.op.MoveElements? && m.op.transient {
      return Result(m.mutationId, BroadcastOnly, Some(now), None, None), false;
    }
    var claimed := service.TryMarkSeen(m.boardId, m.mutationId);
    if !claimed {
      return Result(m.mutationId, AlreadyApplied, None, None, None), false;
    }
    var rejected := RejectsReconcile(m.op, context);
    if IsBlocked(m.op, context) || rejected {
      return Result(m.mutationId, Applied, Some(now), Some(At(service.boards, m.boardId).sequence), None), false;
    }
    var (upserts, deletes) := ToChangeSet(context, m.op);
    var change := service.ApplyChangeSet(m.boardId, upserts, deletes, mode.Collab?, now);
    if change.None? {
      return Result(m.mutationId, Applied, Some(now), Some(At(service.boards, m.boardId).sequence), None), false;
    }
    return Result(m.mutationId, Applied, Some(now), Some(change.value.sequence), change), true;
  }

  /** The verdict of a lone mutation: the full board's, but creates and deletes are never blocked. */
  ghost predicate LoneVerdict(op: Operation, board: Context) {
    !op.CreateElement? && !op.DeleteElements? && IsBlocked(op, board)
  }

  lemma LoneMutationIsFull(r: RedisBoard, m: Mutation, mode: Mode, now: Time)
    ensures var context := LoadedContext(r.elements, [m.op]);
      Process(r, m, context, IsBlocked(m.op, context), mode, now) == ProcessFull(r, m, LoneVerdict(m.op, r.elements), mode, now)
  {
    hide AppliedChangeSet;
    var context := LoadedContext(r.elements, [m.op]);
    LoadedContextIsOk(r.elements, [m.op]);
    SingleOperation(m.op);
    CachedStepIsFullStep(r, m, context, TouchedIds(m.op), IsBlocked(m.op, context), mode, now);
    if m.op.CreateElement? || m.op.DeleteElements? {
      CreateOrDeleteAloneIsNeverBlocked(r.elements, m.op);
    } else {
      TargetedVerdictIsFull(r.elements, m.op);
    }
  }

  /** The presence keys after work that began with a probe and ended with a re-arm; nothing is left if the board
      was evicted on the way. */
  function AfterWork(p: Presence, probeAt: Time, rearmAt: Time, evicted: bool): Presence {
    var (q, mode) := Probed(p, probeAt);
    if evicted then NO_PRESENCE
    else if mode.Collab? then Extended(q, rearmAt) else Rearmed(q, rearmAt)
  }

  method RearmAfterWork(room: BoardPresence, mode: Mode, now: Time)
    modifies room
    ensures room.Keys() == if mode.Collab? then Extended(old(room.Keys()), now) else Rearmed(old(room.Keys()), now)
  {
    if mode.Collab? {
      room.ExtendCollabMode(now);
    } else {
      room.RearmCollabModeIfActive(now);
    }
  }

  /** An evicted board has no presence, and its re-arm finds nobody. */
  lemma NothingToRearm(now: Time)
    ensures Rearmed(NO_PRESENCE, now) == NO_PRESENCE
  {
    assert Counted(NO_PRESENCE, now) == NO_PRESENCE;
  }

  /** A lone mutation: probe the mode, the outcome of the full board, re-arm, then persist if the board is solo
      and changed. */
  method ProcessMutation(service: BoardStateService, room: BoardPresence, m: Mutation, standing: Standing,
                         probeAt: Time, rearmAt: Time, now: Time)
    returns (result: Result)
    requires Keyed(At(service.boards, m.boardId).elements)
    modifies service, room
    ensures var r, mode := At(old(service.boards), m.boardId), Probed(old(room.Keys()), probeAt).1;
      var out := ProcessFull(r, m, LoneVerdict(m.op, r.elements), mode, now);
      var persisted := mode.Solo? && out.applied;
      && result == out.result
      && At(service.boards, m.boardId) ==
           (if persisted then PersistedRedis(service.incremental, out.redis, standing) else out.redis)
      && TableAt(service.tables, m.boardId) ==
           (if persisted then PersistedRows(service.incremental, out.redis, TableAt(old(service.tables), m.boardId), standing, now)
            else TableAt(old(service.tables), m.boardId))
      && room.Keys() == AfterWork(old(room.Keys()), probeAt, rearmAt, persisted && Evicts(service.incremental, out.redis, standing))
    ensures forall b | b != m.boardId ::
      At(service.boards, b) == At(old(service.boards), b) && TableAt(service.tables, b) == TableAt(old(service.tables), b)
  {
    hide Process, PersistedRedis, PersistedRows, IsBlocked, Probed, Rearmed, Evicts;
    ghost var r := At(service.boards, m.boardId);
    var context := CreateCachedBoardContext(At(service.boards, m.boardId).elements, [m.op]);
    var mode := room.GetSyncWriteMode(probeAt);
    LoneMutationIsFull(r, m, mode, now);
    ProcessKeepsKeyed(r, m, context, IsBlocked(m.op, context), mode, now);
    var applied;
    result, applied := ProcessMutationWithContext(service, m, context, mode, now);
    context := ApplyPersistedChangeToContext(context, result);
    RearmAfterWork(room, mode, rearmAt);
    if mode.Solo? && applied {
      var evicted := service.PersistBoard(m.boardId, standing, now);
      if evicted {
        room.Evict();
      }
    }
  }

  // ----- A batch -----

  /** Whether one of the first `n` mutations of the batch changed board `b`. */
  ghost predicate ChangedBy(boards: Boards, batch: seq<Mutation>, b: BoardId, n: nat, st: Setting)
    requires n <= |batch|
  {
    exists i | 0 <= i < n :: batch[i].boardId == b && ResultAt(boards, batch, i, st).applied
  }

  lemma {:induction false} CachedSkips(r: RedisBoard, batch: seq<Mutation>, b: BoardId, i: nat, k: nat, st: Setting)
    requires i <= k <= |batch| && forall j | i <= j < k :: batch[j].boardId != b
    ensures CachedAt(r, batch, b, k, st) == CachedAt(r, batch, b, i, st)
    decreases k
  {
    if i < k {
      CachedSkips(r, batch, b, i, k - 1, st);
    }
  }

  lemma {:induction false} CachedKeepsKeyed(r: RedisBoard, batch: seq<Mutation>, b: BoardId, i: nat, st: Setting)
    requires i <= |batch| && Keyed(r.elements)
    ensures Keyed(CachedAt(r, batch, b, i, st).0.elements)
  {
    if i > 0 {
      CachedKeepsKeyed(r, batch, b, i - 1, st);
      var (before, context) := CachedAt(r, batch, b, i - 1, st);
      ProcessKeepsKeyed(before, batch[i - 1], context, IsBlocked(batch[i - 1].op, context), st.modes(b), st.clock(i - 1));
    }
  }

  lemma ProcessKeepsKeyed(r: RedisBoard, m: Mutation, context: Context, blocked: bool, mode: Mode, now: Time)
    requires Keyed(r.elements)
    ensures Keyed(Process(r, m, context, blocked, mode, now).redis.elements)
  {
    var (upserts, deletes) := ToChangeSet(context, m.op);
    ApplyChangeSetMeaning(r.(seen := r.seen + {m.mutationId}), upserts, deletes, mode.Collab?, now);
  }

  /** How far the loop over one board has come: everything before index `reached` is done. */
  ghost predicate Reached(boards: Boards, batch: seq<Mutation>, b: BoardId, reached: nat, st: Setting,
                          now: RedisBoard, context: Context, changed: bool)
  {
    && reached <= |batch|
    && CachedAt(At(boards, b), batch, b, reached, st) == (now, context)
    && changed == ChangedBy(boards, batch, b, reached, st)
  }

  lemma ReachNext(boards: Boards, batch: seq<Mutation>, b: BoardId, reached: nat, i: nat, st: Setting,
                  now: RedisBoard, context: Context, changed: bool)
    requires Reached(boards, batch, b, reached, st, now, context, changed)
    requires reached <= i <= |batch| && forall j | reached <= j < i :: batch[j].boardId != b
    ensures Reached(boards, batch, b, i, st, now, context, changed)
  {
    CachedSkips(At(boards, b), batch, b, reached, i, st);
  }

  lemma ReachPast(boards: Boards, batch: seq<Mutation>, b: BoardId, i: nat, st: Setting,
                  now: RedisBoard, context: Context, changed: bool, out: Outcome)
    requires Reached(boards, batch, b, i, st, now, context, changed)
    requires i < |batch| && batch[i].boardId == b
    requires out == Process(now, batch[i], context, IsBlocked(batch[i].op, context), st.modes(b), st.clock(i))
    ensures out == ResultAt(boards, batch, i, st)
    ensures Reached(boards, batch, b, i + 1, st, out.redis, ContextAfter(context, out.result), changed || out.applied)
  {
    hide Process, ContextAfter, IsBlocked, LoadedContext;
    assert CachedAt(At(boards, b), batch, b, i + 1, st) == (out.redis, ContextAfter(context, out.result));
    assert ResultAt(boards, batch, i, st) == out;
  }

  /** The answers given so far to the mutations of board `b`. */
  ghost predicate Answered(boards: Boards, batch: seq<Mutation>, b: BoardId, n: nat, st: Setting,
                           results: seq<Option<Result>>, before: seq<Option<Result>>)
  {
    && |results| == |before| == |batch|
    && forall i | 0 <= i < |batch| ::
         results[i] == (if i < n && batch[i].boardId == b then Some(ResultAt(boards, batch, i, st).result) else before[i])
  }

  lemma ReachStart(boards: Boards, batch: seq<Mutation>, b: BoardId, st: Setting)
    ensures Reached(boards, batch, b, 0, st, At(boards, b), LoadedContext(At(boards, b).elements, OpsOn(batch, b)), false)
  {
  }

  lemma NoneAnswered(boards: Boards, batch: seq<Mutation>, b: BoardId, st: Setting, before: seq<Option<Result>>)
    requires |before| == |batch|
    ensures Answered(boards, batch, b, 0, st, before, before)
  {
  }

  lemma AnsweredPast(boards: Boards, batch: seq<Mutation>, b: BoardId, from: nat, i: nat, st: Setting,
                     results: seq<Option<Result>>, before: seq<Option<Result>>)
    requires Answered(boards, batch, b, from, st, results, before)
    requires from <= i < |batch| && batch[i].boardId == b && forall j | from <= j < i :: batch[j].boardId != b
    ensures Answered(boards, batch, b, i + 1, st, results[i := Some(ResultAt(boards, batch, i, st).result)], before)
  {
    hide Process, CachedAt;
  }

  lemma AnsweredToEnd(boards: Boards, batch: seq<Mutation>, b: BoardId, from: nat, st: Setting,
                     results: seq<Option<Result>>, before: seq<Option<Result>>)
    requires Answered(boards, batch, b, from, st, results, before)
    requires forall j | from <= j < |batch| :: batch[j].boardId != b
    ensures Answered(boards, batch, b, |batch|, st, results, before)
  {
    hide Process, CachedAt;
  }

  ghost predicate SameElsewhere(boards: Boards, other: Boards, b: BoardId) {
    forall b' | b' != b :: At(other, b') == At(boards, b')
  }

  /** The loop over the mutations of one board, under its lock. */
  method RunBoard(service: BoardStateService, batch: seq<Mutation>, b: BoardId, indices: seq<nat>, mode: Mode, clock: nat -> Time,
                  ghost st: Setting, before: seq<Option<Result>>)
    returns (results: seq<Option<Result>>, changed: bool)
    requires indices == IndicesOn(batch, b, |batch|) && |before| == |batch|
    requires mode == st.modes(b) && clock == st.clock
    modifies service`boards
    ensures At(service.boards, b) == CachedAt(At(old(service.boards), b), batch, b, |batch|, st).0
    ensures SameElsewhere(old(service.boards), service.boards, b)
    ensures changed == ChangedBy(old(service.boards), batch, b, |batch|, st)
    ensures Answered(old(service.boards), batch, b, |batch|, st, results, before)
  {
    hide Process, CachedAt, ResultAt, ContextAfter, LoadedContext, IsBlocked, ChangedBy, Answered;
    IndicesExact(batch, b, |batch|);
    ghost var boards0 := service.boards;
    results, changed := before, false;
    assert forall i | i in indices :: i < |batch|;
    var context := CreateCachedBoardContext(At(service.boards, b).elements, OpsAt(batch, indices));
    NoneAnswered(boards0, batch, b, st, before);
    ReachStart(boards0, batch, b, st);
    ghost var reached := 0;
    for k := 0 to |indices|
      invariant reached == if k == 0 then 0 else indices[k - 1] + 1
      invariant Reached(boards0, batch, b, reached, st, At(service.boards, b), context, changed)
      invariant SameElsewhere(boards0, service.boards, b)
      invariant Answered(boards0, batch, b, reached, st, results, before)
    {
      var i := indices[k];
      assert i in indices;
      NoIndexBetween(batch, b, indices, k, reached, i);
      var applied;
      results, context, applied := RunOne(service, boards0, batch, b, reached, i, mode, clock(i), st, context, changed, results, before);
      changed := changed || applied;
      reached := i + 1;
    }
    NoIndexBetween(batch, b, indices, |indices|, reached, |batch|);
    ReachNext(boards0, batch, b, reached, |batch|, st, At(service.boards, b), context, changed);
    AnsweredToEnd(boards0, batch, b, reached, st, results, before);
  }

  /** The loop body: process one mutation, refresh the cache, record the answer. */
  method RunOne(service: BoardStateService, ghost boards: Boards, batch: seq<Mutation>, b: BoardId, ghost reached: nat, i: nat,
                mode: Mode, now: Time, ghost st: Setting, context0: Context, ghost changed: bool, results0: seq<Option<Result>>,
                ghost before: seq<Option<Result>>)
    returns (results: seq<Option<Result>>, context: Context, applied: bool)
    requires reached <= i < |batch| && batch[i].boardId == b && forall j | reached <= j < i :: batch[j].boardId != b
    requires mode == st.modes(b) && now == st.clock(i)
    requires Reached(boards, batch, b, reached, st, At(service.boards, b), context0, changed)
    requires SameElsewhere(boards, service.boards, b) && Answered(boards, batch, b, reached, st, results0, before)
    modifies service`boards
    ensures Reached(boards, batch, b, i + 1, st, At(service.boards, b), context, changed || applied)
    ensures SameElsewhere(boards, service.boards, b)
    ensures Answered(boards, batch, b, i + 1, st, results, before)
  {
    hide Process, CachedAt, ResultAt, ContextAfter, IsBlocked;
    ReachNext(boards, batch, b, reached, i, st, At(service.boards, b), context0, changed);
    AnsweredPast(boards, batch, b, reached, i, st, results0, before);
    ghost var out := Process(At(service.boards, b), batch[i], context0, IsBlocked(batch[i].op, context0), st.modes(b), st.clock(i));
    ReachPast(boards, batch, b, i, st, At(service.boards, b), context0, changed, out);
    hide Reached, Answered;
    var result;
    result, applied := ProcessMutationWithContext(service, batch[i], context0, mode, now);
    context := ApplyPersistedChangeToContext(context0, result);
    results := results0[i := Some(result)];
  }

  lemma NoIndexBetween(batch: seq<Mutation>, b: BoardId, indices: seq<nat>, k: nat, from: nat, to: nat)
    requires indices == IndicesOn(batch, b, |batch|) && k <= |indices|
    requires from == (if k == 0 then 0 else indices[k - 1] + 1) && to == (if k == |indices| then |batch| else indices[k])
    ensures from <= to <= |batch| && forall j | from <= j < to :: batch[j].boardId != b
  {
    IndicesExact(batch, b, |batch|);
    assert forall x | 0 <= x < |indices| :: indices[x] in indices;
    assert forall x | 0 <= x < |indices| :: if x < k then indices[x] < from else to <= indices[x];
    assert forall j | from <= j < to :: j !in indices;
  }

  // ----- Grouping -----

  function BoardsOf(batch: seq<Mutation>): set<BoardId> {
    set m | m in batch :: m.boardId
  }

  function Groups(batch: seq<Mutation>, n: nat): map<BoardId, seq<nat>>
    requires n <= |batch|
  {
    map b | b in BoardsOf(batch[..n]) :: IndicesOn(batch, b, n)
  }

  lemma GroupsStep(batch: seq<Mutation>, n: nat)
    requires n < |batch|
    ensures var b := batch[n].boardId;
      Groups(batch, n + 1) == Groups(batch, n)[b := (if b in Groups(batch, n) then Groups(batch, n)[b] else []) + [n]]
  {
    var b := batch[n].boardId;
    BoardsSnoc(batch, n);
    if b !in BoardsOf(batch[..n]) {
      NoIndices(batch, b, n);
    }
    var before, after := Groups(batch, n), Groups(batch, n + 1);
    forall b' ensures (b' in after <==> b' == b || b' in before) && (b' in before && b' != b ==> after[b'] == before[b']) {}
    assert after[b] == (if b in before then before[b] else []) + [n];
  }

  lemma BoardsSnoc(batch: seq<Mutation>, i: nat)
    requires i < |batch|
    ensures BoardsOf(batch[..i + 1]) == BoardsOf(batch[..i]) + {batch[i].boardId}
  {
    assert batch[..i + 1] == batch[..i] + [batch[i]];
    assert forall m :: m in batch[..i + 1] <==> m in batch[..i] || m == batch[i];
  }

  lemma {:induction false} NoIndices(batch: seq<Mutation>, b: BoardId, n: nat)
    requires n <= |batch| && b !in BoardsOf(batch[..n])
    ensures IndicesOn(batch, b, n) == []
  {
    if n > 0 {
      BoardsSnoc(batch, n - 1);
      NoIndices(batch, b, n - 1);
    }
  }

  function Group(byBoard: Entries<BoardId, seq<nat>>, b: BoardId): seq<nat> {
    if b in ToMap(byBoard) then ToMap(byBoard)[b] else []
  }

  lemma GroupOneMore(byBoard: Entries<BoardId, seq<nat>>, batch: seq<Mutation>, i: nat)
    requires i < |batch| && Distinct(byBoard) && ToMap(byBoard) == Groups(batch, i)
    ensures var b := batch[i].boardId; var grown := Put<BoardId, seq<nat>>(byBoard, b, Group(byBoard, b) + [i]);
      && Distinct(grown) && ToMap(grown) == Groups(batch, i + 1)
  {
    var b := batch[i].boardId;
    PutIsUpdate<BoardId, seq<nat>>(byBoard, b, Group(byBoard, b) + [i]);
    GroupsStep(batch, i);
  }

  method GroupByBoard(batch: seq<Mutation>) returns (byBoard: Entries<BoardId, seq<nat>>)
    ensures Distinct(byBoard) && ToMap(byBoard) == Groups(batch, |batch|)
  {
    byBoard := [];
    for i := 0 to |batch|
      invariant Distinct(byBoard) && ToMap(byBoard) == Groups(batch, i)
    {
      GroupOneMore(byBoard, batch, i);
      var boardMutations: seq<nat> := Group(byBoard, batch[i].boardId) + [i];
      byBoard := Put<BoardId, seq<nat>>(byBoard, batch[i].boardId, boardMutations);
    }
  }

  // ----- The whole batch -----

  /** A solo board that changed is flushed at the end of its part of the batch. */
  ghost predicate Flushes(boards: Boards, batch: seq<Mutation>, b: BoardId, st: Setting) {
    st.modes(b).Solo? && ChangedBy(boards, batch, b, |batch|, st)
  }

  /** A persist at the end of its part of the batch evicts a board that is gone from Postgres. */
  ghost predicate EvictedBy(incremental: bool, boards: Boards, batch: seq<Mutation>, b: BoardId, st: Setting) {
    Flushes(boards, batch, b, st) && Evicts(incremental, At(OneByOne(boards, batch, |batch|, st).boards, b), st.standing(b))
  }

  /** Where the batch leaves a board: where the one-by-one run has it, flushed if due. */
  ghost function FinalRedis(incremental: bool, boards: Boards, batch: seq<Mutation>, b: BoardId, st: Setting): RedisBoard {
    var r := At(OneByOne(boards, batch, |batch|, st).boards, b);
    if Flushes(boards, batch, b, st) then PersistedRedis(incremental, r, st.standing(b)) else r
  }

  ghost function FinalTable(incremental: bool, boards: Boards, tables: Tables, batch: seq<Mutation>, b: BoardId,
                            st: Setting, now: Time): Rows
  {
    var r := At(OneByOne(boards, batch, |batch|, st).boards, b);
    if Flushes(boards, batch, b, st) then PersistedRows(incremental, r, TableAt(tables, b), st.standing(b), now) else TableAt(tables, b)
  }

  lemma UntouchedBoard(incremental: bool, boards: Boards, tables: Tables, batch: seq<Mutation>, b: BoardId, st: Setting, now: Time)
    requires b !in BoardsOf(batch)
    ensures FinalRedis(incremental, boards, batch, b, st) == At(boards, b)
    ensures FinalTable(incremental, boards, tables, batch, b, st, now) == TableAt(tables, b)
  {
    assert forall i | 0 <= i < |batch| :: batch[i] in batch && batch[i].boardId != b;
    CachedSkips(At(boards, b), batch, b, 0, |batch|, st);
    CachedIsOneByOne(boards, batch, |batch|, st, b);
  }

  /** What a batch does to a board depends on that board only. */
  lemma OneBoardOnly(boards: Boards, other: Boards, batch: seq<Mutation>, b: BoardId, st: Setting)
    requires At(boards, b) == At(other, b)
    ensures forall i | 0 <= i < |batch| && batch[i].boardId == b :: ResultAt(boards, batch, i, st) == ResultAt(other, batch, i, st)
    ensures ChangedBy(boards, batch, b, |batch|, st) == ChangedBy(other, batch, b, |batch|, st)
  {
    forall i | 0 <= i < |batch| && batch[i].boardId == b ensures ResultAt(boards, batch, i, st) == ResultAt(other, batch, i, st) {}
  }

  /** Which boards the batch has finished with. */
  ghost predicate Progress(incremental: bool, nowBoards: Boards, nowTables: Tables, boards: Boards, tables: Tables,
                           batch: seq<Mutation>, st: Setting, now: Time, finished: set<BoardId>, results: seq<Option<Result>>)
  {
    && (forall b | b in finished :: At(nowBoards, b) == FinalRedis(incremental, boards, batch, b, st))
    && (forall b | b in finished :: TableAt(nowTables, b) == FinalTable(incremental, boards, tables, batch, b, st, now))
    && (forall b | b !in finished :: At(nowBoards, b) == At(boards, b) && TableAt(nowTables, b) == TableAt(tables, b))
    && |results| == |batch|
    && (forall i | 0 <= i < |batch| :: batch[i].boardId in finished ==> results[i] == Some(ResultAt(boards, batch, i, st).result))
  }

  lemma AnsweredAlike(boards: Boards, other: Boards, batch: seq<Mutation>, b: BoardId, st: Setting,
                      results: seq<Option<Result>>, before: seq<Option<Result>>)
    requires At(boards, b) == At(other, b) && Answered(other, batch, b, |batch|, st, results, before)
    ensures Answered(boards, batch, b, |batch|, st, results, before)
  {
    OneBoardOnly(boards, other, batch, b, st);
  }

  /** Where the run over one board has come, seen from the start of the batch. */
  lemma RunIsOneByOne(boards: Boards, boards1: Boards, now: RedisBoard, batch: seq<Mutation>, b: BoardId, st: Setting,
                      results: seq<Option<Result>>, before: seq<Option<Result>>)
    requires AllKeyed(boards) && At(boards1, b) == At(boards, b)
    requires now == CachedAt(At(boards1, b), batch, b, |batch|, st).0
    requires Answered(boards1, batch, b, |batch|, st, results, before)
    ensures now == At(OneByOne(boards, batch, |batch|, st).boards, b) && Keyed(now.elements)
    ensures ChangedBy(boards1, batch, b, |batch|, st) == ChangedBy(boards, batch, b, |batch|, st)
    ensures Answered(boards, batch, b, |batch|, st, results, before)
  {
    hide CachedAt, OneByOne, Answered, ChangedBy, Keyed;
    OneBoardOnly(boards, boards1, batch, b, st);
    AnsweredAlike(boards, boards1, batch, b, st, results, before);
    CachedIsOneByOne(boards, batch, |batch|, st, b);
    KeyedAt(boards, b);
    CachedKeepsKeyed(At(boards, b), batch, b, |batch|, st);
  }

  lemma KeyedAt(boards: Boards, b: BoardId)
    requires AllKeyed(boards)
    ensures Keyed(At(boards, b).elements)
  {
  }

  /** One board of the batch: run its mutations, then persist it if it is solo and changed. */
  method FinishBoard(service: BoardStateService, ghost boards: Boards, ghost tables: Tables, batch: seq<Mutation>, b: BoardId,
                     indices: seq<nat>, mode: Mode, clock: nat -> Time, standing: Standing, ghost st: Setting, now: Time,
                     ghost finished: set<BoardId>, before: seq<Option<Result>>)
    returns (results: seq<Option<Result>>, evicted: bool)
    requires mode == st.modes(b) && clock == st.clock && standing == st.standing(b)
    requires AllKeyed(boards) && b !in finished && indices == IndicesOn(batch, b, |batch|)
    requires Progress(service.incremental, service.boards, service.tables, boards, tables, batch, st, now, finished, before)
    modifies service
    ensures Progress(service.incremental, service.boards, service.tables, boards, tables, batch, st, now, finished + {b}, results)
    ensures evicted == EvictedBy(service.incremental, boards, batch, b, st) && (evicted ==> mode.Solo?)
  {
    hide PersistedRedis, PersistedRows, Evicts, CachedAt, OneByOne, ResultAt, Progress, Answered, ChangedBy, AllKeyed, IndicesOn, Keyed;
    ghost var boards1, tables1 := service.boards, service.tables;
    ProgressHead(service.incremental, boards1, tables1, boards, tables, batch, st, now, finished, before, b);
    var changed;
    results, changed := RunBoard(service, batch, b, indices, mode, clock, st, before);
    RunIsOneByOne(boards, boards1, At(service.boards, b), batch, b, st, results, before);
    evicted := false;
    if mode.Solo? && changed {
      evicted := service.PersistBoard(b, standing, now);
    }
    ProgressStep(service.incremental, service.boards, service.tables, boards1, tables1, boards, tables,
      batch, st, now, finished, b, results, before);
  }

  lemma ProgressHead(incremental: bool, boards1: Boards, tables1: Tables, boards: Boards, tables: Tables,
                     batch: seq<Mutation>, st: Setting, now: Time, finished: set<BoardId>, before: seq<Option<Result>>, b: BoardId)
    requires Progress(incremental, boards1, tables1, boards, tables, batch, st, now, finished, before) && b !in finished
    ensures At(boards1, b) == At(boards, b) && TableAt(tables1, b) == TableAt(tables, b) && |before| == |batch|
  {
  }

  lemma ProgressDone(incremental: bool, boards2: Boards, tables2: Tables, boards: Boards, tables: Tables,
                     batch: seq<Mutation>, st: Setting, now: Time, results: seq<Option<Result>>)
    requires Progress(incremental, boards2, tables2, boards, tables, batch, st, now, BoardsOf(batch), results)
    ensures forall b :: At(boards2, b) == FinalRedis(incremental, boards, batch, b, st)
    ensures forall b :: TableAt(tables2, b) == FinalTable(incremental, boards, tables, batch, b, st, now)
    ensures |results| == |batch|
    ensures forall i | 0 <= i < |batch| :: results[i] == Some(OneByOne(boards, batch, |batch|, st).results[i])
  {
    hide Process, CachedAt, FinalRedis, FinalTable, OneByOne;
    forall b | b !in BoardsOf(batch)
      ensures At(boards2, b) == FinalRedis(incremental, boards, batch, b, st)
      ensures TableAt(tables2, b) == FinalTable(incremental, boards, tables, batch, b, st, now)
    {
      UntouchedBoard(incremental, boards, tables, batch, b, st, now);
    }
    ResultsAreOneByOne(boards, batch, |batch|, st);
    assert forall i | 0 <= i < |batch| :: batch[i] in batch && batch[i].boardId in BoardsOf(batch);
  }

  lemma ProgressStep(incremental: bool, boards2: Boards, tables2: Tables, boards1: Boards, tables1: Tables, boards: Boards, tables: Tables,
                     batch: seq<Mutation>, st: Setting, now: Time, finished: set<BoardId>, b: BoardId,
                     results: seq<Option<Result>>, before: seq<Option<Result>>)
    requires Progress(incremental, boards1, tables1, boards, tables, batch, st, now, finished, before) && b !in finished
    requires SameElsewhere(boards1, boards2, b) && forall b' | b' != b :: TableAt(tables2, b') == TableAt(tables1, b')
    requires At(boards2, b) == FinalRedis(incremental, boards, batch, b, st)
    requires TableAt(tables2, b) == FinalTable(incremental, boards, tables, batch, b, st, now)
    requires Answered(boards, batch, b, |batch|, st, results, before)
    ensures Progress(incremental, boards2, tables2, boards, tables, batch, st, now, finished + {b}, results)
  {
    hide FinalRedis, FinalTable, ResultAt;
  }

  /** The presence keys of some boards. */
  type Rooms = map<BoardId, BoardPresence>

  ghost predicate Apart(rooms: Rooms) {
    forall a, b | a in rooms && b in rooms && rooms[a] == rooms[b] :: a == b
  }

  ghost function PresenceOf(rooms: Rooms): map<BoardId, Presence>
    reads rooms.Values
  {
    map b | b in rooms :: rooms[b].Keys()
  }

  /** The mode that a probe of each board finds. */
  function ModesOf(presence: map<BoardId, Presence>, probeAt: BoardId -> Time): BoardId -> Mode {
    b => if b in presence then Probed(presence[b], probeAt(b)).1 else Solo
  }

  ghost predicate RoomsAfter(presence: map<BoardId, Presence>, before: map<BoardId, Presence>, finished: set<BoardId>,
                             evicted: set<BoardId>, probeAt: BoardId -> Time, rearmAt: BoardId -> Time)
  {
    && presence.Keys == before.Keys
    && forall b | b in before ::
         presence[b] == if b in finished then AfterWork(before[b], probeAt(b), rearmAt(b), b in evicted) else before[b]
  }

  /** The boards of the batch that it evicts. */
  ghost function EvictedBoards(incremental: bool, boards: Boards, batch: seq<Mutation>, st: Setting): set<BoardId> {
    set b | b in BoardsOf(batch) && EvictedBy(incremental, boards, batch, b, st)
  }

  lemma EvictedInBatch(incremental: bool, boards: Boards, batch: seq<Mutation>, b: BoardId, st: Setting)
    requires b in BoardsOf(batch)
    ensures b in EvictedBoards(incremental, boards, batch, st) <==> EvictedBy(incremental, boards, batch, b, st)
  {
    hide EvictedBy;
  }

  /** One board of the batch, between the probe and the re-arm of its presence. */
  method WorkOnBoard(service: BoardStateService, rooms: Rooms, ghost boards: Boards, ghost tables: Tables,
                     ghost presence: map<BoardId, Presence>, batch: seq<Mutation>, b: BoardId, indices: seq<nat>,
                     clock: nat -> Time, standing: BoardId -> Standing, probeAt: BoardId -> Time, rearmAt: BoardId -> Time,
                     ghost st: Setting, now: Time, ghost finished: set<BoardId>, before: seq<Option<Result>>)
    returns (results: seq<Option<Result>>)
    requires st == Setting(ModesOf(presence, probeAt), clock, standing)
    requires Apart(rooms) && b in rooms && b in BoardsOf(batch) && AllKeyed(boards) && b !in finished
    requires indices == IndicesOn(batch, b, |batch|)
    requires RoomsAfter(PresenceOf(rooms), presence, finished, EvictedBoards(service.incremental, boards, batch, st), probeAt, rearmAt)
    requires Progress(service.incremental, service.boards, service.tables, boards, tables, batch, st, now, finished, before)
    modifies service, rooms.Values
    ensures RoomsAfter(PresenceOf(rooms), presence, finished + {b}, EvictedBoards(service.incremental, boards, batch, st), probeAt, rearmAt)
    ensures Progress(service.incremental, service.boards, service.tables, boards, tables, batch, st, now, finished + {b}, results)
  {
    hide Progress, EvictedBy, EvictedBoards, BoardsOf, AllKeyed, IndicesOn, AfterWork;
    assert PresenceOf(rooms)[b] == presence[b] == rooms[b].Keys();
    hide RoomsAfter;
    ghost var was := PresenceOf(rooms);
    results := WorkInRoom(service, rooms[b], boards, tables, presence, batch, b, indices, clock, standing, probeAt, rearmAt,
                          st, now, finished, before);
    EvictedInBatch(service.incremental, boards, batch, b, st);
    assert forall a | a in rooms && a != b :: PresenceOf(rooms)[a] == was[a];
    RoomDone(was, PresenceOf(rooms), presence, finished, b, EvictedBoards(service.incremental, boards, batch, st), probeAt, rearmAt);
  }

  method WorkInRoom(service: BoardStateService, room: BoardPresence, ghost boards: Boards, ghost tables: Tables,
                    ghost presence: map<BoardId, Presence>, batch: seq<Mutation>, b: BoardId, indices: seq<nat>,
                    clock: nat -> Time, standing: BoardId -> Standing, probeAt: BoardId -> Time, rearmAt: BoardId -> Time,
                    ghost st: Setting, now: Time, ghost finished: set<BoardId>, before: seq<Option<Result>>)
    returns (results: seq<Option<Result>>)
    requires st == Setting(ModesOf(presence, probeAt), clock, standing)
    requires b in presence && presence[b] == room.Keys() && b in BoardsOf(batch) && AllKeyed(boards) && b !in finished
    requires indices == IndicesOn(batch, b, |batch|)
    requires Progress(service.incremental, service.boards, service.tables, boards, tables, batch, st, now, finished, before)
    modifies service, room
    ensures room.Keys()
      == AfterWork(presence[b], probeAt(b), rearmAt(b), EvictedBy(service.incremental, boards, batch, b, st))
    ensures Progress(service.incremental, service.boards, service.tables, boards, tables, batch, st, now, finished + {b}, results)
  {
    hide Progress, Probed, EvictedBy, BoardsOf, AllKeyed, IndicesOn, AfterWork;
    var mode := room.GetSyncWriteMode(probeAt(b));
    var evicted;
    results, evicted := FinishBoard(service, boards, tables, batch, b, indices, mode, clock, standing(b), st, now, finished, before);
    FinishPresence(room, presence[b], mode, evicted, probeAt(b), rearmAt(b));
  }

  lemma RoomDone(was: map<BoardId, Presence>, here: map<BoardId, Presence>, before: map<BoardId, Presence>, finished: set<BoardId>,
                 b: BoardId, evicted: set<BoardId>, probeAt: BoardId -> Time, rearmAt: BoardId -> Time)
    requires RoomsAfter(was, before, finished, evicted, probeAt, rearmAt) && b in before
    requires here.Keys == was.Keys && forall a | a in was && a != b :: here[a] == was[a]
    requires here[b] == AfterWork(before[b], probeAt(b), rearmAt(b), b in evicted)
    ensures RoomsAfter(here, before, finished + {b}, evicted, probeAt, rearmAt)
  {
    hide AfterWork;
  }

  /** The end of the work on one board: presence that went with an eviction is not armed again. */
  method FinishPresence(room: BoardPresence, ghost p: Presence, mode: Mode, evicted: bool, ghost probeAt: Time, rearmAt: Time)
    requires (room.Keys(), mode) == Probed(p, probeAt) && (evicted ==> mode.Solo?)
    modifies room
    ensures room.Keys() == AfterWork(p, probeAt, rearmAt, evicted)
  {
    hide Probed, Rearmed;
    if evicted {
      room.Evict();
      NothingToRearm(rearmAt);
    }
    RearmAfterWork(room, mode, rearmAt);
  }

  /** The batch: every answer and every board is that of the one-by-one run under the same verdicts and the
      modes probed; a changed solo board is then persisted, and the presence of each board re-armed. */
  method ProcessBatch(service: BoardStateService, rooms: Rooms, batch: seq<Mutation>, clock: nat -> Time,
                      standing: BoardId -> Standing, probeAt: BoardId -> Time, rearmAt: BoardId -> Time, now: Time)
    returns (results: seq<Option<Result>>)
    requires AllKeyed(service.boards) && Apart(rooms) && forall m | m in batch :: m.boardId in rooms
    modifies service, rooms.Values
    ensures var st := Setting(ModesOf(old(PresenceOf(rooms)), probeAt), clock, standing);
      && |results| == |batch|
      && (forall i | 0 <= i < |batch| ::
            results[i] == Some(OneByOne(old(service.boards), batch, |batch|, st).results[i]))
      && (forall b :: At(service.boards, b) == FinalRedis(service.incremental, old(service.boards), batch, b, st))
      && (forall b :: TableAt(service.tables, b)
            == FinalTable(service.incremental, old(service.boards), old(service.tables), batch, b, st, now))
      && RoomsAfter(PresenceOf(rooms), old(PresenceOf(rooms)), BoardsOf(batch),
           EvictedBoards(service.incremental, old(service.boards), batch, st), probeAt, rearmAt)
  {
    hide Progress, FinalRedis, FinalTable, OneByOne, RoomsAfter, ModesOf, AllKeyed, Groups, IndicesOn, EvictedBoards, BoardsOf;
    ghost var boards, tables, presence := service.boards, service.tables, PresenceOf(rooms);
    ghost var st := Setting(ModesOf(presence, probeAt), clock, standing);
    ghost var gone := EvictedBoards(service.incremental, boards, batch, st);
    results := seq(|batch|, i => None);
    var byBoard := GroupByBoard(batch);
    GroupsHaveRooms(byBoard, batch, rooms);
    ghost var finished: set<BoardId> := {};
    StartOfBatch(service.incremental, boards, tables, batch, st, now, presence, gone, probeAt, rearmAt, results);
    for j := 0 to |byBoard|
      invariant finished == Keys(byBoard[..j])
      invariant RoomsAfter(PresenceOf(rooms), presence, finished, gone, probeAt, rearmAt)
      invariant Progress(service.incremental, service.boards, service.tables, boards, tables, batch, st, now, finished, results)
    {
      GroupAt(byBoard, batch, j);
      KeysSnoc(byBoard, j);
      results := WorkOnBoard(service, rooms, boards, tables, presence, batch, byBoard[j].0, byBoard[j].1,
        clock, standing, probeAt, rearmAt, st, now, finished, results);
      finished := finished + {byBoard[j].0};
    }
    assert byBoard[..|byBoard|] == byBoard;
    AllGroups(byBoard, batch);
    ProgressDone(service.incremental, service.boards, service.tables, boards, tables, batch, st, now, results);
  }

  lemma StartOfBatch(incremental: bool, boards: Boards, tables: Tables, batch: seq<Mutation>, st: Setting, now: Time,
                     presence: map<BoardId, Presence>, gone: set<BoardId>, probeAt: BoardId -> Time, rearmAt: BoardId -> Time,
                     results: seq<Option<Result>>)
    requires |results| == |batch|
    ensures RoomsAfter(presence, presence, {}, gone, probeAt, rearmAt)
    ensures Progress(incremental, boards, tables, boards, tables, batch, st, now, {}, results)
  {
    hide FinalRedis, FinalTable, ResultAt;
  }

  lemma GroupAt(byBoard: Entries<BoardId, seq<nat>>, batch: seq<Mutation>, j: nat)
    requires Distinct(byBoard) && ToMap(byBoard) == Groups(batch, |batch|) && j < |byBoard|
    ensures byBoard[j].1 == IndicesOn(batch, byBoard[j].0, |batch|) && byBoard[j].0 in BoardsOf(batch)
  {
    assert batch[..|batch|] == batch;
    EntryIsValue(byBoard, j);
  }

  lemma AllGroups(byBoard: Entries<BoardId, seq<nat>>, batch: seq<Mutation>)
    requires ToMap(byBoard) == Groups(batch, |batch|)
    ensures Keys(byBoard) == BoardsOf(batch)
  {
    assert batch[..|batch|] == batch;
    ToMapKeys(byBoard);
  }

  lemma GroupsHaveRooms(byBoard: Entries<BoardId, seq<nat>>, batch: seq<Mutation>, rooms: Rooms)
    requires Distinct(byBoard) && ToMap(byBoard) == Groups(batch, |batch|) && forall m | m in batch :: m.boardId in rooms
    ensures forall j | 0 <= j < |byBoard| :: byBoard[j].0 in rooms
  {
    assert batch[..|batch|] == batch;
    ToMapKeys(byBoard);
    forall j | 0 <= j < |byBoard| ensures byBoard[j].0 in rooms {
      assert byBoard[j].0 in Keys(byBoard);
      assert Keys(byBoard) == BoardsOf(batch);
    }
  }

  lemma KeysSnoc<K, V>(m: Entries<K, V>, j: nat)
    requires j < |m| && Distinct(m)
    ensures Keys(m[..j + 1]) == Keys(m[..j]) + {m[j].0} && m[j].0 !in Keys(m[..j])
  {
    assert forall i | 0 <= i < j :: m[..j + 1][i] == m[..j][i];
    assert m[..j + 1][j] == m[j];
  }
}
