/** Batches: grouping by board and the cached context, against one mutation at a time. */
module Batch {
  import opened Elements
  import opened BoardService
  import opened BoardState
  import opened LockEnforcement
  import opened Processor
  import OrderedMap

  /** Which mode each board writes in, when each mutation of the batch is processed, and how a
      persist finds each board. */
  datatype Setting = Setting(modes: BoardId -> Mode, clock: nat -> Time, standing: BoardId -> Standing)

  /** The mutations of a batch that are on board `b`, among the first `n`. */
  function IndicesOn(batch: seq<Mutation>, b: BoardId, n: nat): seq<nat>
    requires n <= |batch|
  {
    if n == 0 then []
    else IndicesOn(batch, b, n - 1) + if batch[n - 1].boardId == b then [n - 1] else []
  }

  function OpsAt(batch: seq<Mutation>, indices: seq<nat>): seq<Operation>
    requires forall i | i in indices :: i < |batch|
  {
    seq(|indices|, k requires 0 <= k < |indices| => assert indices[k] in indices; batch[indices[k]].op)
  }

  lemma {:induction false} IndicesExact(batch: seq<Mutation>, b: BoardId, n: nat)
    requires n <= |batch|
    ensures var s := IndicesOn(batch, b, n);
      && (forall i :: i in s <==> 0 <= i < n && batch[i].boardId == b)
      && (forall j, k | 0 <= j < k < |s| :: s[j] < s[k])
  {
    if n > 0 {
      IndicesExact(batch, b, n - 1);
      var s := IndicesOn(batch, b, n - 1);
      forall j | 0 <= j < |s| ensures s[j] < n - 1 {
        assert s[j] in s;
      }
      assert IndicesOn(batch, b, n) == if batch[n - 1].boardId == b then s + [n - 1] else s;
    }
  }

  ghost function OpsOn(batch: seq<Mutation>, b: BoardId): seq<Operation> {
    IndicesExact(batch, b, |batch|);
    OpsAt(batch, IndicesOn(batch, b, |batch|))
  }

  /** The keys of board `b` and its cached context when the batch has reached index `i`. */
  ghost function CachedAt(r: RedisBoard, batch: seq<Mutation>, b: BoardId, i: nat, st: Setting): (RedisBoard, Context)
    requires i <= |batch|
  {
    if i == 0 then (r, LoadedContext(r.elements, OpsOn(batch, b)))
    else
      var (before, context) := CachedAt(r, batch, b, i - 1, st);
      var m := batch[i - 1];
      if m.boardId != b then (before, context)
      else
        var out := Process(before, m, context, IsBlocked(m.op, context), st.modes(b), st.clock(i - 1));
        (out.redis, ContextAfter(context, out.result))
  }

  /** The lock verdict the batch gives its `i`th mutation. */
  ghost function VerdictAt(boards: Boards, batch: seq<Mutation>, i: nat, st: Setting): bool
    requires i < |batch|
  {
    IsBlocked(batch[i].op, CachedAt(At(boards, batch[i].boardId), batch, batch[i].boardId, i, st).1)
  }

  datatype InOrder = InOrder(boards: Boards, results: seq<Result>)

  /** The reference: the first `n` mutations one by one, in input order, on the full boards,
      under the same verdicts. */
  ghost function OneByOne(boards: Boards, batch: seq<Mutation>, n: nat, st: Setting): (run: InOrder)
    requires n <= |batch|
    ensures |run.results| == n
  {
    if n == 0 then InOrder(boards, [])
    else
      var before := OneByOne(boards, batch, n - 1, st);
      var m := batch[n - 1];
      var out := ProcessFull(At(before.boards, m.boardId), m, VerdictAt(boards, batch, n - 1, st), st.modes(m.boardId), st.clock(n - 1));
      InOrder(before.boards[m.boardId := out.redis], before.results + [out.result])
  }

  lemma TouchedInBatch(batch: seq<Mutation>, b: BoardId, i: nat)
    requires i < |batch| && batch[i].boardId == b
    ensures TouchedIds(batch[i].op) <= TouchedByAll(OpsOn(batch, b))
  {
    IndicesExact(batch, b, |batch|);
    var indices := IndicesOn(batch, b, |batch|);
    var k :| 0 <= k < |indices| && indices[k] == i;
    assert OpsOn(batch, b)[k] == batch[i].op;
  }

  /** The loop invariant: at every point of the batch the cache equals the board on every touched id. */
  lemma {:induction false} CacheStaysOk(r: RedisBoard, batch: seq<Mutation>, b: BoardId, i: nat, st: Setting)
    requires i <= |batch|
    ensures var (now, context) := CachedAt(r, batch, b, i, st);
      CacheOk(context, now.elements, TouchedByAll(OpsOn(batch, b)))
  {
    if i == 0 {
      LoadedContextIsOk(r.elements, OpsOn(batch, b));
    } else {
      hide Process, IsBlocked, ContextAfter, CacheOk, LoadedContext, TouchedIds, TouchedByAll, OpsOn;
      CacheStaysOk(r, batch, b, i - 1, st);
      var (before, context) := CachedAt(r, batch, b, i - 1, st);
      var m := batch[i - 1];
      if m.boardId == b {
        TouchedInBatch(batch, b, i - 1);
        CachedStepIsFullStep(before, m, context, TouchedByAll(OpsOn(batch, b)), IsBlocked(m.op, context), st.modes(b), st.clock(i - 1));
      }
    }
  }

  /** The step at index `i` gives the outcome of the full board under the verdict of the cache. */
  lemma CachedAtIsFull(r: RedisBoard, batch: seq<Mutation>, i: nat, st: Setting)
    requires i < |batch|
    ensures var m := batch[i];
      var (before, context) := CachedAt(r, batch, m.boardId, i, st);
      Process(before, m, context, IsBlocked(m.op, context), st.modes(m.boardId), st.clock(i))
        == ProcessFull(before, m, IsBlocked(m.op, context), st.modes(m.boardId), st.clock(i))
  {
    var m := batch[i];
    CacheStaysOk(r, batch, m.boardId, i, st);
    TouchedInBatch(batch, m.boardId, i);
    hide *;
    var (before, context) := CachedAt(r, batch, m.boardId, i, st);
    CachedStepIsFullStep(before, m, context, TouchedByAll(OpsOn(batch, m.boardId)), IsBlocked(m.op, context),
                         st.modes(m.boardId), st.clock(i));
  }

  /** Grouping by board changes nothing: each board is where the one-by-one run has it. */
  lemma {:induction false} CachedIsOneByOne(boards: Boards, batch: seq<Mutation>, n: nat, st: Setting, b: BoardId)
    requires n <= |batch|
    ensures CachedAt(At(boards, b), batch, b, n, st).0 == At(OneByOne(boards, batch, n, st).boards, b)
  {
    hide Process, IsBlocked, ContextAfter, LoadedContext;
    if n > 0 {
      CachedIsOneByOne(boards, batch, n - 1, st, b);
      if batch[n - 1].boardId == b {
        CachedAtIsFull(At(boards, b), batch, n - 1, st);
      }
    }
  }

  /** What the batch answers to its `i`th mutation. */
  ghost function ResultAt(boards: Boards, batch: seq<Mutation>, i: nat, st: Setting): Outcome
    requires i < |batch|
  {
    var m := batch[i];
    var (before, context) := CachedAt(At(boards, m.boardId), batch, m.boardId, i, st);
    Process(before, m, context, IsBlocked(m.op, context), st.modes(m.boardId), st.clock(i))
  }

  /** Each answer is the answer of the one-by-one run. */
  lemma {:induction false} ResultsAreOneByOne(boards: Boards, batch: seq<Mutation>, n: nat, st: Setting)
    requires n <= |batch|
    ensures forall i | 0 <= i < n :: OneByOne(boards, batch, n, st).results[i] == ResultAt(boards, batch, i, st).result
  {
    hide Process, IsBlocked, CachedAt, ContextAfter;
    if n > 0 {
      ResultsAreOneByOne(boards, batch, n - 1, st);
      var m := batch[n - 1];
      CachedIsOneByOne(boards, batch, n - 1, st, m.boardId);
      CachedAtIsFull(At(boards, m.boardId), batch, n - 1, st);
    }
  }

  /** The batch never blocks what the full board would let through. */
  lemma BatchVerdictIsSound(boards: Boards, batch: seq<Mutation>, i: nat, st: Setting)
    requires i < |batch| && VerdictAt(boards, batch, i, st)
    ensures IsBlocked(batch[i].op, At(OneByOne(boards, batch, i, st).boards, batch[i].boardId).elements)
  {
    var b := batch[i].boardId;
    CacheStaysOk(At(boards, b), batch, b, i, st);
    CachedIsOneByOne(boards, batch, i, st, b);
    FewerElementsNeverBlock(batch[i].op, CachedAt(At(boards, b), batch, b, i, st).1, CachedAt(At(boards, b), batch, b, i, st).0.elements);
  }

  /** A single mutation that touches elements gets the verdict of the full board. */
  lemma SingleVerdictIsFull(boards: Boards, m: Mutation, st: Setting)
    requires !m.op.CreateElement? && !m.op.DeleteElements?
    ensures VerdictAt(boards, [m], 0, st) == IsBlocked(m.op, At(boards, m.boardId).elements)
  {
    assert IndicesOn([m], m.boardId, 1) == [0];
    assert OpsOn([m], m.boardId) == [m.op];
    TargetedVerdictIsFull(At(boards, m.boardId).elements, m.op);
  }

  // ----- What the verdicts of a batch depend on -----

  /** The ids the batch loads for board `b`: nothing when it touches nothing. */
  ghost function WantedIds(board: Context, ops: seq<Operation>): set<Id> {
    var touched := TouchedByAll(ops);
    if touched == {} then {} else touched + ParentsIn(board, touched) + ReferencedByAll(ops)
  }

  function WrittenBy(result: Result): set<Id> {
    if result.change.None? then {} else IdsOf(result.change.value.upserts)
  }

  /** The ids the batch knows of board `b` at index `i`: those it loaded and those it has written since. */
  ghost function KnownAt(r: RedisBoard, batch: seq<Mutation>, b: BoardId, i: nat, st: Setting): set<Id>
    requires i <= |batch|
  {
    if i == 0 then WantedIds(r.elements, OpsOn(batch, b))
    else
      var (before, context) := CachedAt(r, batch, b, i - 1, st);
      var m := batch[i - 1];
      var known := KnownAt(r, batch, b, i - 1, st);
      if m.boardId != b then known
      else known + WrittenBy(Process(before, m, context, IsBlocked(m.op, context), st.modes(b), st.clock(i - 1)).result)
  }

  function Restrict(board: Context, ids: set<Id>): Context {
    map k | k in board && k in ids :: board[k]
  }

  lemma ChangeKeepsRestriction(board: Context, ids: set<Id>, c: Change)
    ensures HSetAll(Restrict(board, ids), c.upserts) - c.deletes == Restrict(HSetAll(board, c.upserts) - c.deletes, ids + IdsOf(c.upserts))
  {
    OrderedMap.SetAllIsUpdate(Restrict(board, ids), ById(c.upserts));
    OrderedMap.SetAllIsUpdate(board, ById(c.upserts));
    LastWinsKeyed(c.upserts);
    RestrictUpdate(board, ids, LastWins(c.upserts), c.deletes);
  }

  lemma RestrictUpdate(board: Context, ids: set<Id>, upserts: Context, deletes: set<Id>)
    ensures Restrict(board, ids) + upserts - deletes == Restrict(board + upserts - deletes, ids + upserts.Keys)
  {
  }

  lemma StepKeepsRestriction(r: RedisBoard, m: Mutation, ids: set<Id>, blocked: bool, mode: Mode, now: Time)
    ensures var context := Restrict(r.elements, ids);
      var out := Process(r, m, context, blocked, mode, now);
      ContextAfter(context, out.result) == Restrict(out.redis.elements, ids + WrittenBy(out.result))
  {
    hide ToChangeSet, Restrict, HSetAll, ToChange;
    var context := Restrict(r.elements, ids);
    var out := Process(r, m, context, blocked, mode, now);
    if out.result.change.Some? {
      ChangeKeepsRestriction(r.elements, ids, out.result.change.value);
    } else {
      assert ids + {} == ids;
    }
  }

  /** At every point of the batch the cache is exactly the part of the board the batch knows. */
  lemma {:induction false} CacheIsWhatIsKnown(r: RedisBoard, batch: seq<Mutation>, b: BoardId, i: nat, st: Setting)
    requires i <= |batch|
    ensures var (now, context) := CachedAt(r, batch, b, i, st);
      context == Restrict(now.elements, KnownAt(r, batch, b, i, st))
  {
    hide Process, ContextAfter, IsBlocked;
    if i > 0 {
      CacheIsWhatIsKnown(r, batch, b, i - 1, st);
      var (before, context) := CachedAt(r, batch, b, i - 1, st);
      var m := batch[i - 1];
      if m.boardId == b {
        StepKeepsRestriction(before, m, KnownAt(r, batch, b, i - 1, st), IsBlocked(m.op, context), st.modes(b), st.clock(i - 1));
      }
    }
  }

  /** The verdict of a batch, exactly: that of the board of the one-by-one run with only the known
      ids in it; so it is the full board's whenever all the operation depends on is known. */
  lemma BatchVerdictIsExact(boards: Boards, batch: seq<Mutation>, i: nat, st: Setting)
    requires i < |batch|
    ensures var b := batch[i].boardId;
      var board := At(OneByOne(boards, batch, i, st).boards, b).elements;
      var known := KnownAt(At(boards, b), batch, b, i, st);
      && VerdictAt(boards, batch, i, st) == IsBlocked(batch[i].op, Restrict(board, known))
      && (Needs(batch[i].op, board) * board.Keys <= known ==> VerdictAt(boards, batch, i, st) == IsBlocked(batch[i].op, board))
  {
    hide CachedAt, OneByOne, IsBlocked, KnownAt, Needs;
    var b := batch[i].boardId;
    CachedIsOneByOne(boards, batch, i, st, b);
    CacheIsWhatIsKnown(At(boards, b), batch, b, i, st);
    var board := At(OneByOne(boards, batch, i, st).boards, b).elements;
    var known := KnownAt(At(boards, b), batch, b, i, st);
    if Needs(batch[i].op, board) * board.Keys <= known {
      VerdictNeedsOnly(batch[i].op, Restrict(board, known), board);
    }
  }

  /** A note put into a container and then moved, in one batch. */
  function PutThenMove(b: BoardId, n: Id, g: Id, ids: (MutationId, MutationId)): seq<Mutation> {
    [Mutation(ids.0, b, UpdateElement(n, map["containerId" := Str(g)])),
     Mutation(ids.1, b, MoveElements([Move(n, 0.0, 0.0)], false))]
  }

  lemma PutThenMoveContext(elements: Context, n: Id, g: Id, b: BoardId, ids: (MutationId, MutationId))
    requires n in elements && LockParents(elements[n]) == {}
    ensures OpsOn(PutThenMove(b, n, g, ids), b) == [PutThenMove(b, n, g, ids)[0].op, PutThenMove(b, n, g, ids)[1].op]
    ensures LoadedContext(elements, OpsOn(PutThenMove(b, n, g, ids), b)) == map[n := elements[n]]
  {
    var batch := PutThenMove(b, n, g, ids);
    assert IndicesOn(batch, b, 1) == [0] && IndicesOn(batch, b, 2) == [0, 1];
    assert OpsOn(batch, b) == [batch[0].op, batch[1].op];
    PutThenMoveLoads(elements, batch[0].op, batch[1].op, n);
  }

  lemma PutThenMoveLoads(elements: Context, put: Operation, move: Operation, n: Id)
    requires n in elements && LockParents(elements[n]) == {}
    requires put.UpdateElement? && put.elementId == n && "metaContainerId" !in put.fields
    requires move == MoveElements([Move(n, 0.0, 0.0)], false)
    ensures LoadedContext(elements, [put, move]) == map[n := elements[n]]
  {
    var ops := [put, move];
    assert TouchedIds(move) == {n} by { assert move.moves[0] in move.moves; }
    assert TouchedByAll(ops) == {n} by { assert ops[0] in ops; }
    assert ParentsIn(elements, {n}) == {} && ReferencedByAll(ops) == {};
  }

  lemma LastWinsOfOne(e: Element)
    ensures LastWins([e]) == map[IdOf(e) := e]
  {
    assert ById([e])[1..] == [] && ById([e])[0] == (IdOf(e), e);
    assert OrderedMap.ToMap<Id, Element>([]) == map[];
  }

  lemma StampOfOne(e: Element, now: Time)
    ensures StampAll(map[IdOf(e) := e], now) == map[IdOf(e) := Stamp(e, now)]
  {
  }

  lemma ChangeOfOne(r: RedisBoard, e: Element, now: Time)
    ensures ToChange(r, [e], [], now).deletes == {}
    ensures LastWins(ToChange(r, [e], [], now).upserts) == map[IdOf(e) := Stamp(e, now)]
  {
    hide NormalizedUpserts, Survivors;
    NormalizedIsLastWins([e]);
    SurvivorsLastWins(NormalizedUpserts([e]), {}, now);
    LastWinsOfOne(e);
    StampOfOne(e, now);
  }

  lemma SingleUpsert(r: RedisBoard, e: Element, track: bool, now: Time)
    requires Keyed(r.elements)
    ensures var (r', c) := AppliedChangeSet(r, [e], [], track, now);
      && c.Some? && r'.elements == r.elements[IdOf(e) := Stamp(e, now)]
      && c.value.deletes == {} && LastWins(c.value.upserts) == map[IdOf(e) := Stamp(e, now)]
  {
    hide ToChange, Pipeline, LastWins, StampAll, Stamp;
    ApplyChangeSetMeaning(r, [e], [], track, now);
    ChangeOfOne(r, e, now);
    LastWinsOfOne(e);
    StampOfOne(e, now);
    OrderedMap.UpdateDropNone(r.elements, IdOf(e), Stamp(e, now));
  }

  lemma PutUpserts(context: Context, n: Id, g: Id)
    requires context.Keys == {n} && IdOf(context[n]) == n
    ensures var moved := Merge(context[n], map["containerId" := Str(g)]);
      && IdOf(moved) == n
      && ToChangeSet(context, UpdateElement(n, map["containerId" := Str(g)])) == ([moved], [])
  {
  }

  lemma PutMovesIntoContainer(r: RedisBoard, n: Id, g: Id, context: Context, mode: Mode, now: Time,
                              b: BoardId, ids: (MutationId, MutationId))
    requires Keyed(r.elements) && n in r.elements && n != g && ids.0 !in r.seen
    requires context == map[n := r.elements[n]]
    ensures var out := Process(r, PutThenMove(b, n, g, ids)[0], context, false, mode, now);
      && out.redis.elements == r.elements[n := Stamp(Merge(r.elements[n], map["containerId" := Str(g)]), now)]
      && ContextAfter(context, out.result).Keys <= {n}
  {
    hide AppliedChangeSet, HSetAll, Merge, Stamp, IdOf;
    var m := PutThenMove(b, n, g, ids)[0];
    var moved: Element := Merge(r.elements[n], map["containerId" := Str(g)]);
    PutUpserts(context, n, g);
    var r1 := r.(seen := r.seen + {m.mutationId});
    SingleUpsert(r1, moved, mode.Collab?, now);
    var c := AppliedChangeSet(r1, [moved], [], mode.Collab?, now).1.value;
    HSetAllIsUpdate(context, c.upserts);
  }

  lemma HSetAllIsUpdate(m: Context, upserts: seq<Element>)
    ensures HSetAll(m, upserts) == m + LastWins(upserts)
  {
    OrderedMap.SetAllIsUpdate(m, ById(upserts));
  }

  lemma PutIsNotBlocked(e: Element, n: Id, g: Id, b: BoardId, ids: (MutationId, MutationId))
    requires n != g && !IsLocked(e) && LockParents(e) == {}
    ensures !IsBlocked(PutThenMove(b, n, g, ids)[0].op, map[n := e])
  {
    assert forall p | p in StringAt(e.fields, "metaContainerId") :: p in LockParents(e);
  }

  lemma CacheAfterPut(r: RedisBoard, n: Id, g: Id, st: Setting, b: BoardId, ids: (MutationId, MutationId))
    requires Keyed(r.elements) && n in r.elements && n != g && ids.0 !in r.seen
    requires !IsLocked(r.elements[n]) && LockParents(r.elements[n]) == {}
    ensures var (now, after) := CachedAt(r, PutThenMove(b, n, g, ids), b, 1, st);
      && now.elements == r.elements[n := Stamp(Merge(r.elements[n], map["containerId" := Str(g)]), st.clock(0))]
      && after.Keys <= {n} && PartOf(after, now.elements)
  {
    hide Process, ContextAfter, IsBlocked, LockParents, IsLocked, LoadedContext, OpsOn;
    var batch := PutThenMove(b, n, g, ids);
    PutThenMoveContext(r.elements, n, g, b, ids);
    var context: Context := map[n := r.elements[n]];
    assert CachedAt(r, batch, b, 0, st) == (r, context);
    PutIsNotBlocked(r.elements[n], n, g, b, ids);
    PutMovesIntoContainer(r, n, g, context, st.modes(b), st.clock(0), b, ids);
    CacheStaysOk(r, batch, b, 1, st);
  }

  /** But a batch may let through what the full board would block: a container that an earlier
      mutation of the batch names is not loaded, so its lock is not seen. */
  lemma BatchMayMissALock(boards: Boards, n: Id, g: Id, st: Setting, b: BoardId, ids: (MutationId, MutationId))
    requires var r := At(boards, b);
      && Keyed(r.elements) && n in r.elements && g in r.elements && n != g
      && IsLocked(r.elements[g]) && !IsLocked(r.elements[n]) && LockParents(r.elements[n]) == {}
      && ids.0 !in r.seen
    ensures !VerdictAt(boards, PutThenMove(b, n, g, ids), 1, st)
    ensures IsBlocked(PutThenMove(b, n, g, ids)[1].op, At(OneByOne(boards, PutThenMove(b, n, g, ids), 1, st).boards, b).elements)
  {
    hide CachedAt, OneByOne, IsBlocked, IsLocked, LockParents, Merge, Stamp, Keyed;
    var r, batch := At(boards, b), PutThenMove(b, n, g, ids);
    CacheAfterPut(r, n, g, st, b, ids);
    CachedIsOneByOne(boards, batch, 1, st, b);
    var (now, after) := CachedAt(r, batch, b, 1, st);
    MovedIntoLock(now.elements, after, r.elements, n, g, st.clock(0), b, ids);
  }

  lemma MovedIntoLock(now: Context, after: Context, before: Context, n: Id, g: Id, time: Time, b: BoardId, ids: (MutationId, MutationId))
    requires n in before && g in before && n != g && IsLocked(before[g]) && !IsLocked(before[n]) && LockParents(before[n]) == {}
    requires now == before[n := Stamp(Merge(before[n], map["containerId" := Str(g)]), time)]
    requires after.Keys <= {n} && PartOf(after, now)
    ensures IsBlocked(PutThenMove(b, n, g, ids)[1].op, now) && !IsBlocked(PutThenMove(b, n, g, ids)[1].op, after)
  {
    var move := PutThenMove(b, n, g, ids)[1].op.moves[0];
    assert move in PutThenMove(b, n, g, ids)[1].op.moves;
    assert g in LockParents(now[n]);
    assert LockParents(now[n]) == {g} by {
      assert StringAt(now[n].fields, "metaContainerId") == StringAt(before[n].fields, "metaContainerId");
      assert StringAt(before[n].fields, "metaContainerId") <= LockParents(before[n]);
    }
    assert MoveBlocked(now, n) && !MoveBlocked(after, n);
  }
}
