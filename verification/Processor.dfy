/** The mutation processor: it works from a partly loaded context of the board and groups a
    batch by board, and must mean the same as one mutation at a time on the full boards. */
module Processor {
  import opened Elements
  import opened Cascade
  import opened BoardState
  import opened LockEnforcement
  import OrderedMap

  datatype Mode = Solo | Collab
  datatype Mutation = Mutation(mutationId: MutationId, boardId: BoardId, op: Operation)
  datatype Status = Applied | AlreadyApplied | BroadcastOnly

  datatype Result = Result(
    mutationId: MutationId,
    status: Status,
    serverTimestamp: Option<Time>,
    sequence: Option<nat>,
    change: Option<Change>)

  // ----- From an operation to a change set -----

  function UpsertFromCache(context: Context, id: Id, patch: Patch): seq<Element> {
    if id in context then [Merge(context[id], patch)] else []
  }

  function MoveUpserts(context: Context, moves: seq<Move>): seq<Element> {
    if moves == [] then []
    else
      UpsertFromCache(context, moves[0].elementId, map["x" := Num(moves[0].x), "y" := Num(moves[0].y)])
      + MoveUpserts(context, moves[1..])
  }

  function UpdateUpserts(context: Context, updates: seq<Update>): seq<Element> {
    if updates == [] then []
    else UpsertFromCache(context, updates[0].elementId, updates[0].fields) + UpdateUpserts(context, updates[1..])
  }

  function ToChangeSet(context: Context, op: Operation): (seq<Element>, seq<Id>) {
    match op
    case CreateElement(_, data) => ([data], [])
    case UpdateElement(id, fields) => (UpsertFromCache(context, id, fields), [])
    case DeleteElements(ids) => ([], ids)
    case MoveElements(moves, _) => (MoveUpserts(context, moves), [])
    case UpdateElements(updates) => (UpdateUpserts(context, updates), [])
    case ReorderElement(id, z) => (UpsertFromCache(context, id, map["zIndex" := Num(z)]), [])
    case ReconcileMonthRange(_, upserts, deletes) => (upserts, deletes)
  }

  // ----- One mutation -----

  datatype Outcome = Outcome(redis: RedisBoard, result: Result, applied: bool)

  ghost predicate Rejected(op: Operation, context: Context) {
    op.ReconcileMonthRange? && !Consistent(op.metaId, op.upserts, op.deletes, context)
  }

  function NoChange(r: RedisBoard, m: Mutation, now: Time): Outcome {
    Outcome(r, Result(m.mutationId, Applied, Some(now), Some(r.sequence), None), false)
  }

  function IsTransient(op: Operation): bool {
    op.MoveElements? && op.transient
  }

  /** Process a mutation in a context, under a given lock verdict. */
  ghost function Process(r: RedisBoard, m: Mutation, context: Context, blocked: bool, mode: Mode, now: Time): Outcome {
    if IsTransient(m.op) then Outcome(r, Result(m.mutationId, BroadcastOnly, Some(now), None, None), false)
    else if m.mutationId in r.seen then Outcome(r, Result(m.mutationId, AlreadyApplied, None, None, None), false)
    else
      var r1 := r.(seen := r.seen + {m.mutationId});
      if blocked || Rejected(m.op, context) then NoChange(r1, m, now)
      else
        var (upserts, deletes) := ToChangeSet(context, m.op);
        var (r2, change) := AppliedChangeSet(r1, upserts, deletes, mode.Collab?, now);
        if change.None? then NoChange(r1, m, now)
        else Outcome(r2, Result(m.mutationId, Applied, Some(now), Some(change.value.sequence), change), true)
  }

  /** The same on the full board. */
  ghost function ProcessFull(r: RedisBoard, m: Mutation, blocked: bool, mode: Mode, now: Time): Outcome {
    Process(r, m, r.elements, blocked, mode, now)
  }

  function ContextAfter(context: Context, result: Result): Context {
    if result.change.None? then context
    else HSetAll(context, result.change.value.upserts) - result.change.value.deletes
  }

  // ----- The loaded context -----

  function TouchedByAll(ops: seq<Operation>): set<Id> {
    set op, id | op in ops && id in TouchedIds(op) :: id
  }

  function ReferencedByAll(ops: seq<Operation>): set<Id> {
    set op, id | op in ops && id in ReferencedMetaIds(op) :: id
  }

  /** Touched elements, then their parents and the referenced metas; nothing at all when nothing is touched. */
  function LoadedContext(board: Context, ops: seq<Operation>): Context {
    var touched := TouchedByAll(ops);
    if touched == {} then map[]
    else
      var wanted := touched + ParentsIn(board, touched) + ReferencedByAll(ops);
      map k | k in board && k in wanted :: board[k]
  }

  /** The context equals the board on what it holds, and holds every touched element of the board. */
  ghost predicate CacheOk(context: Context, board: Context, touched: set<Id>) {
    PartOf(context, board) && Loads(context, board, touched)
  }

  lemma LoadedContextIsOk(board: Context, ops: seq<Operation>)
    ensures CacheOk(LoadedContext(board, ops), board, TouchedByAll(ops))
  {
  }

  lemma {:induction false} MoveUpsertsAgree(context: Context, board: Context, moves: seq<Move>)
    requires PartOf(context, board)
    requires forall m | m in moves :: m.elementId in board ==> m.elementId in context
    ensures MoveUpserts(context, moves) == MoveUpserts(board, moves)
  {
    if moves != [] {
      assert moves[0] in moves;
      MoveUpsertsAgree(context, board, moves[1..]);
    }
  }

  lemma {:induction false} UpdateUpsertsAgree(context: Context, board: Context, updates: seq<Update>)
    requires PartOf(context, board)
    requires forall u | u in updates :: u.elementId in board ==> u.elementId in context
    ensures UpdateUpserts(context, updates) == UpdateUpserts(board, updates)
  {
    if updates != [] {
      assert updates[0] in updates;
      UpdateUpsertsAgree(context, board, updates[1..]);
    }
  }

  /** The change set and the integrity check need only the touched elements. */
  lemma ChangeSetNeedsOnlyTouched(context: Context, board: Context, op: Operation)
    requires CacheOk(context, board, TouchedIds(op))
    ensures ToChangeSet(context, op) == ToChangeSet(board, op)
    ensures Rejected(op, context) == Rejected(op, board)
  {
    match op
    case MoveElements(moves, _) =>
      forall m | m in moves ensures m.elementId in TouchedIds(op) {}
      MoveUpsertsAgree(context, board, moves);
    case UpdateElements(updates) =>
      forall u | u in updates ensures u.elementId in TouchedIds(op) {}
      UpdateUpsertsAgree(context, board, updates);
    case ReconcileMonthRange(_, _, _) => ConsistencyNeedsOnlyTouched(op, context, board);
    case UpdateElement(id, _) => assert id in TouchedIds(op);
    case ReorderElement(id, _) => assert id in TouchedIds(op);
    case _ =>
  }

  /** Applying a change to cache and board alike keeps the cache right, cascaded deletes included. */
  lemma ChangeKeepsCache(context: Context, board: Context, touched: set<Id>, c: Change)
    requires CacheOk(context, board, touched)
    ensures CacheOk(HSetAll(context, c.upserts) - c.deletes, HSetAll(board, c.upserts) - c.deletes, touched)
  {
    OrderedMap.SetAllIsUpdate(context, ById(c.upserts));
    OrderedMap.SetAllIsUpdate(board, ById(c.upserts));
  }

  /** The step of the loop: a right cache gives the outcome of the full board under the same
      verdict, and stays right. */
  lemma CachedStepIsFullStep(r: RedisBoard, m: Mutation, context: Context, touched: set<Id>, blocked: bool, mode: Mode, now: Time)
    requires CacheOk(context, r.elements, touched) && TouchedIds(m.op) <= touched
    ensures var out := Process(r, m, context, blocked, mode, now);
      && out == ProcessFull(r, m, blocked, mode, now)
      && CacheOk(ContextAfter(context, out.result), out.redis.elements, touched)
  {
    FewerTouched(context, r.elements, touched, TouchedIds(m.op));
    ChangeSetNeedsOnlyTouched(context, r.elements, m.op);
    hide CacheOk, ToChangeSet, Rejected, AppliedChangeSet, IsTransient;
    ChangeIsWritten(r, m, context, blocked, mode, now);
    var out := Process(r, m, context, blocked, mode, now);
    hide Process;
    if out.result.change.Some? {
      ChangeKeepsCache(context, r.elements, touched, out.result.change.value);
    }
  }

  lemma FewerTouched(context: Context, board: Context, touched: set<Id>, fewer: set<Id>)
    requires CacheOk(context, board, touched) && fewer <= touched
    ensures CacheOk(context, board, fewer)
  {
  }

  lemma ChangeIsWritten(r: RedisBoard, m: Mutation, context: Context, blocked: bool, mode: Mode, now: Time)
    ensures var out := Process(r, m, context, blocked, mode, now);
      out.redis.elements == ContextAfter(r.elements, out.result)
  {
    var (upserts, deletes) := ToChangeSet(context, m.op);
    ChangeSetIsWritten(r.(seen := r.seen + {m.mutationId}), upserts, deletes, mode.Collab?, now);
    hide ToChangeSet, Rejected, IsTransient, HSetAll, AppliedChangeSet;
  }

  lemma ChangeSetIsWritten(r: RedisBoard, upserts: seq<Element>, deletes: seq<Id>, track: bool, now: Time)
    ensures var (r', change) := AppliedChangeSet(r, upserts, deletes, track, now);
      r'.elements == (if change.None? then r.elements else HSetAll(r.elements, change.value.upserts) - change.value.deletes)
  {
    hide HSetAll, ToChange;
  }

  // ----- Verdicts of a single mutation -----

  /** For the operations that touch elements, the targeted reads give the verdict and the
      integrity check of the full board. */
  lemma TargetedVerdictIsFull(board: Context, op: Operation)
    requires !op.CreateElement? && !op.DeleteElements?
    ensures IsBlocked(op, LoadedContext(board, [op])) == IsBlocked(op, board)
    ensures Rejected(op, LoadedContext(board, [op])) == Rejected(op, board)
  {
    SingleOperation(op);
    LoadedContextIsOk(board, [op]);
    ChangeSetNeedsOnlyTouched(LoadedContext(board, [op]), board, op);
    if TouchedIds(op) != {} {
      NeedsOfTouching(op, board);
      VerdictNeedsOnly(op, LoadedContext(board, [op]), board);
    } else {
      NothingTouchedNothingBlocked(op, board);
      NothingTouchedNothingBlocked(op, map[]);
    }
  }

  lemma SingleOperation(op: Operation)
    ensures TouchedByAll([op]) == TouchedIds(op) && ReferencedByAll([op]) == ReferencedMetaIds(op)
  {
    assert op in [op];
  }

  lemma NeedsOfTouching(op: Operation, board: Context)
    requires !op.DeleteElements?
    ensures Needs(op, board) == TouchedIds(op) + ParentsIn(board, TouchedIds(op)) + ReferencedMetaIds(op)
  {
    assert TouchedIds(op) + {} == TouchedIds(op);
  }

  lemma NothingTouchedNothingBlocked(op: Operation, context: Context)
    requires TouchedIds(op) == {} && !op.CreateElement? && !op.DeleteElements?
    ensures !IsBlocked(op, context)
  {
    if op.MoveElements? {
      assert forall m | m in op.moves :: m.elementId in TouchedIds(op);
    }
    if op.UpdateElements? {
      assert forall u | u in op.updates :: u.elementId in TouchedIds(op);
    }
  }

  /** A create or delete on its own loads nothing, so its verdict is the full board's exactly
      when no managed month-range meta of the board holds it. */
  lemma CreateOrDeleteAloneIsNeverBlocked(board: Context, op: Operation)
    requires op.CreateElement? || op.DeleteElements?
    ensures !IsBlocked(op, LoadedContext(board, [op]))
    ensures IsBlocked(op, LoadedContext(board, [op])) == IsBlocked(op, board) <==>
      if op.CreateElement? then
        forall p | p in StringAt(op.data.fields, "metaContainerId") && p in board :: "monthRange" !in board[p].fields
      else
        forall id, p | id in op.elementIds && id in board && p in StringAt(board[id].fields, "metaContainerId") && p in board ::
          p in op.elementIds || "monthRange" !in board[p].fields
  {
    assert TouchedByAll([op]) == {} by {
      assert forall o | o in [op] :: TouchedIds(o) == {};
    }
  }

  lemma DeleteInLockedMeta(board: Context, id: Id, meta: Id)
    requires id in board && meta in board && meta != id
    requires meta in StringAt(board[id].fields, "metaContainerId") && IsManaged(board[meta])
    ensures IsBlocked(DeleteElements([id]), board)
  {
    assert SetOf([id]) == {id};
    assert DeleteBlocked(board, id, {id});
    assert id in DeleteElements([id]).elementIds;
  }

  /** Deleting a month of a managed meta is blocked on the full board and goes through alone. */
  lemma UnblockedDeleteExample() returns (board: Context, op: Operation)
    ensures Keyed(board) && IsBlocked(op, board) && !IsBlocked(op, LoadedContext(board, [op]))
  {
    hide IsBlocked, LoadedContext;
    var meta: Element := Record(map["id" := Str("meta"), "kind" := Str("META_COLUMN"), "monthRange" := Obj(map[])]);
    var month: Element := Record(map["id" := Str("m"), "kind" := Str("COLUMN"), "metaContainerId" := Str("meta")]);
    op := DeleteElements(["m"]);
    board := map["meta" := meta, "m" := month];
    DeleteInLockedMeta(board, "m", "meta");
    CreateOrDeleteAloneIsNeverBlocked(board, op);
  }
}
