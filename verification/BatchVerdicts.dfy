/** When the verdicts of a batch are those of the full boards. */
module BatchVerdicts {
  import opened Elements
  import opened Cascade
  import opened BoardState
  import opened LockEnforcement
  import opened Processor
  import opened Batch
  import OrderedMap

  /** A batch gives its `i`th mutation the full board's verdict if and only if nothing blocks it on the full
      board, or some reason that does, the element and its blocker, is known to the batch. */
  lemma BatchVerdictIsFullIff(boards: Boards, batch: seq<Mutation>, i: nat, st: Setting)
    requires i < |batch|
    ensures var b, op := batch[i].boardId, batch[i].op;
      var board := At(OneByOne(boards, batch, i, st).boards, b).elements;
      var known := KnownAt(At(boards, b), batch, b, i, st);
      VerdictAt(boards, batch, i, st) == IsBlocked(op, board) <==>
        || (forall id, p :: !Blocks(op, board, id, p))
        || (exists id, p :: Blocks(op, board, id, p) && id in known && p in known)
  {
    hide CachedAt, OneByOne, IsBlocked, KnownAt, Blocks;
    var b, op := batch[i].boardId, batch[i].op;
    var board := At(OneByOne(boards, batch, i, st).boards, b).elements;
    var known := KnownAt(At(boards, b), batch, b, i, st);
    BatchVerdictIsExact(boards, batch, i, st);
    BlockedIffReason(op, board);
    BlockedIffReason(op, Restrict(board, known));
    forall id, p ensures Blocks(op, Restrict(board, known), id, p) <==> Blocks(op, board, id, p) && id in known && p in known {
      ReasonsOfPart(op, Restrict(board, known), board, id, p);
      ReasonElements(op, board, id, p);
    }
  }

  lemma ReasonElements(op: Operation, board: Context, id: Id, p: Id)
    ensures Blocks(op, board, id, p) ==> id in board && p in board
  {
  }

  // ----- A condition on the batch alone -----

  function FieldParents(f: Fields): set<Id> {
    StringAt(f, "containerId") + StringAt(f, "metaContainerId")
  }

  /** The containers that a payload names. */
  function PayloadContainers(op: Operation): set<Id> {
    match op
    case CreateElement(_, data) => FieldParents(data.fields)
    case UpdateElement(_, fields) => FieldParents(fields)
    case UpdateElements(updates) => set u, p | u in updates && p in FieldParents(u.fields) :: p
    case ReconcileMonthRange(_, upserts, _) => set u, p | u in upserts && p in FieldParents(u.fields) :: p
    case _ => {}
  }

  function DeletedIds(op: Operation): set<Id> {
    if op.DeleteElements? then SetOf(op.elementIds) else {}
  }

  function PayloadContainersOfAll(ops: seq<Operation>): set<Id> {
    set op, p | op in ops && p in PayloadContainers(op) :: p
  }

  function DeletedByAll(ops: seq<Operation>): set<Id> {
    set op, id | op in ops && id in DeletedIds(op) :: id
  }

  /** All the containers that can matter: those payloads name, and those of the elements touched or deleted. */
  function Containers(board: Context, ops: seq<Operation>): set<Id> {
    PayloadContainersOfAll(ops) + ParentsIn(board, TouchedByAll(ops) + DeletedByAll(ops))
  }

  /** What the batch loads covers the elements it deletes and all these containers, as far as they exist. */
  ghost predicate SelfContained(board: Context, ops: seq<Operation>) {
    (DeletedByAll(ops) + Containers(board, ops)) * board.Keys <= WantedIds(board, ops)
  }

  /** Every element is as it was at the start of the batch, or known to it with containers that can matter. */
  ghost predicate Traced(start: Context, now: Context, known: set<Id>, containers: set<Id>) {
    forall k | k in now ::
      || (k in start && now[k] == start[k])
      || (k in known && LockParents(now[k]) <= containers)
  }

  lemma MergedParents(f: Fields, g: Fields)
    ensures FieldParents(f + g) <= FieldParents(f) + FieldParents(g)
  {
  }

  lemma StampKeepsParents(e: Element, now: Time)
    ensures LockParents(Stamp(e, now)) == LockParents(e)
  {
  }

  lemma TouchedParents(start: Context, now: Context, known: set<Id>, containers: set<Id>, touched: set<Id>, id: Id)
    requires Traced(start, now, known, containers) && ParentsIn(start, touched) <= containers && id in touched && id in now
    ensures LockParents(now[id]) <= containers
  {
    if id in start && now[id] == start[id] {
      assert LockParents(start[id]) <= ParentsIn(start, touched);
    }
  }

  lemma CachedUpsert(start: Context, now: Context, known: set<Id>, containers: set<Id>, touched: set<Id>, context: Context,
                     id: Id, patch: Patch, e: Element)
    requires Traced(start, now, known, containers) && ParentsIn(start, touched) <= containers && id in touched
    requires PartOf(context, now) && FieldParents(patch) <= containers && e in UpsertFromCache(context, id, patch)
    ensures LockParents(e) <= containers
  {
    hide FieldParents, LockParents;
    TouchedParents(start, now, known, containers, touched, id);
    MergedParents(context[id].fields, patch);
    ParentsAreFields(context[id]);
    ParentsAreFields(e);
  }

  lemma ParentsAreFields(e: Element)
    ensures LockParents(e) == FieldParents(e.fields)
  {
  }

  lemma {:induction false} MoveUpsertFrom(context: Context, moves: seq<Move>, e: Element) returns (m: Move)
    requires e in MoveUpserts(context, moves)
    ensures m in moves && e in UpsertFromCache(context, m.elementId, map["x" := Num(m.x), "y" := Num(m.y)])
  {
    if e in UpsertFromCache(context, moves[0].elementId, map["x" := Num(moves[0].x), "y" := Num(moves[0].y)]) {
      m := moves[0];
    } else {
      m := MoveUpsertFrom(context, moves[1..], e);
    }
  }

  lemma {:induction false} UpdateUpsertFrom(context: Context, updates: seq<Update>, e: Element) returns (u: Update)
    requires e in UpdateUpserts(context, updates)
    ensures u in updates && e in UpsertFromCache(context, u.elementId, u.fields)
  {
    if e in UpsertFromCache(context, updates[0].elementId, updates[0].fields) {
      u := updates[0];
    } else {
      u := UpdateUpsertFrom(context, updates[1..], e);
    }
  }

  /** The elements an operation writes have containers that can matter. */
  lemma UpsertContainers(start: Context, now: Context, known: set<Id>, containers: set<Id>, touched: set<Id>,
                         context: Context, op: Operation, e: Element)
    requires Traced(start, now, known, containers) && ParentsIn(start, touched) <= containers && TouchedIds(op) <= touched
    requires PartOf(context, now) && PayloadContainers(op) <= containers && e in ToChangeSet(context, op).0
    ensures LockParents(e) <= containers
  {
    hide UpsertFromCache, Traced, ParentsIn, PartOf;
    match op
    case CreateElement(_, data) => ParentsAreFields(data);
    case UpdateElement(id, fields) => CachedUpsert(start, now, known, containers, touched, context, id, fields, e);
    case MoveElements(moves, _) =>
      var m := MoveUpsertFrom(context, moves, e);
      assert m.elementId in TouchedIds(op);
      CachedUpsert(start, now, known, containers, touched, context, m.elementId, map["x" := Num(m.x), "y" := Num(m.y)], e);
    case UpdateElements(updates) =>
      var u := UpdateUpsertFrom(context, updates, e);
      assert u.elementId in TouchedIds(op);
      assert FieldParents(u.fields) <= PayloadContainers(op);
      CachedUpsert(start, now, known, containers, touched, context, u.elementId, u.fields, e);
    case ReorderElement(id, z) => CachedUpsert(start, now, known, containers, touched, context, id, map["zIndex" := Num(z)], e);
    case ReconcileMonthRange(_, upserts, _) =>
      ParentsAreFields(e);
      assert FieldParents(e.fields) <= PayloadContainers(op);
    case _ =>
  }

  lemma LastWinsMember(upserts: seq<Element>, k: Id)
    requires k in LastWins(upserts)
    ensures LastWins(upserts)[k] in upserts
  {
    var i := OrderedMap.ValueIsEntry(ById(upserts), k);
    assert upserts[i] == LastWins(upserts)[k];
  }

  lemma WrittenElement(r: RedisBoard, upserts: seq<Element>, deletes: seq<Id>, now: Time, containers: set<Id>, k: Id)
    requires forall e | e in upserts :: LockParents(e) <= containers
    requires k in LastWins(ToChange(r, upserts, deletes, now).upserts)
    ensures LockParents(LastWins(ToChange(r, upserts, deletes, now).upserts)[k]) <= containers
    ensures k in IdsOf(ToChange(r, upserts, deletes, now).upserts)
  {
    hide LastWins, NormalizedUpserts, Survivors, LockParents, Stamp, IdsOf;
    var ids := CascadeOf(r.elements, deletes);
    NormalizedIsLastWins(upserts);
    SurvivorsLastWins(NormalizedUpserts(upserts), ids, now);
    LastWinsKeyed(ToChange(r, upserts, deletes, now).upserts);
    assert k in StampAll(LastWins(upserts), now);
    LastWinsMember(upserts, k);
    StampKeepsParents(LastWins(upserts)[k], now);
  }

  lemma ChangeTraces(start: Context, r: RedisBoard, known: set<Id>, containers: set<Id>, upserts: seq<Element>, deletes: seq<Id>, now: Time)
    requires Traced(start, r.elements, known, containers) && forall e | e in upserts :: LockParents(e) <= containers
    ensures var c := ToChange(r, upserts, deletes, now);
      Traced(start, HSetAll(r.elements, c.upserts) - c.deletes, known + IdsOf(c.upserts), containers)
  {
    hide LastWins, ToChange, LockParents, IdsOf, HSetAll;
    var c := ToChange(r, upserts, deletes, now);
    HSetAllIsUpdate(r.elements, c.upserts);
    forall k | k in LastWins(c.upserts) ensures k in IdsOf(c.upserts) && LockParents(LastWins(c.upserts)[k]) <= containers {
      WrittenElement(r, upserts, deletes, now, containers, k);
    }
  }

  lemma ProcessTraces(start: Context, r: RedisBoard, known: set<Id>, containers: set<Id>, touched: set<Id>,
                      m: Mutation, context: Context, blocked: bool, mode: Mode, now: Time)
    requires Traced(start, r.elements, known, containers) && ParentsIn(start, touched) <= containers
    requires TouchedIds(m.op) <= touched && PayloadContainers(m.op) <= containers && PartOf(context, r.elements)
    ensures var out := Process(r, m, context, blocked, mode, now);
      Traced(start, out.redis.elements, known + WrittenBy(out.result), containers)
  {
    hide Traced, ParentsIn, PartOf, PayloadContainers, TouchedIds, ToChangeSet, ToChange, HSetAll, LockParents;
    var r1 := r.(seen := r.seen + {m.mutationId});
    var (upserts, deletes) := ToChangeSet(context, m.op);
    forall e | e in upserts ensures LockParents(e) <= containers {
      UpsertContainers(start, r.elements, known, containers, touched, context, m.op, e);
    }
    ChangeTraces(start, r1, known, containers, upserts, deletes, now);
    assert known + {} == known;
  }

  lemma OperationOfBatch(batch: seq<Mutation>, b: BoardId, i: nat)
    requires i < |batch| && batch[i].boardId == b
    ensures TouchedIds(batch[i].op) <= TouchedByAll(OpsOn(batch, b))
    ensures PayloadContainers(batch[i].op) <= PayloadContainersOfAll(OpsOn(batch, b))
    ensures DeletedIds(batch[i].op) <= DeletedByAll(OpsOn(batch, b))
  {
    hide TouchedIds, PayloadContainers, DeletedIds;
    IndicesExact(batch, b, |batch|);
    var indices := IndicesOn(batch, b, |batch|);
    var k :| 0 <= k < |indices| && indices[k] == i;
    assert OpsOn(batch, b)[k] == batch[i].op;
  }

  lemma {:induction false} BatchTraces(r: RedisBoard, batch: seq<Mutation>, b: BoardId, i: nat, st: Setting)
    requires i <= |batch|
    ensures WantedIds(r.elements, OpsOn(batch, b)) <= KnownAt(r, batch, b, i, st)
    ensures Traced(r.elements, CachedAt(r, batch, b, i, st).0.elements, KnownAt(r, batch, b, i, st),
                   Containers(r.elements, OpsOn(batch, b)))
  {
    hide Process, ContextAfter, IsBlocked, WantedIds, OpsOn, PayloadContainers, TouchedIds, WrittenBy;
    if i > 0 {
      BatchTraces(r, batch, b, i - 1, st);
      var (before, context) := CachedAt(r, batch, b, i - 1, st);
      var m := batch[i - 1];
      if m.boardId == b {
        CacheStaysOk(r, batch, b, i - 1, st);
        OperationOfBatch(batch, b, i - 1);
        ParentsOfFewer(r.elements, TouchedByAll(OpsOn(batch, b)), DeletedByAll(OpsOn(batch, b)));
        ProcessTraces(r.elements, before, KnownAt(r, batch, b, i - 1, st), Containers(r.elements, OpsOn(batch, b)),
          TouchedByAll(OpsOn(batch, b)), m, context, IsBlocked(m.op, context), st.modes(b), st.clock(i - 1));
      }
    }
  }

  lemma ParentsOfFewer(board: Context, ids: set<Id>, more: set<Id>)
    ensures ParentsIn(board, ids) <= ParentsIn(board, ids + more)
  {
  }

  lemma ReferencedAreContainers(op: Operation)
    ensures ReferencedMetaIds(op) <= PayloadContainers(op)
  {
    if op.UpdateElements? {
      forall p | p in ReferencedMetaIds(op) ensures p in PayloadContainers(op) {
        var u :| u in op.updates && p in StringAt(u.fields, "metaContainerId");
        assert p in FieldParents(u.fields);
      }
    }
  }

  lemma NeedsAreKnown(start: Context, now: Context, known: set<Id>, wanted: set<Id>, op: Operation,
                      touched: set<Id>, deleted: set<Id>, payload: set<Id>)
    requires Traced(start, now, known, payload + ParentsIn(start, touched + deleted)) && wanted <= known
    requires TouchedIds(op) <= touched <= wanted && DeletedIds(op) <= deleted && ReferencedMetaIds(op) <= payload
    requires (deleted + (payload + ParentsIn(start, touched + deleted))) * start.Keys <= wanted
    ensures Needs(op, now) * now.Keys <= known
  {
    hide TouchedIds, ReferencedMetaIds, LockParents;
    var containers := payload + ParentsIn(start, touched + deleted);
    var ids := TouchedIds(op) + DeletedIds(op);
    assert Needs(op, now) == ids + ParentsIn(now, ids) + ReferencedMetaIds(op);
    forall p | p in now && p in containers + ids ensures p in known {
      assert p in start || p in known;
    }
    forall p | p in ParentsIn(now, ids) ensures p in containers {
      var k :| k in ids && k in now && p in LockParents(now[k]);
      if k in start && now[k] == start[k] {
        assert k in touched + deleted;
        assert p in ParentsIn(start, touched + deleted);
      }
    }
  }

  /** A batch whose loads cover what it deletes and every container that its payloads or the elements it
      touches name gives each of its mutations the verdict of the full board. */
  lemma SelfContainedBatchIsFull(boards: Boards, batch: seq<Mutation>, i: nat, st: Setting)
    requires i < |batch|
    requires SelfContained(At(boards, batch[i].boardId).elements, OpsOn(batch, batch[i].boardId))
    ensures VerdictAt(boards, batch, i, st)
         == IsBlocked(batch[i].op, At(OneByOne(boards, batch, i, st).boards, batch[i].boardId).elements)
  {
    hide CachedAt, OneByOne, IsBlocked, KnownAt, Needs, OpsOn;
    var b, op := batch[i].boardId, batch[i].op;
    var r, ops := At(boards, b), OpsOn(batch, b);
    CachedIsOneByOne(boards, batch, i, st, b);
    BatchTraces(r, batch, b, i, st);
    OperationOfBatch(batch, b, i);
    ReferencedAreContainers(op);
    NeedsAreKnown(r.elements, At(OneByOne(boards, batch, i, st).boards, b).elements, KnownAt(r, batch, b, i, st),
      WantedIds(r.elements, ops), op, TouchedByAll(ops), DeletedByAll(ops), PayloadContainersOfAll(ops));
    BatchVerdictIsExact(boards, batch, i, st);
  }
}
