/** Operations on a board, the lock verdict on them, and the integrity check of a month-range reconcile. */
module LockEnforcement {
  import opened Elements
  import opened BoardState
  import opened Cascade

  datatype Move = Move(elementId: Id, x: real, y: real)
  datatype Update = Update(elementId: Id, fields: Patch)

  datatype Operation =
    | CreateElement(elementId: Id, data: Element)
    | UpdateElement(elementId: Id, fields: Patch)
    | DeleteElements(elementIds: seq<Id>)
    | MoveElements(moves: seq<Move>, transient: bool)
    | UpdateElements(updates: seq<Update>)
    | ReorderElement(elementId: Id, zIndex: real)
    | ReconcileMonthRange(metaId: Id, upserts: seq<Element>, deletes: seq<Id>)

  type Context = map<Id, Element>

  const POSITION_FIELDS: set<string> := {
    "x", "y", "containerId", "containerColumnId", "containerOrder", "metaContainerId", "metaContainerOrder",
    "metaGridCol", "metaGridRow", "metaGridColSpan", "metaGridRowSpan"
  }

  /** The string under a key; unlike a containment edge it may be empty. */
  function StringAt(f: Fields, key: string): set<Id> {
    if key in f && f[key].Str? then {f[key].s} else {}
  }

  function LockParents(e: Element): set<Id> {
    StringAt(e.fields, "containerId") + StringAt(e.fields, "metaContainerId")
  }

  predicate IsLocked(e: Element) {
    "locked" in e.fields && e.fields["locked"] == Bool(true)
  }

  predicate IsManaged(e: Element) {
    "monthRange" in e.fields
  }

  predicate IsManagedRecord(e: Element) {
    "monthRange" in e.fields && (e.fields["monthRange"].Arr? || e.fields["monthRange"].Obj?)
  }

  predicate IsInsideLockedContainer(context: Context, e: Element) {
    exists p | p in LockParents(e) :: p in context && IsLocked(context[p])
  }

  predicate IsInsideManagedMeta(context: Context, e: Element) {
    exists p | p in StringAt(e.fields, "metaContainerId") :: p in context && IsManaged(context[p])
  }

  predicate IsPositionPatch(fields: Patch) {
    fields.Keys * POSITION_FIELDS != {}
  }

  predicate PatchesIntoManagedMeta(context: Context, e: Element, fields: Patch) {
    exists p | p in StringAt(fields, "metaContainerId") ::
      p in context && IsManaged(context[p]) && p !in StringAt(e.fields, "metaContainerId")
  }

  predicate MoveBlocked(context: Context, id: Id) {
    id in context
    && (IsLocked(context[id]) || IsInsideLockedContainer(context, context[id]) || IsInsideManagedMeta(context, context[id]))
  }

  predicate UpdateBlocked(context: Context, id: Id, fields: Patch) {
    IsPositionPatch(fields)
    && (MoveBlocked(context, id) || (id in context && PatchesIntoManagedMeta(context, context[id], fields)))
  }

  predicate DeleteBlocked(context: Context, id: Id, deletedIds: set<Id>) {
    id in context
    && exists p | p in StringAt(context[id].fields, "metaContainerId") ::
         p !in deletedIds && p in context && IsManaged(context[p])
  }

  predicate IsBlocked(op: Operation, context: Context) {
    match op
    case MoveElements(moves, _) => exists m | m in moves :: MoveBlocked(context, m.elementId)
    case UpdateElement(id, fields) => UpdateBlocked(context, id, fields)
    case UpdateElements(updates) => exists u | u in updates :: UpdateBlocked(context, u.elementId, u.fields)
    case CreateElement(_, data) => IsInsideManagedMeta(context, data)
    case DeleteElements(ids) => exists id | id in ids :: DeleteBlocked(context, id, SetOf(ids))
    case ReorderElement(_, _) => false
    case ReconcileMonthRange(_, _, _) => false
  }

  // ----- What a verdict depends on -----

  /** The elements an operation reads from its context. */
  function TouchedIds(op: Operation): set<Id> {
    match op
    case UpdateElement(id, _) => {id}
    case ReorderElement(id, _) => {id}
    case MoveElements(moves, _) => set m | m in moves :: m.elementId
    case UpdateElements(updates) => set u | u in updates :: u.elementId
    case ReconcileMonthRange(metaId, _, deletes) => {metaId} + SetOf(deletes)
    case CreateElement(_, _) => {}
    case DeleteElements(_) => {}
  }

  /** The metas its payload refers to. */
  function ReferencedMetaIds(op: Operation): set<Id> {
    match op
    case CreateElement(_, data) => StringAt(data.fields, "metaContainerId")
    case UpdateElement(_, fields) => StringAt(fields, "metaContainerId")
    case UpdateElements(updates) => set u, p | u in updates && p in StringAt(u.fields, "metaContainerId") :: p
    case _ => {}
  }

  /** A context with some elements of the board. */
  ghost predicate PartOf(context: Context, board: Context) {
    forall k | k in context :: k in board && context[k] == board[k]
  }

  ghost predicate Loads(context: Context, board: Context, ids: set<Id>) {
    forall k | k in ids && k in board :: k in context
  }

  function ParentsIn(board: Context, ids: set<Id>): set<Id> {
    set k, p | k in ids && k in board && p in LockParents(board[k]) :: p
  }

  /** All a verdict depends on: touched elements, the elements a delete names, their parents, referenced metas. */
  function Needs(op: Operation, board: Context): set<Id> {
    var ids := TouchedIds(op) + if op.DeleteElements? then SetOf(op.elementIds) else {};
    ids + ParentsIn(board, ids) + ReferencedMetaIds(op)
  }

  /** A smaller context never blocks more. */
  lemma FewerElementsNeverBlock(op: Operation, context: Context, board: Context)
    requires PartOf(context, board)
    ensures IsBlocked(op, context) ==> IsBlocked(op, board)
  {
  }

  lemma MoveVerdict(context: Context, board: Context, id: Id)
    requires PartOf(context, board) && (id in board ==> id in context && Loads(context, board, LockParents(board[id])))
    ensures MoveBlocked(context, id) == MoveBlocked(board, id)
  {
  }

  lemma UpdateVerdict(context: Context, board: Context, id: Id, fields: Patch)
    requires PartOf(context, board) && (id in board ==> id in context && Loads(context, board, LockParents(board[id])))
    requires Loads(context, board, StringAt(fields, "metaContainerId"))
    ensures UpdateBlocked(context, id, fields) == UpdateBlocked(board, id, fields)
  {
    MoveVerdict(context, board, id);
    if id in board {
      assert PatchesIntoManagedMeta(context, context[id], fields) == PatchesIntoManagedMeta(board, board[id], fields);
    }
  }

  lemma DeleteVerdict(context: Context, board: Context, id: Id, ids: set<Id>)
    requires PartOf(context, board) && (id in board ==> id in context && Loads(context, board, LockParents(board[id])))
    ensures DeleteBlocked(context, id, ids) == DeleteBlocked(board, id, ids)
  {
  }

  /** With what it depends on loaded, the verdict is the board's. */
  lemma VerdictNeedsOnly(op: Operation, context: Context, board: Context)
    requires PartOf(context, board) && Loads(context, board, Needs(op, board))
    ensures IsBlocked(op, context) == IsBlocked(op, board)
  {
    var ids := TouchedIds(op) + if op.DeleteElements? then SetOf(op.elementIds) else {};
    forall id | id in ids && id in board ensures id in context && Loads(context, board, LockParents(board[id])) {
      assert id in Needs(op, board);
      forall p | p in LockParents(board[id]) ensures p in Needs(op, board) {
        assert p in ParentsIn(board, ids);
      }
    }
    match op
    case MoveElements(moves, _) =>
      forall m | m in moves ensures MoveBlocked(board, m.elementId) == MoveBlocked(context, m.elementId) {
        assert m.elementId in ids;
        MoveVerdict(context, board, m.elementId);
      }
    case UpdateElement(id, fields) =>
      assert id in ids;
      UpdateVerdict(context, board, id, fields);
    case UpdateElements(updates) =>
      forall u | u in updates ensures UpdateBlocked(board, u.elementId, u.fields) == UpdateBlocked(context, u.elementId, u.fields) {
        assert u.elementId in ids;
        assert forall p | p in StringAt(u.fields, "metaContainerId") :: p in ReferencedMetaIds(op);
        UpdateVerdict(context, board, u.elementId, u.fields);
      }
    case DeleteElements(del) =>
      forall id | id in del ensures DeleteBlocked(board, id, SetOf(del)) == DeleteBlocked(context, id, SetOf(del)) {
        assert id in ids;
        DeleteVerdict(context, board, id, SetOf(del));
      }
    case CreateElement(_, data) =>
      assert Loads(context, board, StringAt(data.fields, "metaContainerId"));
    case _ =>
  }

  // ----- Why an operation is blocked -----

  /** `p` keeps element `id` from being moved: it is the element itself, or a container of it. */
  ghost predicate HoldsStill(context: Context, id: Id, p: Id) {
    && id in context && p in context
    && ((p == id && IsLocked(context[id]))
        || (p in LockParents(context[id]) && IsLocked(context[p]))
        || (p in StringAt(context[id].fields, "metaContainerId") && IsManaged(context[p])))
  }

  ghost predicate BlocksUpdate(context: Context, id: Id, fields: Patch, p: Id) {
    && IsPositionPatch(fields)
    && (HoldsStill(context, id, p)
        || (id in context && p in context && IsManaged(context[p])
            && p in StringAt(fields, "metaContainerId") && p !in StringAt(context[id].fields, "metaContainerId")))
  }

  /** The reason for a block: an element of the operation and what blocks it. A create is blocked by a meta alone. */
  ghost predicate Blocks(op: Operation, context: Context, id: Id, p: Id) {
    match op
    case MoveElements(moves, _) => (exists m | m in moves :: m.elementId == id) && HoldsStill(context, id, p)
    case UpdateElement(e, fields) => e == id && BlocksUpdate(context, id, fields, p)
    case UpdateElements(updates) => exists u | u in updates :: u.elementId == id && BlocksUpdate(context, id, u.fields, p)
    case CreateElement(_, data) => id == p && p in context && p in StringAt(data.fields, "metaContainerId") && IsManaged(context[p])
    case DeleteElements(ids) =>
      && id in ids && id in context && p in context && p !in SetOf(ids)
      && p in StringAt(context[id].fields, "metaContainerId") && IsManaged(context[p])
    case _ => false
  }

  lemma MoveBlockedIff(context: Context, id: Id)
    ensures MoveBlocked(context, id) <==> exists p :: HoldsStill(context, id, p)
  {
    if id in context && IsLocked(context[id]) {
      assert HoldsStill(context, id, id);
    }
    if id in context && IsInsideLockedContainer(context, context[id]) {
      var p :| p in LockParents(context[id]) && p in context && IsLocked(context[p]);
      assert HoldsStill(context, id, p);
    }
    if id in context && IsInsideManagedMeta(context, context[id]) {
      var p :| p in StringAt(context[id].fields, "metaContainerId") && p in context && IsManaged(context[p]);
      assert HoldsStill(context, id, p);
    }
  }

  lemma UpdateBlockedIff(context: Context, id: Id, fields: Patch)
    ensures UpdateBlocked(context, id, fields) <==> exists p :: BlocksUpdate(context, id, fields, p)
  {
    MoveBlockedIff(context, id);
    if UpdateBlocked(context, id, fields) {
      if MoveBlocked(context, id) {
        var p :| HoldsStill(context, id, p);
        assert BlocksUpdate(context, id, fields, p);
      } else {
        var p :| p in StringAt(fields, "metaContainerId") && p in context && IsManaged(context[p])
          && p !in StringAt(context[id].fields, "metaContainerId");
        assert BlocksUpdate(context, id, fields, p);
      }
    }
  }

  /** An operation is blocked exactly when there is a reason. */
  lemma BlockedIffReason(op: Operation, context: Context)
    ensures IsBlocked(op, context) <==> exists id, p :: Blocks(op, context, id, p)
  {
    hide MoveBlocked, UpdateBlocked, HoldsStill, BlocksUpdate;
    match op
    case MoveElements(moves, _) =>
      if m :| m in moves && MoveBlocked(context, m.elementId) {
        MoveBlockedIff(context, m.elementId);
        var p :| HoldsStill(context, m.elementId, p);
        assert Blocks(op, context, m.elementId, p);
      }
      if id, p :| Blocks(op, context, id, p) {
        var m :| m in moves && m.elementId == id;
        MoveBlockedIff(context, id);
      }
    case UpdateElement(id, fields) =>
      UpdateBlockedIff(context, id, fields);
      if p :| BlocksUpdate(context, id, fields, p) {
        assert Blocks(op, context, id, p);
      }
    case UpdateElements(updates) =>
      if u :| u in updates && UpdateBlocked(context, u.elementId, u.fields) {
        UpdateBlockedIff(context, u.elementId, u.fields);
        var p :| BlocksUpdate(context, u.elementId, u.fields, p);
        assert Blocks(op, context, u.elementId, p);
      }
      if id, p :| Blocks(op, context, id, p) {
        var u :| u in updates && u.elementId == id && BlocksUpdate(context, id, u.fields, p);
        UpdateBlockedIff(context, id, u.fields);
      }
    case CreateElement(_, data) =>
      if p :| p in StringAt(data.fields, "metaContainerId") && p in context && IsManaged(context[p]) {
        assert Blocks(op, context, p, p);
      }
      if id, p :| Blocks(op, context, id, p) {
        assert p in StringAt(data.fields, "metaContainerId") && p in context;
      }
    case DeleteElements(ids) =>
      if id :| id in ids && DeleteBlocked(context, id, SetOf(ids)) {
        var p :| p in StringAt(context[id].fields, "metaContainerId") && p !in SetOf(ids) && p in context && IsManaged(context[p]);
        assert Blocks(op, context, id, p);
      }
      if id, p :| Blocks(op, context, id, p) {
        assert DeleteBlocked(context, id, SetOf(ids));
      }
    case _ =>
  }

  /** A part of the board has exactly the reasons whose two elements it holds. */
  lemma ReasonsOfPart(op: Operation, context: Context, board: Context, id: Id, p: Id)
    requires PartOf(context, board)
    ensures Blocks(op, context, id, p) <==> Blocks(op, board, id, p) && id in context && p in context
  {
    if op.UpdateElements? && Blocks(op, board, id, p) && id in context && p in context {
      var u :| u in op.updates && u.elementId == id && BlocksUpdate(board, id, u.fields, p);
      assert BlocksUpdate(context, id, u.fields, p);
    }
    if op.UpdateElements? && Blocks(op, context, id, p) {
      var u :| u in op.updates && u.elementId == id && BlocksUpdate(context, id, u.fields, p);
      assert BlocksUpdate(board, id, u.fields, p);
    }
  }

  // ----- Month-range reconcile -----

  datatype ReconcileError =
    | MetaNotManaged
    | UpsertsEmpty
    | DuplicateUpsert
    | MetaUpsertNotManaged
    | UpsertOutsideMeta
    | NotExactlyOneMeta
    | DeletesMeta
    | DuplicateDelete
    | Overlap
    | DeleteOutsideMeta

  predicate InMeta(e: Element, metaId: Id) {
    "metaContainerId" in e.fields && e.fields["metaContainerId"] == Str(metaId)
  }

  predicate UpsertFits(e: Element, metaId: Id) {
    if IdOf(e) == metaId then IsManagedRecord(e) else InMeta(e, metaId)
  }

  predicate DeleteFits(id: Id, metaId: Id, context: Context) {
    id != metaId && (id in context ==> InMeta(context[id], metaId))
  }

  ghost predicate DistinctIds(upserts: seq<Element>) {
    forall i, j | 0 <= i < j < |upserts| :: IdOf(upserts[i]) != IdOf(upserts[j])
  }

  /** A self-consistent reconcile: it never hijacks a plain meta, upserts exactly one managed
      meta and elements inside it, and deletes only distinct elements inside it. */
  ghost predicate Consistent(metaId: Id, upserts: seq<Element>, deletes: seq<Id>, context: Context) {
    && (metaId in context ==> IsManagedRecord(context[metaId]))
    && DistinctIds(upserts) && NoDuplicates(deletes)
    && metaId in IdsOf(upserts)
    && (forall u | u in upserts :: UpsertFits(u, metaId))
    && (forall id | id in deletes :: DeleteFits(id, metaId, context) && id !in IdsOf(upserts))
  }

  lemma IdsOfSnoc(upserts: seq<Element>, e: Element)
    ensures IdsOf(upserts + [e]) == IdsOf(upserts) + {IdOf(e)}
  {
    assert forall i | 0 <= i < |upserts| :: ById(upserts + [e])[i] == ById(upserts)[i];
    assert ById(upserts + [e])[|upserts|].0 == IdOf(e);
  }

  lemma IdsOfMembers(upserts: seq<Element>)
    ensures forall i | 0 <= i < |upserts| :: IdOf(upserts[i]) in IdsOf(upserts)
  {
    assert forall i | 0 <= i < |upserts| :: ById(upserts)[i].0 == IdOf(upserts[i]);
  }

  method CheckUpserts(metaId: Id, upserts: seq<Element>) returns (error: Option<ReconcileError>)
    ensures error.None? <==> DistinctIds(upserts) && metaId in IdsOf(upserts) && forall u | u in upserts :: UpsertFits(u, metaId)
  {
    if |upserts| == 0 {
      return Some(UpsertsEmpty);
    }
    var upsertIds: set<Id>, metaUpsertCount := {}, 0;
    for i := 0 to |upserts|
      invariant upsertIds == IdsOf(upserts[..i]) && DistinctIds(upserts[..i])
      invariant metaUpsertCount == if metaId in upsertIds then 1 else 0
      invariant forall u | u in upserts[..i] :: UpsertFits(u, metaId)
    {
      var e := upserts[i];
      IdsOfSnoc(upserts[..i], e);
      IdsOfMembers(upserts[..i]);
      assert upserts[..i + 1] == upserts[..i] + [e];
      if IdOf(e) in upsertIds {
        return Some(DuplicateUpsert);
      }
      upsertIds := upsertIds + {IdOf(e)};
      assert forall j | 0 <= j < i :: upserts[j] in upserts[..i];
      if IdOf(e) == metaId {
        metaUpsertCount := metaUpsertCount + 1;
        if !IsManagedRecord(e) {
          assert e in upserts && !UpsertFits(e, metaId);
          return Some(MetaUpsertNotManaged);
        }
      } else if !InMeta(e, metaId) {
        assert e in upserts && !UpsertFits(e, metaId);
        return Some(UpsertOutsideMeta);
      }
    }
    assert upserts[..|upserts|] == upserts;
    error := if metaUpsertCount != 1 then Some(NotExactlyOneMeta) else None;
  }

  method CheckDeletes(metaId: Id, upsertIds: set<Id>, deletes: seq<Id>, context: Context) returns (error: Option<ReconcileError>)
    ensures error.None? <==>
      NoDuplicates(deletes) && forall id | id in deletes :: DeleteFits(id, metaId, context) && id !in upsertIds
  {
    var deleteIds: set<Id> := {};
    for i := 0 to |deletes|
      invariant deleteIds == SetOf(deletes[..i]) && NoDuplicates(deletes[..i])
      invariant forall id | id in deletes[..i] :: DeleteFits(id, metaId, context) && id !in upsertIds
    {
      var id := deletes[i];
      SetOfAppend(deletes[..i], id);
      assert deletes[..i + 1] == deletes[..i] + [id];
      assert id in deletes;
      if id == metaId {
        assert !DeleteFits(id, metaId, context);
        return Some(DeletesMeta);
      }
      if id in deleteIds {
        return Some(DuplicateDelete);
      }
      deleteIds := deleteIds + {id};
      if id in upsertIds {
        return Some(Overlap);
      }
      if id in context && !InMeta(context[id], metaId) {
        assert !DeleteFits(id, metaId, context);
        return Some(DeleteOutsideMeta);
      }
    }
    assert deletes[..|deletes|] == deletes;
    error := None;
  }

  /** The validation accepts exactly the self-consistent reconciles. */
  method ValidateReconcileMonthRange(metaId: Id, upserts: seq<Element>, deletes: seq<Id>, context: Context)
    returns (error: Option<ReconcileError>)
    ensures error.None? <==> Consistent(metaId, upserts, deletes, context)
  {
    if metaId in context && !IsManagedRecord(context[metaId]) {
      return Some(MetaNotManaged);
    }
    error := CheckUpserts(metaId, upserts);
    if error.None? {
      error := CheckDeletes(metaId, IdsOf(upserts), deletes, context);
    }
  }

  /** The validation reads only the touched elements. */
  lemma ConsistencyNeedsOnlyTouched(op: Operation, context: Context, board: Context)
    requires op.ReconcileMonthRange?
    requires PartOf(context, board) && Loads(context, board, TouchedIds(op))
    ensures Consistent(op.metaId, op.upserts, op.deletes, context) <==> Consistent(op.metaId, op.upserts, op.deletes, board)
  {
    assert op.metaId in TouchedIds(op);
    forall id | id in op.deletes
      ensures DeleteFits(id, op.metaId, context) == DeleteFits(id, op.metaId, board)
    {
      assert id in TouchedIds(op);
    }
  }
}
