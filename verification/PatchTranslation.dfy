/** The element PATCH route: upserts and deletes become a batch of mutations, which must mean
    the same as one change set. */
module PatchTranslation {
  import opened Elements
  import opened Cascade
  import opened BoardState
  import opened LockEnforcement
  import opened Processor
  import opened Batch

  // ----- The sorted cascade -----

  /** The order of strings by their characters. */
  predicate AtMost(a: string, b: string) {
    a == [] || (b != [] && (a[0] < b[0] || (a[0] == b[0] && AtMost(a[1..], b[1..]))))
  }

  lemma {:induction false} AtMostIsTotalOrder(a: string, b: string, c: string)
    ensures AtMost(a, b) || AtMost(b, a)
    ensures AtMost(a, b) && AtMost(b, c) ==> AtMost(a, c)
    ensures AtMost(a, b) && AtMost(b, a) ==> a == b
    decreases |a|
  {
    if a != [] && b != [] {
      AtMostIsTotalOrder(a[1..], b[1..], if c == [] then [] else c[1..]);
      assert a == [a[0]] + a[1..] && b == [b[0]] + b[1..];
    }
  }

  ghost predicate Sorted(ids: seq<Id>) {
    forall i, j | 0 <= i < j < |ids| :: AtMost(ids[i], ids[j])
  }

  method InsertSorted(ids: seq<Id>, id: Id) returns (r: seq<Id>)
    requires Sorted(ids) && NoDuplicates(ids) && id !in ids
    ensures Sorted(r) && NoDuplicates(r) && SetOf(r) == SetOf(ids) + {id}
  {
    var k := 0;
    while k < |ids| && AtMost(ids[k], id)
      invariant 0 <= k <= |ids|
      invariant forall j | 0 <= j < k :: AtMost(ids[j], id)
    {
      k := k + 1;
    }
    r := ids[..k] + [id] + ids[k..];
    forall j | k <= j < |ids| ensures AtMost(id, ids[j]) {
      AtMostIsTotalOrder(id, ids[k], ids[j]);
    }
    InsertedSorted(ids, id, k);
  }

  lemma InsertedSorted(ids: seq<Id>, id: Id, k: nat)
    requires Sorted(ids) && NoDuplicates(ids) && id !in ids && k <= |ids|
    requires (forall j | 0 <= j < k :: AtMost(ids[j], id)) && (forall j | k <= j < |ids| :: AtMost(id, ids[j]))
    ensures var r := ids[..k] + [id] + ids[k..]; Sorted(r) && NoDuplicates(r) && SetOf(r) == SetOf(ids) + {id}
  {
    hide AtMost;
    var r := ids[..k] + [id] + ids[k..];
    assert forall j | 0 <= j < |r| :: r[j] == if j < k then ids[j] else if j == k then id else ids[j - 1];
    assert ids == ids[..k] + ids[k..];
  }

  /** Deleted ids, and the part of them still to expand. */
  ghost predicate Worklist(deletes: seq<Id>, pending: seq<Id>) {
    NoDuplicates(deletes) && NoDuplicates(pending) && SetOf(pending) <= SetOf(deletes)
  }

  lemma PushKeeps(deletes: seq<Id>, pending: seq<Id>, id: Id)
    requires Worklist(deletes, pending) && id !in deletes
    ensures Worklist(deletes + [id], pending + [id])
    ensures SetOf(deletes + [id]) == SetOf(deletes) + {id}
    ensures SetOf(deletes + [id]) - SetOf(pending + [id]) == SetOf(deletes) - SetOf(pending)
  {
    SetOfAppend(deletes, id);
    SetOfAppend(pending, id);
    assert id !in SetOf(deletes);
    assert id in pending ==> id in SetOf(pending);
  }

  /** The inner loop: push the children not deleted yet. */
  method PushChildren(children: seq<Id>, deletes0: seq<Id>, pending0: seq<Id>) returns (deletes: seq<Id>, pending: seq<Id>)
    requires Worklist(deletes0, pending0)
    ensures Worklist(deletes, pending) && SetOf(deletes) == SetOf(deletes0) + SetOf(children)
    ensures SetOf(deletes) - SetOf(pending) == SetOf(deletes0) - SetOf(pending0)
  {
    deletes, pending := deletes0, pending0;
    for j := 0 to |children|
      invariant Worklist(deletes, pending) && SetOf(deletes) == SetOf(deletes0) + SetOf(children[..j])
      invariant SetOf(deletes) - SetOf(pending) == SetOf(deletes0) - SetOf(pending0)
    {
      SetOfAppend(children[..j], children[j]);
      assert children[..j + 1] == children[..j] + [children[j]];
      if children[j] in deletes {
        assert children[j] in SetOf(deletes);
      } else {
        PushKeeps(deletes, pending, children[j]);
        deletes := deletes + [children[j]];
        pending := pending + [children[j]];
      }
    }
    assert children[..|children|] == children;
  }

  /** The worklist of the board routes, a copy of the engine's. */
  method CollectCascadeDeleteIds(allElements: Context, requestedDeletes: seq<Id>) returns (deletes: seq<Id>)
    ensures NoDuplicates(deletes)
    ensures SetOf(deletes) == Closure(allElements.Values, SetOf(requestedDeletes))
  {
    hide Indexes, Closure, ChildIds;
    ghost var board, goal := allElements.Values, Closure(allElements.Values, SetOf(requestedDeletes));
    ClosureIsLeast(board, SetOf(requestedDeletes));
    var elements := ObjectValues(allElements);
    var containedByColumn, columnsByMeta := IndexChildren(elements);
    deletes := Dedupe(requestedDeletes);
    var pending := deletes;
    NoChildren(board);
    while |pending| > 0
      invariant Worklist(deletes, pending) && SetOf(requestedDeletes) <= SetOf(deletes) <= goal
      invariant ChildIds(board, SetOf(deletes) - SetOf(pending)) <= SetOf(deletes)
      decreases goal - (SetOf(deletes) - SetOf(pending))
    {
      var currentId := pending[0];
      ghost var expanded := SetOf(deletes) - SetOf(pending);
      HeadOfWorklist(pending);
      assert currentId in SetOf(pending);
      pending := pending[1..];
      assert SetOf(deletes) - SetOf(pending) == expanded + {currentId};
      ChildrenAreFiled(board, containedByColumn, columnsByMeta, currentId);
      ChildrenOfMore(board, expanded, currentId, goal);
      var children := Filed(containedByColumn, currentId) + Filed(columnsByMeta, currentId);
      deletes, pending := PushChildren(children, deletes, pending);
    }
    assert SetOf(pending) == {} && SetOf(deletes) - {} == SetOf(deletes);
  }

  lemma NoChildren(board: set<Element>)
    ensures ChildIds(board, {}) == {}
    ensures forall s: set<Id> :: s - s == {}
  {
  }

  lemma HeadOfWorklist(pending: seq<Id>)
    requires NoDuplicates(pending) && pending != []
    ensures NoDuplicates(pending[1..]) && SetOf(pending[1..]) == SetOf(pending) - {pending[0]}
  {
    assert pending == [pending[0]] + pending[1..];
  }

  lemma ChildrenOfMore(board: set<Element>, s: set<Id>, id: Id, goal: set<Id>)
    requires Closed(board, goal)
    ensures ChildIds(board, s + {id}) == ChildIds(board, s) + ChildIds(board, {id})
    ensures id in goal ==> ChildIds(board, {id}) <= goal
  {
    forall e | e in board ensures ParentIds(e) * (s + {id}) != {} <==> ParentIds(e) * s != {} || ParentIds(e) * {id} != {} {
      assert ParentIds(e) * (s + {id}) == ParentIds(e) * s + ParentIds(e) * {id};
    }
    if id in goal {
      assert ChildIds(board, {id}) <= ChildIds(board, goal);
    }
  }

  /** The collected ids, sorted. */
  method CollectSortedDeleteIds(allElements: Context, requestedDeletes: seq<Id>) returns (deletes: seq<Id>)
    ensures Sorted(deletes) && NoDuplicates(deletes)
    ensures SetOf(deletes) == Closure(allElements.Values, SetOf(requestedDeletes))
  {
    var collected := CollectCascadeDeleteIds(allElements, requestedDeletes);
    deletes := [];
    for i := 0 to |collected|
      invariant Sorted(deletes) && NoDuplicates(deletes) && SetOf(deletes) == SetOf(collected[..i])
    {
      SetOfAppend(collected[..i], collected[i]);
      assert collected[..i + 1] == collected[..i] + [collected[i]];
      assert collected[i] !in SetOf(collected[..i]);
      assert collected[i] !in deletes;
      deletes := InsertSorted(deletes, collected[i]);
    }
    assert collected[..|collected|] == collected;
  }

  // ----- The translation -----

  function Kept(upserts: seq<Element>, deleted: set<Id>): seq<Element> {
    if upserts == [] then []
    else (if IdOf(upserts[0]) in deleted then [] else [upserts[0]]) + Kept(upserts[1..], deleted)
  }

  function Deletion(b: BoardId, ids: seq<Id>, uuid: nat -> MutationId): seq<Mutation> {
    if ids == [] then [] else [Mutation(uuid(0), b, DeleteElements(ids))]
  }

  function Creation(b: BoardId, e: Element, id: MutationId): Mutation {
    Mutation(id, b, CreateElement(IdOf(e), e))
  }

  function Creations(b: BoardId, kept: seq<Element>, uuid: nat -> MutationId, off: nat): seq<Mutation> {
    seq(|kept|, i requires 0 <= i < |kept| => Creation(b, kept[i], uuid(off + i)))
  }

  function Translated(b: BoardId, ids: seq<Id>, kept: seq<Element>, uuid: nat -> MutationId): seq<Mutation> {
    Deletion(b, ids, uuid) + Creations(b, kept, uuid, |Deletion(b, ids, uuid)|)
  }

  /** One delete of the sorted cascade, if there is any, then a create for each upsert it spares. */
  ghost predicate Translates(batch: seq<Mutation>, b: BoardId, current: Context, upserts: seq<Element>, deletes: seq<Id>,
                             uuid: nat -> MutationId, ids: seq<Id>)
  {
    && Sorted(ids) && NoDuplicates(ids) && SetOf(ids) == Closure(current.Values, SetOf(deletes))
    && batch == Translated(b, ids, Kept(upserts, SetOf(ids)), uuid)
  }

  method BuildElementMutationBatch(b: BoardId, current: Context, upserts: seq<Element>, deletes: seq<Id>, uuid: nat -> MutationId)
    returns (mutations: seq<Mutation>)
    ensures exists ids :: Translates(mutations, b, current, upserts, deletes, uuid, ids)
  {
    var deleteIds := CollectSortedDeleteIds(current, deletes);
    var deletedIdSet := SetOf(deleteIds);
    mutations := [];
    if |deleteIds| > 0 {
      mutations := mutations + [Mutation(uuid(0), b, DeleteElements(deleteIds))];
    }
    for i := 0 to |upserts|
      invariant mutations == Translated(b, deleteIds, Kept(upserts[..i], deletedIdSet), uuid)
    {
      KeptSnoc(upserts[..i], upserts[i], deletedIdSet);
      assert upserts[..i + 1] == upserts[..i] + [upserts[i]];
      if IdOf(upserts[i]) !in deletedIdSet {
        TranslatedSnoc(b, deleteIds, Kept(upserts[..i], deletedIdSet), upserts[i], uuid);
        mutations := mutations + [Creation(b, upserts[i], uuid(|mutations|))];
      }
    }
    assert upserts[..|upserts|] == upserts;
    assert Translates(mutations, b, current, upserts, deletes, uuid, deleteIds);
  }

  lemma {:induction false} KeptSnoc(upserts: seq<Element>, e: Element, deleted: set<Id>)
    ensures Kept(upserts + [e], deleted) == Kept(upserts, deleted) + (if IdOf(e) in deleted then [] else [e])
  {
    if upserts == [] {
      assert (upserts + [e])[1..] == [];
    } else {
      assert (upserts + [e])[1..] == upserts[1..] + [e];
      KeptSnoc(upserts[1..], e, deleted);
    }
  }

  lemma TranslatedSnoc(b: BoardId, ids: seq<Id>, kept: seq<Element>, e: Element, uuid: nat -> MutationId)
    ensures Translated(b, ids, kept + [e], uuid)
         == Translated(b, ids, kept, uuid) + [Creation(b, e, uuid(|Translated(b, ids, kept, uuid)|))]
  {
  }

  lemma DropCons(k: Id, e: Element, m: Context, drop: set<Id>)
    ensures k in drop ==> map[k := e] + m - drop == m - drop
    ensures k !in drop ==> map[k := e] + m - drop == map[k := e] + (m - drop)
  {
  }

  /** The upserts the translation keeps are, per id, the last ones that are not deleted. */
  lemma {:induction false} KeptLastWins(upserts: seq<Element>, deleted: set<Id>)
    ensures LastWins(Kept(upserts, deleted)) == LastWins(upserts) - deleted
  {
    if upserts == [] {
      assert LastWins([]) - deleted == LastWins([]);
    } else {
      hide LastWins;
      var e := upserts[0];
      KeptLastWins(upserts[1..], deleted);
      assert upserts == [e] + upserts[1..];
      assert [] + Kept(upserts[1..], deleted) == Kept(upserts[1..], deleted);
      LastWinsCons(e, upserts[1..]);
      LastWinsCons(e, Kept(upserts[1..], deleted));
      DropCons(IdOf(e), e, LastWins(upserts[1..]), deleted);
    }
  }

  // ----- What the batch does -----

  /** An earlier upsert of the batch is a managed month-range meta, and `e` names it. */
  predicate InEarlierMeta(earlier: seq<Element>, e: Element) {
    exists p | p in StringAt(e.fields, "metaContainerId") :: p in LastWins(earlier) && IsManaged(LastWins(earlier)[p])
  }

  /** The creates that are not blocked by an earlier one. */
  function Admitted(kept: seq<Element>, n: nat): seq<Element>
    requires n <= |kept|
  {
    if n == 0 then []
    else
      var before := Admitted(kept, n - 1);
      if InEarlierMeta(before, kept[n - 1]) then before else before + [kept[n - 1]]
  }

  /** No upsert names an earlier managed month-range meta of the same request. */
  ghost predicate NoneInEarlierMeta(kept: seq<Element>) {
    forall i | 0 <= i < |kept| :: !InEarlierMeta(kept[..i], kept[i])
  }

  lemma {:induction false} AdmittedAtMost(kept: seq<Element>, n: nat)
    requires n <= |kept|
    ensures |Admitted(kept, n)| <= n
    ensures forall e | e in Admitted(kept, n) :: e in kept
  {
    hide InEarlierMeta;
    if n > 0 {
      AdmittedAtMost(kept, n - 1);
    }
  }

  lemma {:induction false} AdmittedAll(kept: seq<Element>, n: nat)
    requires n <= |kept|
    ensures Admitted(kept, n) == kept[..n] <==> forall i | 0 <= i < n :: !InEarlierMeta(kept[..i], kept[i])
  {
    hide InEarlierMeta;
    if n > 0 {
      AdmittedAll(kept, n - 1);
      AdmittedAtMost(kept, n - 1);
      assert kept[..n] == kept[..n - 1] + [kept[n - 1]];
      if Admitted(kept, n) == kept[..n] {
        assert Admitted(kept, n)[..n - 1] == kept[..n - 1];
      }
    }
  }

  lemma {:induction false} KeptAll(upserts: seq<Element>)
    ensures Kept(upserts, {}) == upserts
  {
    if upserts != [] {
      KeptAll(upserts[1..]);
    }
  }

  lemma ContentsUpdate(m: Context, id: Id, e: Element, now: Time)
    ensures Contents(m[id := Stamp(e, now)]) == Contents(m)[id := Content(e)]
    ensures Contents(m[id := e]) == Contents(m)[id := Content(e)]
  {
    assert Content(Stamp(e, now)) == Content(e);
  }

  /** Only the contents of a context matter to the verdict on a create. */
  lemma CreateVerdict(context: Context, earlier: seq<Element>, e: Element)
    requires Contents(context) == Contents(LastWins(earlier))
    ensures IsBlocked(CreateElement(IdOf(e), e), context) == InEarlierMeta(earlier, e)
  {
    forall p ensures p in context && IsManaged(context[p]) <==> p in LastWins(earlier) && IsManaged(LastWins(earlier)[p]) {
      assert p in Contents(context) <==> p in context;
      assert p in Contents(LastWins(earlier)) <==> p in LastWins(earlier);
      if p in context {
        assert Contents(context)[p] == Contents(LastWins(earlier))[p];
        assert "monthRange" in context[p].fields <==> "monthRange" in Content(context[p]);
        assert "monthRange" in LastWins(earlier)[p].fields <==> "monthRange" in Content(LastWins(earlier)[p]);
      }
    }
  }

  /** The reference after some of the batch: the contents on the board and in the cache. */
  ghost predicate AfterCreates(now: RedisBoard, context: Context, base: Context, admitted: seq<Element>) {
    && Keyed(now.elements)
    && Contents(now.elements) == Contents(base) + Contents(LastWins(admitted))
    && Contents(context) == Contents(LastWins(admitted))
  }

  lemma OneCreate(r: RedisBoard, context: Context, base: Context, admitted: seq<Element>, m: Mutation, e: Element, mode: Mode, now: Time)
    requires AfterCreates(r, context, base, admitted)
    requires m.op == CreateElement(IdOf(e), e) && m.mutationId !in r.seen
    ensures var out := Process(r, m, context, IsBlocked(m.op, context), mode, now);
      && out.redis.seen == r.seen + {m.mutationId}
      && (out.applied <==> !InEarlierMeta(admitted, e))
      && AfterCreates(out.redis, ContextAfter(context, out.result), base,
                      if InEarlierMeta(admitted, e) then admitted else admitted + [e])
  {
    hide IsBlocked, InEarlierMeta, HSetAll, LastWins, AppliedChangeSet, Contents;
    CreateVerdict(context, admitted, e);
    var r1 := r.(seen := r.seen + {m.mutationId});
    assert ToChangeSet(context, m.op) == ([e], []);
    if !InEarlierMeta(admitted, e) {
      OneAdmitted(r1, context, base, admitted, e, mode.Collab?, now);
    }
  }

  lemma CreatesSnoc(elements: Context, context: Context, base: Context, admitted: seq<Element>, e: Element, now: Time)
    requires Contents(elements) == Contents(base) + Contents(LastWins(admitted))
    requires Contents(context) == Contents(LastWins(admitted))
    ensures Contents(elements[IdOf(e) := Stamp(e, now)]) == Contents(base) + Contents(LastWins(admitted + [e]))
    ensures Contents(context[IdOf(e) := Stamp(e, now)]) == Contents(LastWins(admitted + [e]))
  {
    hide LastWins, Content, Stamp, Contents;
    LastWinsSnoc(admitted, e);
    ContentsUpdate(elements, IdOf(e), e, now);
    ContentsUpdate(context, IdOf(e), e, now);
    ContentsUpdate(LastWins(admitted), IdOf(e), e, now);
    OrderedMap.UpdateRight(Contents(base), Contents(LastWins(admitted)), IdOf(e), Content(e));
  }

  lemma SetOne(context: Context, c: Change, e: Element, now: Time)
    requires c.deletes == {} && LastWins(c.upserts) == map[IdOf(e) := Stamp(e, now)]
    ensures HSetAll(context, c.upserts) - c.deletes == context[IdOf(e) := Stamp(e, now)]
  {
    HSetAllIsUpdate(context, c.upserts);
  }

  lemma OneAdmitted(r: RedisBoard, context: Context, base: Context, admitted: seq<Element>, e: Element, track: bool, now: Time)
    requires AfterCreates(r, context, base, admitted)
    ensures var (r', c) := AppliedChangeSet(r, [e], [], track, now);
      && c.Some? && r'.seen == r.seen
      && AfterCreates(r', HSetAll(context, c.value.upserts) - c.value.deletes, base, admitted + [e])
  {
    hide LastWins, Content, Contents, Stamp, AppliedChangeSet, HSetAll, Keyed;
    SingleUpsert(r, e, track, now);
    SeenUntouched(r, [e], [], track, now);
    ApplyChangeSetMeaning(r, [e], [], track, now);
    SetOne(context, AppliedChangeSet(r, [e], [], track, now).1.value, e, now);
    CreatesSnoc(r.elements, context, base, admitted, e, now);
  }

  // ----- The theorem -----

  lemma PatchLoadsNothing(batch: seq<Mutation>, b: BoardId, board: Context)
    requires forall m | m in batch :: m.op.CreateElement? || m.op.DeleteElements?
    ensures LoadedContext(board, OpsOn(batch, b)) == map[]
  {
    IndicesExact(batch, b, |batch|);
    var indices := IndicesOn(batch, b, |batch|);
    forall op | op in OpsOn(batch, b) ensures TouchedIds(op) == {} {
      var k :| 0 <= k < |indices| && op == OpsOn(batch, b)[k];
      assert indices[k] in indices;
      assert batch[indices[k]] in batch;
    }
    assert TouchedByAll(OpsOn(batch, b)) == {};
  }

  lemma TranslatedCreate(b: BoardId, ids: seq<Id>, kept: seq<Element>, uuid: nat -> MutationId, n: nat)
    requires n < |kept|
    ensures var off := |Deletion(b, ids, uuid)|;
      off + n < |Translated(b, ids, kept, uuid)| && Translated(b, ids, kept, uuid)[off + n] == Creation(b, kept[n], uuid(off + n))
  {
    hide Creation, Deletion;
  }

  lemma TranslatedId(b: BoardId, ids: seq<Id>, kept: seq<Element>, uuid: nat -> MutationId, i: nat)
    requires i < |Translated(b, ids, kept, uuid)|
    ensures Translated(b, ids, kept, uuid)[i].boardId == b && Translated(b, ids, kept, uuid)[i].mutationId == uuid(i)
  {
    var off := |Deletion(b, ids, uuid)|;
    if i >= off {
      hide Translated;
      assert i - off < |kept| by { TranslatedLength(b, ids, kept, uuid); }
      TranslatedCreate(b, ids, kept, uuid, i - off);
      assert off + (i - off) == i;
    }
  }

  lemma TranslatedLength(b: BoardId, ids: seq<Id>, kept: seq<Element>, uuid: nat -> MutationId)
    ensures |Translated(b, ids, kept, uuid)| == |Deletion(b, ids, uuid)| + |kept|
    ensures ids != [] ==> |Deletion(b, ids, uuid)| == 1 && Translated(b, ids, kept, uuid)[0] == Deletion(b, ids, uuid)[0]
  {
  }

  lemma TranslatedAt(b: BoardId, ids: seq<Id>, kept: seq<Element>, uuid: nat -> MutationId)
    ensures var batch := Translated(b, ids, kept, uuid); var off := |Deletion(b, ids, uuid)|;
      && |batch| == off + |kept|
      && (forall i | 0 <= i < |batch| :: batch[i].boardId == b && batch[i].mutationId == uuid(i))
      && (forall n | 0 <= n < |kept| :: batch[off + n] == Creation(b, kept[n], uuid(off + n)))
      && (ids != [] ==> batch[0] == Mutation(uuid(0), b, DeleteElements(ids)))
  {
    hide Translated, Creation;
    TranslatedLength(b, ids, kept, uuid);
    forall i | 0 <= i < |Translated(b, ids, kept, uuid)|
      ensures Translated(b, ids, kept, uuid)[i].boardId == b && Translated(b, ids, kept, uuid)[i].mutationId == uuid(i)
    {
      TranslatedId(b, ids, kept, uuid, i);
    }
    var off := |Deletion(b, ids, uuid)|;
    forall n | 0 <= n < |kept| ensures Translated(b, ids, kept, uuid)[off + n] == Creation(b, kept[n], uuid(off + n)) {
      TranslatedCreate(b, ids, kept, uuid, n);
    }
  }

  lemma OnlyCreatesAndDeletes(b: BoardId, ids: seq<Id>, kept: seq<Element>, uuid: nat -> MutationId, m: Mutation)
    requires m in Translated(b, ids, kept, uuid)
    ensures m.op.CreateElement? || m.op.DeleteElements?
  {
    hide Translated;
    var batch, off := Translated(b, ids, kept, uuid), |Deletion(b, ids, uuid)|;
    TranslatedAt(b, ids, kept, uuid);
    var i :| 0 <= i < |batch| && batch[i] == m;
    if i >= off {
      assert batch[off + (i - off)] == Creation(b, kept[i - off], uuid(off + (i - off)));
    }
  }

  /** Deleting a set that is already a cascade deletes just that set. */
  lemma DeleteStep(r: RedisBoard, m: Mutation, ids: seq<Id>, requested: set<Id>, mode: Mode, now: Time)
    requires Keyed(r.elements) && m.op == DeleteElements(ids) && m.mutationId !in r.seen
    requires ids != [] && SetOf(ids) == Closure(r.elements.Values, requested)
    ensures var out := Process(r, m, map[], IsBlocked(m.op, map[]), mode, now);
      && out.applied && out.redis.seen == r.seen + {m.mutationId}
      && AfterCreates(out.redis, ContextAfter(map[], out.result), r.elements - SetOf(ids), [])
  {
    hide ToChange, HSetAll;
    var r1 := r.(seen := r.seen + {m.mutationId});
    assert !IsBlocked(m.op, map[]);
    assert ToChangeSet(map[], m.op) == ([], ids);
    ClosureIdempotent(r.elements.Values, requested);
    ApplyChangeSetMeaning(r1, [], ids, mode.Collab?, now);
    NothingStamped(r.elements, SetOf(ids), now);
    SeenUntouched(r1, [], ids, mode.Collab?, now);
    DeleteOnlyContext(r1, ids, now);
  }

  lemma NothingStamped(m: Context, drop: set<Id>, now: Time)
    ensures m + StampAll(LastWins([]), now) - drop == m - drop
    ensures Contents(m - drop) == Contents(m - drop) + Contents(LastWins([]))
    ensures Contents(LastWins([])) == map[] && Contents(map[]) == map[]
  {
  }

  lemma DeleteOnlyContext(r: RedisBoard, ids: seq<Id>, now: Time)
    ensures var c := ToChange(r, [], ids, now); HSetAll(map[], c.upserts) - c.deletes == map[]
  {
    ChangeMeaning(r, [], ids, now);
  }

  /** The state after the delete, if any, and the first `n` creates. */
  lemma {:induction false} AfterSome(r: RedisBoard, b: BoardId, ids: seq<Id>, requested: set<Id>, kept: seq<Element>,
                                     uuid: nat -> MutationId, st: Setting, n: nat)
    requires Keyed(r.elements) && FreshIds(r, uuid) && n <= |kept|
    requires SetOf(ids) == Closure(r.elements.Values, requested)
    ensures var batch := Translated(b, ids, kept, uuid); var off := |Deletion(b, ids, uuid)|;
      var (now, context) := CachedAt(r, batch, b, off + n, st);
      && AfterCreates(now, context, r.elements - SetOf(ids), Admitted(kept, n))
      && (forall i: nat | off + n <= i :: uuid(i) !in now.seen)
  {
    hide Process, AfterCreates, IsBlocked, ContextAfter, Admitted, InEarlierMeta, Translated;
    var batch, off := Translated(b, ids, kept, uuid), |Deletion(b, ids, uuid)|;
    TranslatedAt(b, ids, kept, uuid);
    if n == 0 {
      AfterDelete(r, b, ids, requested, kept, uuid, st);
    } else {
      AfterSome(r, b, ids, requested, kept, uuid, st, n - 1);
      var (before, context) := CachedAt(r, batch, b, off + n - 1, st);
      assert batch[off + n - 1] == Creation(b, kept[n - 1], uuid(off + n - 1));
      OneCreate(before, context, r.elements - SetOf(ids), Admitted(kept, n - 1), batch[off + n - 1], kept[n - 1],
                st.modes(b), st.clock(off + n - 1));
      AdmittedNext(kept, n);
    }
  }

  lemma AdmittedNext(kept: seq<Element>, n: nat)
    requires 0 < n <= |kept|
    ensures Admitted(kept, n) == if InEarlierMeta(Admitted(kept, n - 1), kept[n - 1]) then Admitted(kept, n - 1)
                                 else Admitted(kept, n - 1) + [kept[n - 1]]
  {
  }

  lemma AfterDelete(r: RedisBoard, b: BoardId, ids: seq<Id>, requested: set<Id>, kept: seq<Element>,
                    uuid: nat -> MutationId, st: Setting)
    requires Keyed(r.elements) && FreshIds(r, uuid) && SetOf(ids) == Closure(r.elements.Values, requested)
    ensures var batch := Translated(b, ids, kept, uuid); var off := |Deletion(b, ids, uuid)|;
      var (now, context) := CachedAt(r, batch, b, off, st);
      && AfterCreates(now, context, r.elements - SetOf(ids), Admitted(kept, 0))
      && (forall i: nat | off <= i :: uuid(i) !in now.seen)
  {
    hide Process, IsBlocked, ContextAfter, Translated;
    var batch := Translated(b, ids, kept, uuid);
    TranslatedAt(b, ids, kept, uuid);
    forall m | m in batch ensures m.op.CreateElement? || m.op.DeleteElements? {
      OnlyCreatesAndDeletes(b, ids, kept, uuid, m);
    }
    PatchLoadsNothing(batch, b, r.elements);
    NothingStamped(r.elements, SetOf(ids), 0);
    if ids == [] {
      assert r.elements - SetOf(ids) == r.elements;
    } else {
      DeleteStep(r, batch[0], ids, requested, st.modes(b), st.clock(0));
      assert CachedAt(r, batch, b, 0, st) == (r, map[]);
    }
  }

  lemma DropAndMerge(m: Context, n: Context, drop: set<Id>)
    requires n.Keys !! drop
    ensures Contents(m - drop) + Contents(n) == Contents(m + n - drop)
  {
    hide Content;
  }

  lemma StampedContents(m: Context, now: Time)
    ensures Contents(StampAll(m, now)) == Contents(m)
  {
    forall k | k in m ensures Content(Stamp(m[k], now)) == Content(m[k]) {
      ContentsUpdate(m, k, m[k], now);
    }
  }

  /** The content of the board after one change set. */
  lemma ChangeSetContents(r: RedisBoard, upserts: seq<Element>, deletes: seq<Id>, track: bool, now: Time)
    requires Keyed(r.elements)
    ensures var drop := Closure(r.elements.Values, SetOf(deletes));
      Contents(AppliedChangeSet(r, upserts, deletes, track, now).0.elements)
        == Contents(r.elements - drop) + Contents(LastWins(upserts) - drop)
  {
    hide LastWins, Content, Stamp, AppliedChangeSet;
    var drop := Closure(r.elements.Values, SetOf(deletes));
    ApplyChangeSetMeaning(r, upserts, deletes, track, now);
    if deletes == [] {
      EmptyClosure(r.elements.Values);
    }
    StampedContents(LastWins(upserts) - drop, now);
    DropAndMerge(r.elements, StampAll(LastWins(upserts) - drop, now), drop);
    DropStamped(r.elements, LastWins(upserts), drop, now);
  }

  lemma DropStamped(m: Context, n: Context, drop: set<Id>, now: Time)
    ensures m + StampAll(n, now) - drop == m + StampAll(n - drop, now) - drop
  {
    hide Stamp;
  }

  lemma EmptyClosure(board: set<Element>)
    ensures Closure(board, {}) == {} && SetOf<Id>([]) == {}
  {
    assert ChildIds(board, {}) == {};
  }

  lemma AdmittedKeys(kept: seq<Element>, n: nat)
    requires n <= |kept|
    ensures LastWins(Admitted(kept, n)).Keys <= LastWins(kept).Keys
  {
    AdmittedAtMost(kept, n);
    var admitted := Admitted(kept, n);
    LastWinsKeyed(admitted);
    LastWinsKeyed(kept);
    forall k | k in LastWins(admitted) ensures k in LastWins(kept) {
      var i :| 0 <= i < |ById(admitted)| && ById(admitted)[i].0 == k;
      assert admitted[i] in kept;
      var j :| 0 <= j < |kept| && kept[j] == admitted[i];
      assert ById(kept)[j].0 == k;
    }
  }

  lemma AdmittedSpared(upserts: seq<Element>, drop: set<Id>, n: nat)
    requires n <= |Kept(upserts, drop)|
    ensures LastWins(Admitted(Kept(upserts, drop), n)).Keys !! drop
  {
    AdmittedKeys(Kept(upserts, drop), n);
    KeptLastWins(upserts, drop);
  }

  /** For every request on an unchanged board: the batch, run in order, leaves the content that one
      change set with the admitted upserts and all the deletes leaves. */
  lemma BatchIsOneChangeSet(boards: Boards, b: BoardId, upserts: seq<Element>, deletes: seq<Id>, uuid: nat -> MutationId,
                            batch: seq<Mutation>, ids: seq<Id>, st: Setting, track: bool, now: Time)
    requires var r := At(boards, b);
      Keyed(r.elements) && FreshIds(r, uuid) && Translates(batch, b, r.elements, upserts, deletes, uuid, ids)
    ensures var r := At(boards, b); var kept := Kept(upserts, SetOf(ids));
      Contents(At(OneByOne(boards, batch, |batch|, st).boards, b).elements)
        == Contents(AppliedChangeSet(r, Admitted(kept, |kept|), deletes, track, now).0.elements)
  {
    hide CachedAt, OneByOne, Admitted, LastWins, Content, Contents, AppliedChangeSet, Translated;
    var r, kept := At(boards, b), Kept(upserts, SetOf(ids));
    TranslatedAt(b, ids, kept, uuid);
    AfterSome(r, b, ids, SetOf(deletes), kept, uuid, st, |kept|);
    CachedIsOneByOne(boards, batch, |batch|, st, b);
    AdmittedSpared(upserts, SetOf(ids), |kept|);
    ChangeSetContents(r, Admitted(kept, |kept|), deletes, track, now);
    assert LastWins(Admitted(kept, |kept|)) - SetOf(ids) == LastWins(Admitted(kept, |kept|));
  }

  /** What the admitted creates leave is, on every id asked for, what the last upsert of that id says. */
  ghost predicate LossesDoNotShow(base: Context, kept: seq<Element>) {
    var left, asked := Contents(base) + Contents(LastWins(Admitted(kept, |kept|))), Contents(LastWins(kept));
    forall id | id in asked :: id in left && left[id] == asked[id]
  }

  lemma SameMergeIff<K, V>(base: map<K, V>, some: map<K, V>, all: map<K, V>)
    requires some.Keys <= all.Keys
    ensures base + some == base + all <==> forall k | k in all :: k in base + some && (base + some)[k] == all[k]
  {
    if base + some == base + all {
      assert forall k | k in all :: k in base + all && (base + all)[k] == all[k];
    }
  }

  lemma LossesIff(base: Context, kept: seq<Element>)
    ensures Contents(base) + Contents(LastWins(Admitted(kept, |kept|))) == Contents(base) + Contents(LastWins(kept))
      <==> LossesDoNotShow(base, kept)
  {
    hide Content, LastWins, Admitted;
    AdmittedKeys(kept, |kept|);
    SameMergeIff(Contents(base), Contents(LastWins(Admitted(kept, |kept|))), Contents(LastWins(kept)));
  }

  /** If no kept upsert names an earlier managed month-range meta of the request, the batch means the change set of the
      whole request; every kept upsert is admitted exactly then. Otherwise the meanings are the same exactly when no
      loss shows. */
  lemma TranslationPreservesMeaning(boards: Boards, b: BoardId, upserts: seq<Element>, deletes: seq<Id>, uuid: nat -> MutationId,
                                    batch: seq<Mutation>, ids: seq<Id>, st: Setting, track: bool, now: Time)
    requires var r := At(boards, b);
      Keyed(r.elements) && FreshIds(r, uuid) && Translates(batch, b, r.elements, upserts, deletes, uuid, ids)
    ensures NoneInEarlierMeta(Kept(upserts, SetOf(ids))) ==>
      Contents(At(OneByOne(boards, batch, |batch|, st).boards, b).elements)
        == Contents(AppliedChangeSet(At(boards, b), upserts, deletes, track, now).0.elements)
    ensures var kept := Kept(upserts, SetOf(ids));
      Admitted(kept, |kept|) == kept <==> NoneInEarlierMeta(kept)
    ensures var r, kept := At(boards, b), Kept(upserts, SetOf(ids));
      Contents(At(OneByOne(boards, batch, |batch|, st).boards, b).elements)
        == Contents(AppliedChangeSet(r, upserts, deletes, track, now).0.elements)
      <==> LossesDoNotShow(r.elements - SetOf(ids), kept)
  {
    hide OneByOne, LastWins, Content, Contents, AppliedChangeSet, Translated, InEarlierMeta, LossesDoNotShow, Admitted;
    var r, kept := At(boards, b), Kept(upserts, SetOf(ids));
    AdmittedAll(kept, |kept|);
    assert kept[..|kept|] == kept;
    BatchIsOneChangeSet(boards, b, upserts, deletes, uuid, batch, ids, st, track, now);
    ChangeSetContents(r, Admitted(kept, |kept|), deletes, track, now);
    ChangeSetContents(r, upserts, deletes, track, now);
    KeptLastWins(upserts, SetOf(ids));
    AdmittedSpared(upserts, SetOf(ids), |kept|);
    assert LastWins(Admitted(kept, |kept|)) - SetOf(ids) == LastWins(Admitted(kept, |kept|));
    LossesIff(r.elements - SetOf(ids), kept);
  }

  lemma AdmittedPair(meta: Element, child: Element)
    requires IsManaged(meta) && IdOf(meta) in StringAt(child.fields, "metaContainerId")
    ensures Admitted([meta, child], 2) == [meta]
  {
    hide LastWins;
    LastWinsOfOne(meta);
    assert LastWins([]) == map[] by { assert ById([]) == []; NothingStamped(map[], {}, 0); }
    assert !InEarlierMeta([], meta);
    assert Admitted([meta, child], 1) == [meta] by { assert Admitted([meta, child], 0) == []; }
    assert InEarlierMeta([meta], child);
  }

  /** When an upsert does name an earlier managed meta the translation loses it: the change set
      would have created the child, the batch does not. */
  lemma ChildOfNewMetaIsLost(boards: Boards, b: BoardId, meta: Element, child: Element, uuid: nat -> MutationId,
                             batch: seq<Mutation>, ids: seq<Id>, st: Setting, track: bool, now: Time)
    requires var r := At(boards, b);
      && Keyed(r.elements) && FreshIds(r, uuid) && IdOf(child) !in r.elements && IdOf(child) != IdOf(meta)
      && IsManaged(meta) && IdOf(meta) in StringAt(child.fields, "metaContainerId")
      && Translates(batch, b, r.elements, [meta, child], [], uuid, ids)
    ensures IdOf(child) !in At(OneByOne(boards, batch, |batch|, st).boards, b).elements
    ensures IdOf(child) in AppliedChangeSet(At(boards, b), [meta, child], [], track, now).0.elements
  {
    hide OneByOne, Admitted, LastWins, Content, AppliedChangeSet, Translated, InEarlierMeta, IsManaged;
    var r, end := At(boards, b), At(OneByOne(boards, batch, |batch|, st).boards, b).elements;
    EmptyClosure(r.elements.Values);
    assert SetOf(ids) == {};
    KeptAll([meta, child]);
    AdmittedPair(meta, child);
    BatchIsOneChangeSet(boards, b, [meta, child], [], uuid, batch, ids, st, track, now);
    ChangeSetContents(r, [meta], [], track, now);
    ChangeSetContents(r, [meta, child], [], track, now);
    LastWinsOfOne(meta);
    LastWinsSnoc([meta], child);
    assert [meta] + [child] == [meta, child];
    assert IdOf(child) !in Contents(end);
    assert IdOf(child) in Contents(AppliedChangeSet(r, [meta, child], [], track, now).0.elements);
  }
}
