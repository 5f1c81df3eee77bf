/** The Redis keys of a board and the change sets applied to them. */
module BoardState {
  import opened Elements
  import opened OrderedMap
  import opened Cascade

  const CHANGE_LOG_MAX_LENGTH := 2000

  type BoardId = string
  type MutationId = string

  /** A persisted change. Its deleted ids are a set: no reader depends on their order. */
  datatype Change = Change(sequence: nat, serverTimestamp: Time, upserts: seq<Element>, deletes: set<Id>)

  /** The keys of a board; `loaded` is the existence of its sequence key. */
  datatype RedisBoard = RedisBoard(
    elements: map<Id, Element>,
    sequence: nat,
    epoch: nat,
    dirty: set<Id>,
    deleted: set<Id>,
    inDirtyBoards: bool,
    dirtyAge: Option<Time>,
    dirtySince: Option<Time>,
    changes: seq<Change>,
    lastFlushedSequence: Option<nat>,
    seen: set<MutationId>,
    loaded: bool)

  const NO_KEYS := RedisBoard(map[], 0, 0, {}, {}, false, None, None, [], None, {}, false)

  type Boards = map<BoardId, RedisBoard>

  function At(boards: Boards, b: BoardId): RedisBoard {
    if b in boards then boards[b] else NO_KEYS
  }

  /** Mutation ids drawn at random: unseen on the board, and distinct. */
  ghost predicate FreshIds(r: RedisBoard, uuid: nat -> MutationId) {
    && (forall i: nat :: uuid(i) !in r.seen)
    && (forall i: nat, j: nat :: uuid(i) == uuid(j) ==> i == j)
  }

  // ----- Upserts -----

  function ById(upserts: seq<Element>): Entries<Id, Element> {
    seq(|upserts|, i requires 0 <= i < |upserts| => (IdOf(upserts[i]), upserts[i]))
  }

  function Elems(entries: Entries<Id, Element>): seq<Element> {
    seq(|entries|, i requires 0 <= i < |entries| => entries[i].1)
  }

  /** The last upsert of each id. */
  function LastWins(upserts: seq<Element>): map<Id, Element> {
    ToMap(ById(upserts))
  }

  function IdsOf(upserts: seq<Element>): set<Id> {
    Keys(ById(upserts))
  }

  function StampAll(m: map<Id, Element>, now: Time): map<Id, Element> {
    map k | k in m :: Stamp(m[k], now)
  }

  /** One HSET after another. */
  function HSetAll(m: map<Id, Element>, upserts: seq<Element>): map<Id, Element> {
    SetAll(m, ById(upserts))
  }

  function NormalizedUpserts(upserts: seq<Element>): seq<Element> {
    Elems(PutAll([], ById(upserts)))
  }

  function Stamper(now: Time): Element -> Element {
    e => Stamp(e, now)
  }

  /** The upserts that are not deleted in the same change, stamped. */
  function Survivors(upserts: seq<Element>, deletes: set<Id>, now: Time): seq<Element> {
    Elems(Keep(ById(upserts), deletes, Stamper(now)))
  }

  ghost predicate WellKeyed(entries: Entries<Id, Element>) {
    forall i | 0 <= i < |entries| :: entries[i].0 == IdOf(entries[i].1)
  }

  lemma LastWinsKeyed(upserts: seq<Element>)
    ensures LastWins(upserts).Keys == IdsOf(upserts) && Keyed(LastWins(upserts))
  {
    ToMapKeys(ById(upserts));
    forall k | k in LastWins(upserts) ensures IdOf(LastWins(upserts)[k]) == k {
      var i := ValueIsEntry(ById(upserts), k);
    }
  }

  lemma LastWinsCons(e: Element, rest: seq<Element>)
    ensures LastWins([e] + rest) == map[IdOf(e) := e] + LastWins(rest)
  {
    assert ById([e] + rest)[1..] == ById(rest);
  }

  lemma LastWinsSnoc(upserts: seq<Element>, e: Element)
    ensures LastWins(upserts + [e]) == LastWins(upserts)[IdOf(e) := e]
  {
    assert ById(upserts + [e]) == ById(upserts) + [(IdOf(e), e)];
    ToMapSnoc(ById(upserts), IdOf(e), e);
  }

  /** Normalizing keeps the last upsert of each id, once. */
  lemma NormalizedIsLastWins(upserts: seq<Element>)
    ensures LastWins(NormalizedUpserts(upserts)) == LastWins(upserts)
    ensures Distinct(ById(NormalizedUpserts(upserts)))
  {
    PutAllFromEmpty(ById(upserts));
    LastWinsKeyed(upserts);
    MapWellKeyed(PutAll([], ById(upserts)));
  }

  lemma MapWellKeyed(m: Entries<Id, Element>)
    requires Distinct(m) && Keyed(ToMap(m))
    ensures ById(Elems(m)) == m
  {
    forall i | 0 <= i < |m| ensures m[i].0 == IdOf(m[i].1) {
      EntryIsValue(m, i);
    }
  }

  lemma SurvivorsLastWins(upserts: seq<Element>, deletes: set<Id>, now: Time)
    ensures LastWins(Survivors(upserts, deletes, now)) == StampAll(LastWins(upserts), now) - deletes
    ensures Survivors(upserts, deletes, now) == [] <==> IdsOf(upserts) <= deletes
  {
    var kept := Keep(ById(upserts), deletes, Stamper(now));
    KeepToMap(ById(upserts), deletes, Stamper(now));
    KeepNothing(ById(upserts), deletes, Stamper(now));
    KeepWellKeyed(ById(upserts), deletes, now);
    assert ById(Elems(kept)) == kept;
    StampKept(LastWins(upserts), deletes, now);
  }

  lemma StampKept(m: map<Id, Element>, deletes: set<Id>, now: Time)
    ensures KeepMap(m, deletes, Stamper(now)) == StampAll(m, now) - deletes
  {
  }

  lemma {:induction false} KeepWellKeyed(entries: Entries<Id, Element>, deletes: set<Id>, now: Time)
    requires WellKeyed(entries)
    ensures WellKeyed(Keep(entries, deletes, Stamper(now)))
  {
    if entries != [] {
      KeepWellKeyed(entries[1..], deletes, now);
    }
  }

  // ----- Change sets -----

  function CascadeOf(elements: map<Id, Element>, deletes: seq<Id>): set<Id> {
    if deletes == [] then {} else Closure(elements.Values, SetOf(deletes))
  }

  function Trim(log: seq<Change>): seq<Change> {
    if |log| > CHANGE_LOG_MAX_LENGTH then log[|log| - CHANGE_LOG_MAX_LENGTH..] else log
  }

  function OrElse<T>(o: Option<T>, t: T): Option<T> {
    if o.Some? then o else Some(t)
  }

  /** INCR on the sequence key, which exists from then on. */
  function NextSequence(r: RedisBoard): RedisBoard {
    r.(sequence := r.sequence + 1, loaded := true)
  }

  /** The pipeline that writes a change and its markers, taken as one step. */
  function Pipeline(r: RedisBoard, c: Change, trackChangeLog: bool): RedisBoard {
    r.(elements := HSetAll(r.elements, c.upserts) - c.deletes,
       changes := if trackChangeLog then Trim(r.changes + [c]) else r.changes,
       inDirtyBoards := true,
       dirtyAge := OrElse(r.dirtyAge, c.serverTimestamp),
       dirtySince := OrElse(r.dirtySince, c.serverTimestamp),
       epoch := r.epoch + 1,
       dirty := r.dirty + IdsOf(c.upserts) - c.deletes,
       deleted := r.deleted - IdsOf(c.upserts) + c.deletes)
  }

  function ToChange(r: RedisBoard, upserts: seq<Element>, deletes: seq<Id>, now: Time): Change {
    var ids := CascadeOf(r.elements, deletes);
    Change(r.sequence + 1, now, Survivors(NormalizedUpserts(upserts), ids, now), ids)
  }

  function AppliedChangeSet(r: RedisBoard, upserts: seq<Element>, deletes: seq<Id>, trackChangeLog: bool, now: Time)
    : (RedisBoard, Option<Change>)
  {
    var c := ToChange(r, upserts, deletes, now);
    if c.upserts == [] && c.deletes == {} then (r, None)
    else (Pipeline(NextSequence(r), c, trackChangeLog), Some(c))
  }

  lemma ChangeMeaning(r: RedisBoard, upserts: seq<Element>, deletes: seq<Id>, now: Time)
    ensures var c := ToChange(r, upserts, deletes, now);
      && HSetAll(r.elements, c.upserts) - c.deletes
         == r.elements + StampAll(LastWins(upserts), now) - CascadeOf(r.elements, deletes)
      && (c.upserts == [] <==> IdsOf(upserts) <= c.deletes)
  {
    var ids := CascadeOf(r.elements, deletes);
    var us := NormalizedUpserts(upserts);
    NormalizedIsLastWins(upserts);
    SurvivorsLastWins(us, ids, now);
    SetAllIsUpdate(r.elements, ById(Survivors(us, ids, now)));
    DropAfterMerge(r.elements, StampAll(LastWins(upserts), now), ids);
    LastWinsKeyed(us);
    LastWinsKeyed(upserts);
  }

  lemma EmptyChange(r: RedisBoard, upserts: seq<Element>, deletes: seq<Id>)
    ensures IdsOf(upserts) == {} <==> upserts == []
    ensures CascadeOf(r.elements, deletes) == {} <==> deletes == []
  {
    if upserts != [] {
      assert ById(upserts)[0].0 in IdsOf(upserts);
    }
    if deletes != [] {
      ClosureIsLeast(r.elements.Values, SetOf(deletes));
      assert deletes[0] in SetOf(deletes);
    }
  }

  lemma KeyedAfter(m: map<Id, Element>, upserts: seq<Element>, deletes: set<Id>, now: Time)
    requires Keyed(m)
    ensures Keyed(m + StampAll(LastWins(upserts), now) - deletes)
  {
    LastWinsKeyed(upserts);
  }

  /** What a change set means: the last upsert of each id wins over the old element,
      then the cascade of the requested ids is gone; nothing happens exactly when
      nothing was asked. */
  lemma ApplyChangeSetMeaning(r: RedisBoard, upserts: seq<Element>, deletes: seq<Id>, track: bool, now: Time)
    requires Keyed(r.elements)
    ensures var (r', c) := AppliedChangeSet(r, upserts, deletes, track, now);
      && r'.elements == r.elements + StampAll(LastWins(upserts), now) - CascadeOf(r.elements, deletes)
      && Keyed(r'.elements)
      && (c.None? <==> upserts == [] && deletes == [])
      && (c.Some? ==> c.value.sequence == r.sequence + 1 == r'.sequence && r'.epoch == r.epoch + 1)
  {
    ChangeMeaning(r, upserts, deletes, now);
    EmptyChange(r, upserts, deletes);
    KeyedAfter(r.elements, upserts, CascadeOf(r.elements, deletes), now);
    if upserts == [] && deletes == [] {
      assert StampAll(LastWins([]), now) == map[] && r.elements + map[] - {} == r.elements;
    }
  }

  /** A change set marks no mutation as seen, and an empty one changes nothing at all. */
  lemma SeenUntouched(r: RedisBoard, upserts: seq<Element>, deletes: seq<Id>, track: bool, now: Time)
    ensures AppliedChangeSet(r, upserts, deletes, track, now).0.seen == r.seen
    ensures AppliedChangeSet(r, upserts, deletes, track, now).1.None? ==> AppliedChangeSet(r, upserts, deletes, track, now).0 == r
  {
    hide ToChange;
  }

  // ----- The service methods, over the keys of every board -----

  method ObjectValues(m: map<Id, Element>) returns (values: seq<Element>)
    ensures SetOf(values) == m.Values
  {
    values := [];
    var keys := m.Keys;
    while keys != {}
      invariant keys <= m.Keys
      invariant SetOf(values) == set k | k in m.Keys - keys :: m[k]
      decreases keys
    {
      var k :| k in keys;
      SetOfAppend(values, m[k]);
      keys := keys - {k};
      values := values + [m[k]];
    }
  }

  method NormalizeUpserts(upserts: seq<Element>) returns (r: seq<Element>)
    ensures r == NormalizedUpserts(upserts)
  {
    var deduped: Entries<Id, Element> := [];
    for i := 0 to |upserts|
      invariant deduped == PutAll([], ById(upserts[..i]))
    {
      assert ById(upserts[..i + 1]) == ById(upserts[..i]) + [(IdOf(upserts[i]), upserts[i])];
      PutAllAppend([], ById(upserts[..i]), [(IdOf(upserts[i]), upserts[i])]);
      deduped := Put(deduped, IdOf(upserts[i]), upserts[i]);
    }
    assert upserts[..|upserts|] == upserts;
    r := Elems(deduped);
  }

  /** Cascade the deletes, normalize the upserts and drop those that are deleted. */
  method PlanChange(r: RedisBoard, upserts: seq<Element>, deletes: seq<Id>, now: Time)
    returns (kept: seq<Element>, deletedIdSet: set<Id>)
    ensures Change(r.sequence + 1, now, kept, deletedIdSet) == ToChange(r, upserts, deletes, now)
  {
    var deleteIds := deletes;
    if |deletes| > 0 {
      var cascadeSource := ObjectValues(r.elements);
      deleteIds := CollectCascadeDeleteIds(cascadeSource, deletes);
    }
    deletedIdSet := SetOf(deleteIds);
    assert deletedIdSet == CascadeOf(r.elements, deletes);
    var normalized := NormalizeUpserts(upserts);
    kept := Survivors(normalized, deletedIdSet, now);
  }

  lemma HSetAllNext(m: map<Id, Element>, upserts: seq<Element>, i: nat)
    requires i < |upserts|
    ensures HSetAll(m, upserts[..i + 1]) == HSetAll(m, upserts[..i])[IdOf(upserts[i]) := upserts[i]]
  {
    assert ById(upserts[..i + 1])[..i] == ById(upserts[..i]);
  }

  /** The commands of the pipeline, one after another. */
  method ExecPipeline(before: RedisBoard, c: Change, trackChangeLog: bool) returns (r: RedisBoard)
    ensures r == Pipeline(before, c, trackChangeLog)
  {
    hide Trim, OrElse;
    var elements := before.elements;
    for i := 0 to |c.upserts|
      invariant elements == HSetAll(before.elements, c.upserts[..i])
    {
      HSetAllNext(before.elements, c.upserts, i);
      elements := elements[IdOf(c.upserts[i]) := c.upserts[i]];
    }
    assert c.upserts[..|c.upserts|] == c.upserts;
    if c.deletes != {} {
      elements := elements - c.deletes;
    }
    var changes := before.changes;
    if trackChangeLog {
      changes := Trim(changes + [c]);
    }
    var dirty, deleted := before.dirty, before.deleted;
    if |c.upserts| > 0 {
      dirty, deleted := dirty + IdsOf(c.upserts), deleted - IdsOf(c.upserts);
    }
    if c.deletes != {} {
      deleted, dirty := deleted + c.deletes, dirty - c.deletes;
    }
    var now := c.serverTimestamp;
    r := before.(elements := elements, changes := changes, inDirtyBoards := true, dirtyAge := OrElse(before.dirtyAge, now),
                 dirtySince := OrElse(before.dirtySince, now), epoch := before.epoch + 1, dirty := dirty, deleted := deleted);
  }
}
