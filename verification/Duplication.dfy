/** Duplicating a board: fresh ids for its elements, and every reference to them renamed,
    however deep in the data; containment is carried over. */
module Duplication {
  import opened Elements
  import opened Cascade

  const REMAPPABLE_ID_KEYS: set<string> := {
    "id", "elementId", "parentId", "sourceId", "targetId", "startElementId", "endElementId", "containerId",
    "containedById", "columnId", "metaColumnId", "gridId", "noteId", "arrowId", "shapeId", "textId", "drawingId",
    "imageId", "linkPreviewId", "childId", "itemId"
  }

  type IdMap = map<Id, Id>

  function LowerChar(c: char): char {
    if 'A' <= c <= 'Z' then c - 'A' + 'a' else c
  }

  /** The key, in lower case, contains "id". */
  predicate MentionsId(key: string) {
    exists i | 0 <= i < |key| - 1 :: LowerChar(key[i]) == 'i' && LowerChar(key[i + 1]) == 'd'
  }

  predicate IsIdKey(key: string) {
    key in REMAPPABLE_ID_KEYS || MentionsId(key)
  }

  /** An id through the map; an empty replacement does not count. */
  function Rename(m: IdMap, id: Id): Id {
    if id in m && m[id] != "" then m[id] else id
  }

  function RemapElementData(value: Json, m: IdMap, keyHint: string): Json
    decreases value
  {
    match value
    case Arr(items) => Arr(seq(|items|, i requires 0 <= i < |items| => RemapElementData(items[i], m, keyHint)))
    case Obj(fields) => Obj(map k | k in fields :: RemapElementData(fields[k], m, k))
    case Str(s) => if IsIdKey(keyHint) then Str(Rename(m, s)) else value
    case _ => value
  }

  // ----- What remapping keeps, and what undoes it -----

  /** Equal up to the text of strings: same keys, same array lengths, same other leaves. */
  ghost predicate SameShape(a: Json, b: Json)
    decreases a
  {
    match a
    case Arr(items) => b.Arr? && |b.items| == |items| && forall i | 0 <= i < |items| :: SameShape(items[i], b.items[i])
    case Obj(fields) => b.Obj? && b.fields.Keys == fields.Keys && forall k | k in fields :: SameShape(fields[k], b.fields[k])
    case Str(_) => b.Str?
    case _ => a == b
  }

  lemma {:induction false} RemapKeepsShape(value: Json, m: IdMap, keyHint: string)
    ensures SameShape(value, RemapElementData(value, m, keyHint))
    decreases value
  {
    match value
    case Arr(items) =>
      forall i | 0 <= i < |items| ensures SameShape(items[i], RemapElementData(items[i], m, keyHint)) {
        RemapKeepsShape(items[i], m, keyHint);
      }
    case Obj(fields) =>
      forall k | k in fields ensures SameShape(fields[k], RemapElementData(fields[k], m, k)) {
        RemapKeepsShape(fields[k], m, k);
      }
    case _ =>
  }

  /** No string of the value, at any depth, is one of `ids`. */
  ghost predicate Avoids(value: Json, ids: set<Id>)
    decreases value
  {
    match value
    case Arr(items) => forall i | 0 <= i < |items| :: Avoids(items[i], ids)
    case Obj(fields) => forall k | k in fields :: Avoids(fields[k], ids)
    case Str(s) => s !in ids
    case _ => true
  }

  /** `back` undoes `m`, and no id involved is empty. */
  ghost predicate Inverse(m: IdMap, back: IdMap) {
    && "" !in m && "" !in back
    && (forall k | k in m :: m[k] in back && back[m[k]] == k)
    && (forall k | k in back :: back[k] in m && m[back[k]] == k)
  }

  /** With fresh ids, remapping through the inverse restores the data, whatever its nesting. */
  lemma {:induction false} RemapRoundTrip(value: Json, m: IdMap, back: IdMap, keyHint: string)
    requires Inverse(m, back) && Avoids(value, m.Values)
    ensures RemapElementData(RemapElementData(value, m, keyHint), back, keyHint) == value
    decreases value
  {
    hide IsIdKey;
    match value
    case Arr(items) =>
      forall i | 0 <= i < |items| ensures RemapElementData(RemapElementData(items[i], m, keyHint), back, keyHint) == items[i] {
        RemapRoundTrip(items[i], m, back, keyHint);
      }
    case Obj(fields) =>
      forall k | k in fields ensures RemapElementData(RemapElementData(fields[k], m, k), back, k) == fields[k] {
        RemapRoundTrip(fields[k], m, back, k);
      }
    case Str(s) => InverseKeys(m, back);
    case _ =>
  }

  lemma InverseKeys(m: IdMap, back: IdMap)
    requires Inverse(m, back)
    ensures back.Keys == m.Values
  {
    forall k | k in back ensures k in m.Values {
      assert m[back[k]] == k;
    }
  }

  // ----- The copy -----

  function Ids(rows: seq<Row>): set<Id> {
    set i | 0 <= i < |rows| :: rows[i].id
  }

  lemma IdsSnoc(rows: seq<Row>, row: Row)
    ensures Ids(rows + [row]) == Ids(rows) + {row.id}
  {
    assert (rows + [row])[|rows|].id == row.id;
    forall id | id in Ids(rows) ensures id in Ids(rows + [row]) {
      var i :| 0 <= i < |rows| && rows[i].id == id;
      assert (rows + [row])[i].id == id;
    }
  }

  /** An id map of random ids: it covers the board and is one-to-one. */
  ghost predicate Drawn(m: IdMap, rows: seq<Row>, uuid: nat -> Id) {
    && m.Keys == Ids(rows)
    && (forall a, b | a in m && b in m && m[a] == m[b] :: a == b)
    && (forall a | a in m :: exists i: nat :: m[a] == uuid(i))
  }

  /** `uuid` stands for the random ids, all different. */
  method CreateElementIdMap(rows: seq<Row>, uuid: nat -> Id) returns (idMap: IdMap)
    requires forall i: nat, j: nat :: uuid(i) == uuid(j) ==> i == j
    ensures Drawn(idMap, rows, uuid)
  {
    idMap := map[];
    for i := 0 to |rows|
      invariant idMap.Keys == Ids(rows[..i])
      invariant forall a | a in idMap :: exists j: nat :: j < i && idMap[a] == uuid(j)
      invariant forall a, b | a in idMap && b in idMap && idMap[a] == idMap[b] :: a == b
    {
      IdsSnoc(rows[..i], rows[i]);
      assert rows[..i + 1] == rows[..i] + [rows[i]];
      forall a | a in idMap ensures idMap[a] != uuid(i) {
        var j: nat :| j < i && idMap[a] == uuid(j);
        assert j != i;
      }
      idMap := idMap[rows[i].id := uuid(i)];
    }
    assert rows[..|rows|] == rows;
  }

  function RemapData(data: Patch, m: IdMap): (r: Fields) {
    RemapElementData(Obj(data), m, "").fields
  }

  lemma RemappedData(data: Patch, m: IdMap)
    ensures IsPatch(RemapData(data, m))
    ensures RemapData(data, m).Keys == data.Keys
    ensures forall k | k in data :: RemapData(data, m)[k] == RemapElementData(data[k], m, k)
  {
    RemapKeepsShape(Obj(data), m, "");
  }

  function DuplicatedRow(row: Row, m: IdMap, now: Time): Row {
    RemappedData(row.data, m);
    Row(Rename(m, row.id), row.kind, RemapData(row.data, m), now)
  }

  function Duplicated(rows: seq<Row>, m: IdMap, now: Time): seq<Row> {
    seq(|rows|, i requires 0 <= i < |rows| => DuplicatedRow(rows[i], m, now))
  }

  /** The whole duplication: the copied rows under one such map. */
  method BuildDuplicatedElements(rows: seq<Row>, uuid: nat -> Id, now: Time) returns (copy: seq<Row>)
    requires forall i: nat, j: nat :: uuid(i) == uuid(j) ==> i == j
    ensures exists m: IdMap :: Drawn(m, rows, uuid) && copy == Duplicated(rows, m, now)
  {
    var idMap := CreateElementIdMap(rows, uuid);
    copy := [];
    for i := 0 to |rows|
      invariant copy == Duplicated(rows[..i], idMap, now)
    {
      copy := copy + [DuplicatedRow(rows[i], idMap, now)];
    }
    assert rows[..|rows|] == rows;
    assert Drawn(idMap, rows, uuid);
  }

  function Board(rows: seq<Row>): set<Element> {
    set i | 0 <= i < |rows| :: FromElementRow(rows[i])
  }

  /** Every id that is at stake: those of the board, those its elements name, and those requested. */
  ghost predicate Mentions(rows: seq<Row>, requested: set<Id>, id: Id) {
    id in requested || exists e | e in Board(rows) :: IdOf(e) == id || id in ParentIds(e)
  }

  /** The id map of a duplication: it covers the board, and the new ids are distinct, not empty and mentioned nowhere. */
  ghost predicate FreshMap(m: IdMap, rows: seq<Row>, requested: set<Id>) {
    && m.Keys == Ids(rows) && "" !in m && "" !in m.Values
    && (forall a, b | a in m && b in m && m[a] == m[b] :: a == b)
    && (forall id | Mentions(rows, requested, id) :: id !in m.Values)
  }

  function RenameAll(m: IdMap, ids: set<Id>): set<Id> {
    set id | id in ids :: Rename(m, id)
  }

  lemma ContainmentKeys()
    ensures IsIdKey("containerId") && IsIdKey("metaContainerId")
  {
    var key := "metaContainerId";
    assert key[13] == 'I' && key[14] == 'd';
    assert LowerChar(key[13]) == 'i' && LowerChar(key[13 + 1]) == 'd';
  }

  lemma RenamedName(row: Row, m: IdMap, now: Time, key: string)
    requires CleanRow(row) && IsIdKey(key) && key !in ROW_COLUMNS && "" !in m
    ensures Names(FromElementRow(DuplicatedRow(row, m, now)), key) == RenameAll(m, Names(FromElementRow(row), key))
  {
    hide IsIdKey;
    RemappedData(row.data, m);
    RemapKeepsShape(Obj(row.data), m, "");
    var e, e' := FromElementRow(row), FromElementRow(DuplicatedRow(row, m, now));
    assert key in e.fields <==> key in row.data;
    assert key in e'.fields <==> key in row.data;
    if key in row.data {
      assert e.fields[key] == row.data[key] && e'.fields[key] == RemapElementData(row.data[key], m, key);
    }
  }

  /** A copied element has the renamed id and the renamed parents. */
  lemma RenamedElement(row: Row, m: IdMap, now: Time)
    requires CleanRow(row) && "" !in m
    ensures var e, e' := FromElementRow(row), FromElementRow(DuplicatedRow(row, m, now));
      IdOf(e') == Rename(m, IdOf(e)) && ParentIds(e') == RenameAll(m, ParentIds(e))
  {
    hide Names, RemapElementData;
    ContainmentKeys();
    RemappedData(row.data, m);
    RenamedName(row, m, now, "containerId");
    RenamedName(row, m, now, "metaContainerId");
  }

  /** `copy` has the elements of `board` under renamed ids and parents. */
  ghost predicate Copies(board: set<Element>, copy: set<Element>, m: IdMap) {
    && (forall e | e in board :: exists e' | e' in copy :: Copied(e, e', m))
    && (forall e' | e' in copy :: exists e | e in board :: Copied(e, e', m))
  }

  ghost predicate Copied(e: Element, e': Element, m: IdMap) {
    IdOf(e') == Rename(m, IdOf(e)) && ParentIds(e') == RenameAll(m, ParentIds(e))
  }

  lemma DuplicateCopies(rows: seq<Row>, m: IdMap, now: Time)
    requires (forall r | r in rows :: CleanRow(r)) && "" !in m
    ensures Copies(Board(rows), Board(Duplicated(rows, m, now)), m)
  {
    hide DuplicatedRow, FromElementRow, CleanRow, Copied;
    var copy := Duplicated(rows, m, now);
    forall i | 0 <= i < |rows| ensures Copied(FromElementRow(rows[i]), FromElementRow(copy[i]), m) {
      assert rows[i] in rows;
      CopiedRow(rows[i], m, now);
    }
    forall e | e in Board(rows) ensures exists e' | e' in Board(copy) :: Copied(e, e', m) {
      var i :| 0 <= i < |rows| && e == FromElementRow(rows[i]);
      assert FromElementRow(copy[i]) in Board(copy);
    }
    forall e' | e' in Board(copy) ensures exists e | e in Board(rows) :: Copied(e, e', m) {
      var i :| 0 <= i < |copy| && e' == FromElementRow(copy[i]);
      assert FromElementRow(rows[i]) in Board(rows);
    }
  }

  lemma CopiedRow(row: Row, m: IdMap, now: Time)
    requires CleanRow(row) && "" !in m
    ensures Copied(FromElementRow(row), FromElementRow(DuplicatedRow(row, m, now)), m)
  {
    hide Names, RemapElementData, DuplicatedRow, FromElementRow;
    RenamedElement(row, m, now);
  }

  /** Renaming is one-to-one on the ids at stake. */
  ghost predicate OneToOne(m: IdMap, ids: iset<Id>) {
    forall a, b | a in ids && b in ids && Rename(m, a) == Rename(m, b) :: a == b
  }

  ghost function AtStake(board: set<Element>, requested: set<Id>): iset<Id> {
    iset id | id in requested || exists e | e in board :: IdOf(e) == id || id in ParentIds(e)
  }

  lemma RenamedChild(board: set<Element>, m: IdMap, ids: iset<Id>, c: set<Id>, e: Element, e': Element)
    requires e in board && Copied(e, e', m) && Closed(board, c) && ParentIds(e') * RenameAll(m, c) != {}
    requires OneToOne(m, ids) && (forall x | x in c || x in ParentIds(e) :: x in ids)
    ensures IdOf(e') in RenameAll(m, c)
  {
    hide Rename, ParentIds, IdOf;
    var q :| q in ParentIds(e') && q in RenameAll(m, c);
    var p :| p in ParentIds(e) && Rename(m, p) == q;
    var x :| x in c && Rename(m, x) == q;
    assert p in ParentIds(e) * c;
    assert IdOf(e) in ChildIds(board, c);
  }

  lemma CopyCascadesNoMore(board: set<Element>, copy: set<Element>, m: IdMap, requested: set<Id>)
    requires Copies(board, copy, m) && OneToOne(m, AtStake(board, requested))
    ensures Closure(copy, RenameAll(m, requested)) <= RenameAll(m, Closure(board, requested))
  {
    hide Closure, Rename, ParentIds, OneToOne, IdOf, Copied;
    var c := Closure(board, requested);
    ClosureIsLeast(board, requested);
    ClosureIsLeast(copy, RenameAll(m, requested));
    forall x | x in c ensures x in AtStake(board, requested) {
      assert x in requested || x in AllIds(board);
    }
    forall e' | e' in copy && ParentIds(e') * RenameAll(m, c) != {} ensures IdOf(e') in RenameAll(m, c) {
      var e :| e in board && Copied(e, e', m);
      RenamedChild(board, m, AtStake(board, requested), c, e, e');
    }
    assert Closed(copy, RenameAll(m, c));
  }

  lemma ChildRenamed(board: set<Element>, copy: set<Element>, m: IdMap, c: set<Id>, c': set<Id>, e: Element, e': Element, p: Id)
    requires e in board && e' in copy && Copied(e, e', m) && Closed(board, c) && Closed(copy, c')
    requires p in ParentIds(e) && p in c && Rename(m, p) in c'
    ensures IdOf(e) in c && Rename(m, IdOf(e)) in c'
  {
    hide Rename, ParentIds, IdOf;
    assert p in ParentIds(e) * c;
    assert IdOf(e) in ChildIds(board, c);
    assert Rename(m, p) in ParentIds(e') * c';
    assert IdOf(e') in ChildIds(copy, c');
  }

  function RenamedInto(m: IdMap, c: set<Id>, c': set<Id>): set<Id> {
    set x | x in c && Rename(m, x) in c'
  }

  lemma RenamedIntoIsClosed(board: set<Element>, copy: set<Element>, m: IdMap, c: set<Id>, c': set<Id>)
    requires Copies(board, copy, m) && Closed(board, c) && Closed(copy, c')
    ensures Closed(board, RenamedInto(m, c, c'))
  {
    hide Closed, Rename, ParentIds, IdOf, Copied;
    var t := RenamedInto(m, c, c');
    forall e | e in board && ParentIds(e) * t != {} ensures IdOf(e) in t {
      var p :| p in ParentIds(e) * t;
      var e' :| e' in copy && Copied(e, e', m);
      ChildRenamed(board, copy, m, c, c', e, e', p);
    }
    ClosedIfChildrenIn(board, t);
  }

  lemma CopyCascadesNoLess(board: set<Element>, copy: set<Element>, m: IdMap, requested: set<Id>)
    requires Copies(board, copy, m)
    ensures RenameAll(m, Closure(board, requested)) <= Closure(copy, RenameAll(m, requested))
  {
    hide Closure, Rename, Copies, Closed;
    var c, c' := Closure(board, requested), Closure(copy, RenameAll(m, requested));
    ClosureIsLeast(board, requested);
    ClosureIsLeast(copy, RenameAll(m, requested));
    RenamedIntoIsClosed(board, copy, m, c, c');
    assert requested <= RenamedInto(m, c, c');
  }

  lemma ClosedIfChildrenIn(board: set<Element>, t: set<Id>)
    requires forall e | e in board && ParentIds(e) * t != {} :: IdOf(e) in t
    ensures Closed(board, t)
  {
    hide ParentIds, IdOf;
  }

  /** Deleting renamed ids on the copy deletes exactly the renaming of what the original would delete. */
  lemma DuplicateKeepsCascade(rows: seq<Row>, m: IdMap, now: Time, requested: set<Id>)
    requires (forall r | r in rows :: CleanRow(r)) && FreshMap(m, rows, requested)
    ensures Closure(Board(Duplicated(rows, m, now)), RenameAll(m, requested))
         == RenameAll(m, Closure(Board(rows), requested))
  {
    hide Closure, Board, Duplicated, ParentIds;
    var board, copy := Board(rows), Board(Duplicated(rows, m, now));
    DuplicateCopies(rows, m, now);
    forall a, b | a in AtStake(board, requested) && b in AtStake(board, requested) && Rename(m, a) == Rename(m, b) ensures a == b {
      assert Mentions(rows, requested, a) && Mentions(rows, requested, b);
      assert a in m ==> m[a] in m.Values;
      assert b in m ==> m[b] in m.Values;
    }
    CopyCascadesNoMore(board, copy, m, requested);
    CopyCascadesNoLess(board, copy, m, requested);
  }

  lemma AvoidedData(data: Patch, m: IdMap, back: IdMap)
    requires Inverse(m, back) && Avoids(Obj(data), m.Values)
    ensures RemapData(data, m).Keys == data.Keys && IsPatch(RemapData(data, m)) && RemapData(RemapData(data, m), back) == data
  {
    hide RemapElementData;
    RemappedData(data, m);
    RemapRoundTripData(data, m, back);
  }

  lemma RemapRoundTripData(data: Patch, m: IdMap, back: IdMap)
    requires Inverse(m, back) && Avoids(Obj(data), m.Values)
    ensures IsPatch(RemapData(data, m)) && RemapData(RemapData(data, m), back) == data
  {
    RemappedData(data, m);
    RemapRoundTrip(Obj(data), m, back, "");
  }

  /** Duplicating the copy back through the inverse map restores every row. */
  lemma DuplicateRoundTrip(rows: seq<Row>, m: IdMap, back: IdMap, now: Time)
    requires Inverse(m, back) && m.Keys == Ids(rows)
    requires forall r | r in rows :: Avoids(Obj(r.data), m.Values)
    ensures var again := Duplicated(Duplicated(rows, m, now), back, now);
      |again| == |rows| && forall i | 0 <= i < |rows| :: again[i] == rows[i].(updatedAt := now)
  {
    hide RemapData;
    forall i | 0 <= i < |rows|
      ensures DuplicatedRow(DuplicatedRow(rows[i], m, now), back, now) == rows[i].(updatedAt := now)
    {
      assert rows[i] in rows && rows[i].id in Ids(rows);
      AvoidedData(rows[i].data, m, back);
      RemappedData(rows[i].data, m);
    }
  }
}
