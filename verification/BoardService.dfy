/** The board state service: the keys of every board, its table, and the methods that change them. */
module BoardService {
  import opened Elements
  import opened OrderedMap
  import opened BoardState
  import opened Eviction
  import opened FlushProtocol

  type Tables = map<BoardId, Rows>

  function TableAt(tables: Tables, b: BoardId): Rows {
    if b in tables then tables[b] else map[]
  }

  function RowsById(rows: seq<Row>): Entries<Id, Row> {
    seq(|rows|, i requires 0 <= i < |rows| => (rows[i].id, rows[i]))
  }

  lemma RowsSnoc(rows: seq<Row>, row: Row)
    ensures ToMap(RowsById(rows + [row])) == ToMap(RowsById(rows))[row.id := row]
  {
    assert RowsById(rows + [row]) == RowsById(rows) + [(row.id, row)];
    ToMapSnoc(RowsById(rows), row.id, row);
  }

  /** What the loop has made of the dirty ids in `done`. */
  function Collected(r: RedisBoard, done: set<Id>, now: Time): Rows {
    RowsOf(Fetch(r.elements, done) - {""}, now)
  }

  lemma CollectedMore(r: RedisBoard, done: set<Id>, id: Id, now: Time)
    ensures id == "" || id !in r.elements ==> Collected(r, done + {id}, now) == Collected(r, done, now)
    ensures id != "" && id in r.elements ==>
      Collected(r, done + {id}, now) == Collected(r, done, now)[id := ToElementRow(r.elements[id], now)]
  {
    hide ToElementRow;
    if id == "" || id !in r.elements {
      assert Fetch(r.elements, done + {id}) - {""} == Fetch(r.elements, done) - {""};
    }
  }

  /** The loop over the dirty ids: an empty id is passed over, an id without an element is a delete,
      any other an upsert. */
  method CollectRowChanges(r: RedisBoard, now: Time) returns (upserts: seq<Row>, deletes: set<Id>)
    requires Keyed(r.elements)
    ensures deletes == r.deleted + (r.dirty - r.elements.Keys - {""})
    ensures ToMap(RowsById(upserts)) == RowsOf(Fetch(r.elements, r.dirty) - {""}, now)
  {
    hide Collected, ToElementRow, RowsById;
    upserts, deletes := [], r.deleted;
    var dirtyIds := r.dirty;
    ghost var done: set<Id> := {};
    CollectedNone(r, now);
    while dirtyIds != {}
      invariant done == r.dirty - dirtyIds && dirtyIds <= r.dirty
      invariant deletes == r.deleted + (done - r.elements.Keys - {""})
      invariant ToMap(RowsById(upserts)) == Collected(r, done, now)
      decreases dirtyIds
    {
      var id :| id in dirtyIds;
      dirtyIds := dirtyIds - {id};
      CollectedMore(r, done, id, now);
      done := done + {id};
      if id != "" {
        if id !in r.elements {
          deletes := deletes + {id};
        } else {
          var row := ToElementRow(r.elements[id], now);
          RowIdOf(r.elements[id], now);
          RowsSnoc(upserts, row);
          upserts := upserts + [row];
        }
      }
    }
    CollectedAll(r, done, now);
  }

  lemma CollectedNone(r: RedisBoard, now: Time)
    ensures ToMap(RowsById([])) == Collected(r, {}, now)
  {
  }

  lemma CollectedAll(r: RedisBoard, done: set<Id>, now: Time)
    requires done == r.dirty
    ensures Collected(r, done, now) == RowsOf(Fetch(r.elements, r.dirty) - {""}, now)
  {
  }

  lemma RowIdOf(e: Element, now: Time)
    ensures ToElementRow(e, now).id == IdOf(e)
  {
  }

  method PersistBoardIncremental(r: RedisBoard, table: Rows, now: Time) returns (rows: Rows)
    requires Keyed(r.elements)
    ensures rows == FlushedRows(true, r, table, now)
  {
    if r.dirty == {} && r.deleted == {} {
      return table;
    }
    var upserts, deletes := CollectRowChanges(r, now);
    rows := table - deletes;
    for i := 0 to |upserts|
      invariant rows == SetAll(table - deletes, RowsById(upserts[..i]))
    {
      assert RowsById(upserts[..i + 1])[..i] == RowsById(upserts[..i]);
      rows := rows[upserts[i].id := upserts[i]];
    }
    assert upserts[..|upserts|] == upserts;
    SetAllIsUpdate(table - deletes, RowsById(upserts));
    assert Fetch(r.elements, r.dirty).Keys == r.dirty * r.elements.Keys;
    assert r.dirty - Fetch(r.elements, r.dirty).Keys - {""} == r.dirty - r.elements.Keys - {""};
  }

  /** How a persist finds the board: stored in Postgres, or gone (a bad id, or no row), at the first test or only
      when the transaction fails; then the eviction lock is free or held by another eviction. */
  datatype Standing = Stored | Gone(atCommit: bool, lockFree: bool)

  /** Whether a persist opens a transaction. */
  predicate WritesTable(incremental: bool, r: RedisBoard) {
    !incremental || r.dirty != {} || r.deleted != {}
  }

  /** Whether a persist finds out that the board is gone. */
  predicate FoundGone(incremental: bool, r: RedisBoard, standing: Standing) {
    standing.Gone? && (standing.atCommit ==> r.loaded && WritesTable(incremental, r))
  }

  predicate Evicts(incremental: bool, r: RedisBoard, standing: Standing) {
    FoundGone(incremental, r, standing) && standing.lockFree
  }

  function PersistedRedis(incremental: bool, r: RedisBoard, standing: Standing): RedisBoard {
    if Evicts(incremental, r, standing) then NO_KEYS
    else if FoundGone(incremental, r, standing) then r
    else if !r.loaded then Unindexed(r)
    else FlushedRedis(incremental, r)
  }

  function PersistedRows(incremental: bool, r: RedisBoard, rows: Rows, standing: Standing, now: Time): Rows {
    if r.loaded && !FoundGone(incremental, r, standing) then FlushedRows(incremental, r, rows, now) else rows
  }

  class BoardStateService {
    const incremental: bool
    var boards: Boards
    var tables: Tables

    constructor (incremental: bool)
      ensures boards == map[] && tables == map[] && this.incremental == incremental
    {
      boards, tables, this.incremental := map[], map[], incremental;
    }

    method GetSequence(b: BoardId) returns (sequence: nat)
      modifies `boards
      ensures boards == old(boards)[b := NextSequence(At(old(boards), b))]
      ensures sequence == At(boards, b).sequence
    {
      boards := boards[b := At(boards, b).(sequence := At(boards, b).sequence + 1, loaded := true)];
      sequence := At(boards, b).sequence;
    }

    /** SET NX: only the first caller marks the mutation id. */
    method TryMarkSeen(b: BoardId, id: MutationId) returns (claimed: bool)
      modifies `boards
      ensures claimed == (id !in At(old(boards), b).seen)
      ensures boards == if claimed then old(boards)[b := At(old(boards), b).(seen := At(old(boards), b).seen + {id})]
                        else old(boards)
    {
      claimed := id !in At(boards, b).seen;
      if claimed {
        boards := boards[b := At(boards, b).(seen := At(boards, b).seen + {id})];
      }
    }

    method ApplyChangeSet(b: BoardId, upserts: seq<Element>, deletes: seq<Id>, trackChangeLog: bool, now: Time)
      returns (persisted: Option<Change>)
      modifies `boards
      ensures var (r, c) := AppliedChangeSet(At(old(boards), b), upserts, deletes, trackChangeLog, now);
        persisted == c && boards == if c.None? then old(boards) else old(boards)[b := r]
    {
      var kept, deleteIds := PlanChange(At(boards, b), upserts, deletes, now);
      if |kept| == 0 && deleteIds == {} {
        return None;
      }
      var sequence := GetSequence(b);
      var change := Change(sequence, now, kept, deleteIds);
      var r := ExecPipeline(At(boards, b), change, trackChangeLog);
      boards := boards[b := r];
      persisted := Some(change);
    }

    /** An eviction that nothing interrupts: it gives up if another one holds the lock, or if the board has to be
        idle and is not; otherwise it scans, deletes what it found and leaves the indexes. */
    method FlushBoard(b: BoardId, lockFree: bool, requireIdle: bool, idle: bool) returns (evicted: bool)
      modifies `boards
      ensures evicted <==> lockFree && (requireIdle ==> idle)
      ensures boards == if evicted then old(boards)[b := NO_KEYS] else old(boards)
    {
      if !lockFree {
        return false;
      }
      if requireIdle && !idle {
        return false;
      }
      var seen := At(boards, b).seen;
      var keys := ScanKeys(At(boards, b));
      QuietEvictionLeavesNothing(At(boards, b));
      boards := boards[b := DropKeys(At(boards, b), keys, seen)];
      boards := boards[b := Unindexed(At(boards, b))];
      return true;
    }

    /** A flush that no writer interrupts. A board that turns out to be gone is evicted; one that is not loaded only
        leaves the indexes. */
    method PersistBoard(b: BoardId, standing: Standing, now: Time) returns (evicted: bool)
      requires Keyed(At(boards, b).elements)
      modifies this
      ensures evicted == Evicts(incremental, At(old(boards), b), standing)
      ensures At(boards, b) == PersistedRedis(incremental, At(old(boards), b), standing)
      ensures TableAt(tables, b) == PersistedRows(incremental, At(old(boards), b), TableAt(old(tables), b), standing, now)
      ensures forall b' | b' != b :: At(boards, b') == At(old(boards), b') && TableAt(tables, b') == TableAt(old(tables), b')
    {
      hide FullSnapshot, WriteRows, CompareAndClear, Fetch, Keyed;
      if standing.Gone? && !standing.atCommit {
        evicted := FlushBoard(b, standing.lockFree, false, false);
        return;
      }
      var r := At(boards, b);
      if !r.loaded {
        boards := boards[b := Unindexed(r)];
        return false;
      }
      if standing.Gone? && WritesTable(incremental, r) {
        evicted := FlushBoard(b, standing.lockFree, false, false);
        return;
      }
      var snapshotSequence, snapshotDirtyEpoch := r.sequence, r.epoch;
      var rows;
      if incremental {
        rows := PersistBoardIncremental(r, TableAt(tables, b), now);
      } else {
        rows := FullSnapshot(r.elements, now);
      }
      tables := tables[b := rows];
      boards := boards[b := CompareAndClear(At(boards, b), snapshotDirtyEpoch, snapshotSequence, incremental)];
      evicted := false;
    }
  }
}
