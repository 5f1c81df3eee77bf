/** The keys that an eviction deletes, and an eviction that nothing interrupts. */
module Eviction {
  import opened Elements
  import opened BoardState

  /** The keys that the scan of an eviction matches. The dirty indexes are not among them. */
  datatype Key =
    | ElementsKey
    | SequenceKey
    | EpochKey
    | DirtyKey
    | DeletedKey
    | DirtySinceKey
    | ChangesKey
    | FlushedKey
    | LoadLockKey
    | EvictionLockKey

  predicate Exists(r: RedisBoard, k: Key) {
    match k
    case ElementsKey => r.elements != map[]
    case SequenceKey => r.loaded
    case EpochKey => r.epoch > 0
    case DirtyKey => r.dirty != {}
    case DeletedKey => r.deleted != {}
    case DirtySinceKey => r.dirtySince.Some?
    case ChangesKey => r.changes != []
    case FlushedKey => r.lastFlushedSequence.Some?
    case LoadLockKey => false
    case EvictionLockKey => false
  }

  function BoardKeys(r: RedisBoard): set<Key> {
    set k: Key | Exists(r, k)
  }

  /** DEL of the keys that a scan found, `seen` being the mutation ids it found; keys created since then stay. */
  function DropKeys(r: RedisBoard, found: set<Key>, seen: set<MutationId>): RedisBoard {
    r.(elements := if ElementsKey in found then map[] else r.elements,
       sequence := if r.loaded && SequenceKey !in found then r.sequence else 0,
       loaded := r.loaded && SequenceKey !in found,
       epoch := if EpochKey in found then 0 else r.epoch,
       dirty := if DirtyKey in found then {} else r.dirty,
       deleted := if DeletedKey in found then {} else r.deleted,
       dirtySince := if DirtySinceKey in found then None else r.dirtySince,
       changes := if ChangesKey in found then [] else r.changes,
       lastFlushedSequence := if FlushedKey in found then None else r.lastFlushedSequence,
       seen := r.seen - seen)
  }

  /** SREM and ZREM of the board from the dirty indexes. */
  function Unindexed(r: RedisBoard): RedisBoard {
    r.(inDirtyBoards := false, dirtyAge := None)
  }

  const ALL_KEYS: seq<Key> := [
    ElementsKey, SequenceKey, EpochKey, DirtyKey, DeletedKey, DirtySinceKey, ChangesKey, FlushedKey, LoadLockKey, EvictionLockKey
  ]

  /** The scan, key by key. */
  method ScanKeys(r: RedisBoard) returns (found: set<Key>)
    ensures found == BoardKeys(r)
  {
    found := {};
    for i := 0 to |ALL_KEYS|
      invariant found == set k: Key | k in ALL_KEYS[..i] && Exists(r, k)
    {
      assert ALL_KEYS[..i + 1] == ALL_KEYS[..i] + [ALL_KEYS[i]];
      if Exists(r, ALL_KEYS[i]) {
        found := found + {ALL_KEYS[i]};
      }
    }
    AllKeys();
  }

  lemma AllKeys()
    ensures forall k: Key :: k in ALL_KEYS[..|ALL_KEYS|]
  {
    assert ALL_KEYS[..|ALL_KEYS|] == ALL_KEYS;
    forall k: Key ensures k in ALL_KEYS {
      var i := match k
        case ElementsKey => 0
        case SequenceKey => 1
        case EpochKey => 2
        case DirtyKey => 3
        case DeletedKey => 4
        case DirtySinceKey => 5
        case ChangesKey => 6
        case FlushedKey => 7
        case LoadLockKey => 8
        case EvictionLockKey => 9;
      assert ALL_KEYS[i] == k;
    }
  }

  /** Scan, delete and un-index in a row leave no key at all. */
  lemma QuietEvictionLeavesNothing(r: RedisBoard)
    ensures Unindexed(DropKeys(r, BoardKeys(r), r.seen)) == NO_KEYS
  {
    var found := BoardKeys(r);
    assert forall k: Key :: k in found <==> Exists(r, k);
    assert r.seen - r.seen == {};
  }
}
