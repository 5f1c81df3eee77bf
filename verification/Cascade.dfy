/** Containment and the cascade of a delete: the worklist of the state engine and
    its copy in the board routes, against the least closed set. */
module Cascade {
  import opened Elements

  function Names(e: Element, key: string): set<Id> {
    if key in e.fields && e.fields[key].Str? && e.fields[key].s != "" then {e.fields[key].s} else {}
  }

  /** The containers an element names. An empty string names none. */
  function ParentIds(e: Element): set<Id> {
    Names(e, "containerId") + Names(e, "metaContainerId")
  }

  function ChildIds(board: set<Element>, s: set<Id>): set<Id> {
    set e | e in board && ParentIds(e) * s != {} :: IdOf(e)
  }

  function AllIds(board: set<Element>): set<Id> {
    set e | e in board :: IdOf(e)
  }

  ghost predicate Closed(board: set<Element>, s: set<Id>) {
    ChildIds(board, s) <= s
  }

  /** The ids deleted along with `s`: add children until there are no more. */
  function Closure(board: set<Element>, s: set<Id>): set<Id>
    decreases AllIds(board) - s
  {
    var added := ChildIds(board, s) - s;
    if added == {} then s
    else
      assert AllIds(board) - (s + added) < AllIds(board) - s by {
        var id :| id in added;
        assert id in AllIds(board) - s && id !in AllIds(board) - (s + added);
      }
      Closure(board, s + added)
  }

  /** The closure is the least closed set that contains the requested ids. */
  lemma {:induction false} ClosureIsLeast(board: set<Element>, s: set<Id>)
    ensures s <= Closure(board, s) && Closed(board, Closure(board, s))
    ensures forall t | s <= t && Closed(board, t) :: Closure(board, s) <= t
    ensures Closure(board, s) <= s + AllIds(board)
    decreases AllIds(board) - s
  {
    var added := ChildIds(board, s) - s;
    if added != {} {
      assert AllIds(board) - (s + added) < AllIds(board) - s by {
        var id :| id in added;
        assert id in AllIds(board) - s && id !in AllIds(board) - (s + added);
      }
      ClosureIsLeast(board, s + added);
      forall t | s <= t && Closed(board, t) ensures Closure(board, s) <= t {
        assert ChildIds(board, s) <= ChildIds(board, t);
        assert s + added <= t;
      }
    } else {
      assert forall id | id in ChildIds(board, s) && id !in s :: id in added;
    }
  }

  /** More requested ids, or more elements, never delete less. */
  lemma ClosureMonotone(board: set<Element>, more: set<Element>, s: set<Id>, t: set<Id>)
    requires board <= more && s <= t
    ensures Closure(board, s) <= Closure(more, t)
  {
    ClosureIsLeast(board, s);
    ClosureIsLeast(more, t);
    assert ChildIds(board, Closure(more, t)) <= ChildIds(more, Closure(more, t));
  }

  /** Deleting what a delete removed, or asking for the whole closure, adds nothing. */
  lemma ClosureIdempotent(board: set<Element>, s: set<Id>)
    ensures Closure(board, Closure(board, s)) == Closure(board, s)
  {
    ClosureIsLeast(board, s);
    ClosureIsLeast(board, Closure(board, s));
  }

  /** No survivor points into what was deleted. */
  lemma SurvivorsDoNotDangle(board: set<Element>, s: set<Id>, e: Element)
    requires e in board && IdOf(e) !in Closure(board, s)
    ensures ParentIds(e) !! Closure(board, s)
  {
    ClosureIsLeast(board, s);
    assert IdOf(e) !in ChildIds(board, Closure(board, s));
  }

  function SetOf<T(==)>(s: seq<T>): set<T> {
    set x | x in s
  }

  ghost predicate NoDuplicates<T>(s: seq<T>) {
    forall i, j | 0 <= i < j < |s| :: s[i] != s[j]
  }

  lemma SetOfAppend<T>(s: seq<T>, x: T)
    ensures SetOf(s + [x]) == SetOf(s) + {x}
  {
    assert forall y :: y in s + [x] <==> y in s || y == x;
  }

  /** Drop repeated ids, keeping the order of first occurrence. */
  method Dedupe(ids: seq<Id>) returns (r: seq<Id>)
    ensures NoDuplicates(r) && SetOf(r) == SetOf(ids)
  {
    r := [];
    for i := 0 to |ids|
      invariant NoDuplicates(r) && SetOf(r) == SetOf(ids[..i])
    {
      SetOfAppend(ids[..i], ids[i]);
      SetOfAppend(r, ids[i]);
      assert ids[..i + 1] == ids[..i] + [ids[i]];
      if ids[i] !in r {
        r := r + [ids[i]];
      }
    }
    assert ids[..|ids|] == ids;
  }

  /** A map from a container id to the ids filed under it. */
  type Index = map<Id, seq<Id>>

  function Filed(index: Index, id: Id): seq<Id> {
    if id in index then index[id] else []
  }

  function FiledIds(board: set<Element>, key: string, p: Id): set<Id> {
    set e | e in board && p in Names(e, key) :: IdOf(e)
  }

  ghost predicate Indexes(index: Index, key: string, board: set<Element>) {
    forall p :: SetOf(Filed(index, p)) == FiledIds(board, key, p)
  }

  function FileUnder(index: Index, key: string, e: Element): Index {
    if key in e.fields && e.fields[key].Str? && e.fields[key].s != "" then
      var p := e.fields[key].s;
      index[p := Filed(index, p) + [IdOf(e)]]
    else index
  }

  lemma FileUnderIndexes(index: Index, key: string, board: set<Element>, e: Element)
    requires Indexes(index, key, board)
    ensures Indexes(FileUnder(index, key, e), key, board + {e})
  {
    forall p ensures SetOf(Filed(FileUnder(index, key, e), p)) == FiledIds(board + {e}, key, p) {
      assert SetOf(Filed(index, p)) == FiledIds(board, key, p);
      assert FiledIds(board + {e}, key, p) == FiledIds(board, key, p) + (if p in Names(e, key) then {IdOf(e)} else {});
      if p in Names(e, key) {
        SetOfAppend(Filed(index, p), IdOf(e));
      }
    }
  }

  /** The two child maps together list exactly the children of each container. */
  lemma ChildrenAreFiled(board: set<Element>, byContainer: Index, byMeta: Index, p: Id)
    requires Indexes(byContainer, "containerId", board) && Indexes(byMeta, "metaContainerId", board)
    ensures SetOf(Filed(byContainer, p) + Filed(byMeta, p)) == ChildIds(board, {p})
  {
    forall e | e in board ensures ParentIds(e) * {p} != {} <==> p in Names(e, "containerId") || p in Names(e, "metaContainerId") {
      assert p in ParentIds(e) <==> p in ParentIds(e) * {p};
    }
    assert ChildIds(board, {p}) == FiledIds(board, "containerId", p) + FiledIds(board, "metaContainerId", p);
    assert SetOf(Filed(byContainer, p) + Filed(byMeta, p)) == SetOf(Filed(byContainer, p)) + SetOf(Filed(byMeta, p));
  }

  method IndexChildren(elements: seq<Element>) returns (byContainer: Index, byMeta: Index)
    ensures Indexes(byContainer, "containerId", SetOf(elements)) && Indexes(byMeta, "metaContainerId", SetOf(elements))
  {
    byContainer, byMeta := map[], map[];
    for i := 0 to |elements|
      invariant Indexes(byContainer, "containerId", SetOf(elements[..i]))
      invariant Indexes(byMeta, "metaContainerId", SetOf(elements[..i]))
    {
      FileUnderIndexes(byContainer, "containerId", SetOf(elements[..i]), elements[i]);
      FileUnderIndexes(byMeta, "metaContainerId", SetOf(elements[..i]), elements[i]);
      byContainer := FileUnder(byContainer, "containerId", elements[i]);
      byMeta := FileUnder(byMeta, "metaContainerId", elements[i]);
      SetOfAppend(elements[..i], elements[i]);
      assert elements[..i + 1] == elements[..i] + [elements[i]];
    }
    assert elements[..|elements|] == elements;
  }

  lemma ClosedByEach(board: set<Element>, s: set<Id>)
    requires forall p | p in s :: ChildIds(board, {p}) <= s
    ensures Closed(board, s)
  {
    forall e | e in board && ParentIds(e) * s != {} ensures IdOf(e) in s {
      var p :| p in ParentIds(e) && p in s;
      assert p in ParentIds(e) * {p};
      assert IdOf(e) in ChildIds(board, {p});
    }
  }

  /** The worklist: `pending` is always the part of `deletes` not yet expanded. */
  method CollectCascadeDeleteIds(elements: seq<Element>, requested: seq<Id>) returns (deletes: seq<Id>)
    ensures NoDuplicates(deletes)
    ensures SetOf(deletes) == Closure(SetOf(elements), SetOf(requested))
  {
    ghost var board, goal := SetOf(elements), Closure(SetOf(elements), SetOf(requested));
    ClosureIsLeast(board, SetOf(requested));
    deletes := Dedupe(requested);
    var pending := deletes;
    var byContainer, byMeta := IndexChildren(elements);
    ghost var done := 0;
    while |pending| > 0
      invariant 0 <= done <= |deletes| && pending == deletes[done..] && NoDuplicates(deletes)
      invariant SetOf(requested) <= SetOf(deletes) <= goal
      invariant forall j | 0 <= j < done :: ChildIds(board, {deletes[j]}) <= SetOf(deletes)
      decreases goal - SetOf(deletes[..done])
    {
      var current := pending[0];
      pending := pending[1..];
      assert goal - SetOf(deletes[..done + 1]) < goal - SetOf(deletes[..done]) by {
        SetOfAppend(deletes[..done], current);
        assert deletes[..done + 1] == deletes[..done] + [current];
        assert current in SetOf(deletes);
      }
      done := done + 1;
      var children := Filed(byContainer, current) + Filed(byMeta, current);
      ChildrenAreFiled(board, byContainer, byMeta, current);
      assert SetOf(children) <= goal by {
        assert ChildIds(board, {current}) <= ChildIds(board, goal);
      }
      deletes, pending := AddUnseen(children, deletes, pending, done);
    }
    assert forall p | p in SetOf(deletes) :: ChildIds(board, {p}) <= SetOf(deletes);
    ClosedByEach(board, SetOf(deletes));
  }

  method AddUnseen(children: seq<Id>, deletes0: seq<Id>, pending0: seq<Id>, ghost done: nat)
    returns (deletes: seq<Id>, pending: seq<Id>)
    requires done <= |deletes0| && pending0 == deletes0[done..] && NoDuplicates(deletes0)
    ensures deletes0 <= deletes && pending == deletes[done..] && NoDuplicates(deletes)
    ensures SetOf(deletes) == SetOf(deletes0) + SetOf(children)
  {
    deletes, pending := deletes0, pending0;
    for i := 0 to |children|
      invariant deletes0 <= deletes && pending == deletes[done..] && NoDuplicates(deletes)
      invariant SetOf(deletes) == SetOf(deletes0) + SetOf(children[..i])
    {
      SetOfAppend(children[..i], children[i]);
      SetOfAppend(deletes, children[i]);
      assert children[..i + 1] == children[..i] + [children[i]];
      if children[i] !in deletes {
        deletes := deletes + [children[i]];
        pending := pending + [children[i]];
      }
    }
    assert children[..|children|] == children;
  }
}
