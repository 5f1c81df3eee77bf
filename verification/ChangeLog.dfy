/** Catch-up: a client that knows the board at one sequence number asks for what came after. */
module ChangeLog {
  import opened Elements
  import opened BoardState

  datatype Request = Request(upserts: seq<Element>, deletes: seq<Id>, now: Time)

  /** The answer to a catch-up request. */
  datatype CatchUp = CatchUp(changes: seq<Change>, complete: bool)

  function After(log: seq<Change>, sequence: int): seq<Change> {
    if log == [] then []
    else (if log[0].sequence > sequence then [log[0]] else []) + After(log[1..], sequence)
  }

  function Insert(c: Change, sorted: seq<Change>): seq<Change> {
    if sorted == [] || c.sequence <= sorted[0].sequence then [c] + sorted
    else [sorted[0]] + Insert(c, sorted[1..])
  }

  function SortBySequence(log: seq<Change>): seq<Change> {
    if log == [] then [] else Insert(log[0], SortBySequence(log[1..]))
  }

  function GetChangesAfter(r: RedisBoard, afterSequence: int): CatchUp {
    if afterSequence >= r.sequence then CatchUp([], true)
    else
      var changes := SortBySequence(After(r.changes, afterSequence));
      if changes == [] then CatchUp([], false)
      else CatchUp(changes, changes[0].sequence == afterSequence + 1)
  }

  /** Apply a change as a client does. */
  function ApplyChange(m: map<Id, Element>, c: Change): map<Id, Element> {
    HSetAll(m, c.upserts) - c.deletes
  }

  function Replay(m: map<Id, Element>, changes: seq<Change>): map<Id, Element> {
    if changes == [] then m
    else ApplyChange(Replay(m, changes[..|changes| - 1]), changes[|changes| - 1])
  }

  /** A run of logged change sets: the board after it, and every change it made. */
  function Run(r: RedisBoard, requests: seq<Request>): (RedisBoard, seq<Change>) {
    if requests == [] then (r, [])
    else
      var n := |requests| - 1;
      var (before, made) := Run(r, requests[..n]);
      var (r', c) := AppliedChangeSet(before, requests[n].upserts, requests[n].deletes, true, requests[n].now);
      (r', if c.Some? then made + [c.value] else made)
  }

  ghost predicate Loaded(r: RedisBoard) {
    r.sequence == 0 && r.changes == []
  }

  ghost predicate Numbered(history: seq<Change>) {
    forall i | 0 <= i < |history| :: history[i].sequence == i + 1
  }

  ghost predicate Logged(start: map<Id, Element>, r: RedisBoard, made: seq<Change>) {
    && r.sequence == |made| && Numbered(made)
    && r.changes == Trim(made)
    && r.elements == Replay(start, made)
  }

  lemma TrimTwice(made: seq<Change>, c: Change)
    ensures Trim(Trim(made) + [c]) == Trim(made + [c])
  {
  }

  lemma StepLogged(start: map<Id, Element>, r: RedisBoard, made: seq<Change>, c: Change)
    requires Logged(start, r, made) && c.sequence == r.sequence + 1
    ensures Logged(start, Pipeline(NextSequence(r), c, true), made + [c])
  {
    TrimTwice(made, c);
    assert (made + [c])[..|made|] == made;
  }

  /** The log is the end of the history, the sequence its length, the board its replay. */
  lemma {:induction false} RunFacts(r: RedisBoard, requests: seq<Request>)
    requires Loaded(r)
    ensures var (r', made) := Run(r, requests); Logged(r.elements, r', made)
  {
    if requests != [] {
      var n := |requests| - 1;
      RunFacts(r, requests[..n]);
      var (before, made) := Run(r, requests[..n]);
      StepLogged(r.elements, before, made, ToChange(before, requests[n].upserts, requests[n].deletes, requests[n].now));
    }
  }

  lemma {:induction false} AfterKeepsAll(log: seq<Change>, sequence: int)
    requires forall i | 0 <= i < |log| :: log[i].sequence > sequence
    ensures After(log, sequence) == log
  {
    if log != [] {
      AfterKeepsAll(log[1..], sequence);
    }
  }

  /** Of consecutively numbered changes, the ones after `sequence` are a tail. */
  lemma {:induction false} AfterIsTail(log: seq<Change>, first: int, sequence: int)
    requires forall i | 0 <= i < |log| :: log[i].sequence == first + i
    requires first - 1 <= sequence < first + |log|
    ensures After(log, sequence) == log[sequence - first + 1..]
    decreases |log|
  {
    if sequence < first {
      AfterKeepsAll(log, sequence);
    } else {
      assert After(log, sequence) == After(log[1..], sequence);
      AfterIsTail(log[1..], first + 1, sequence);
      assert log[1..][sequence - first..] == log[sequence - first + 1..];
    }
  }

  lemma {:induction false} SortOfNumbered(log: seq<Change>, first: int)
    requires forall i | 0 <= i < |log| :: log[i].sequence == first + i
    ensures SortBySequence(log) == log
  {
    if log != [] {
      SortOfNumbered(log[1..], first + 1);
      assert log == [log[0]] + log[1..];
    }
  }

  lemma {:induction false} ReplayAppend(m: map<Id, Element>, a: seq<Change>, b: seq<Change>)
    ensures Replay(m, a + b) == Replay(Replay(m, a), b)
  {
    hide ApplyChange;
    if b == [] {
      assert a + b == a;
    } else {
      var n := |b| - 1;
      assert (a + b)[..|a| + n] == a + b[..n];
      ReplayAppend(m, a, b[..n]);
    }
  }

  ghost predicate NumberedFrom(log: seq<Change>, first: int) {
    forall i | 0 <= i < |log| :: log[i].sequence == first + i
  }

  lemma TrimIsTail(made: seq<Change>)
    requires Numbered(made)
    ensures |Trim(made)| <= |made| && Trim(made) == made[|made| - |Trim(made)|..]
    ensures made != [] ==> Trim(made) != []
    ensures NumberedFrom(Trim(made), |made| - |Trim(made)| + 1)
  {
  }

  /** What the log answers when it starts after the client's next change. */
  lemma AnswerWhenTrimmed(r: RedisBoard, first: int, known: int)
    requires NumberedFrom(r.changes, first) && r.changes != [] && known + 1 < first && known < r.sequence
    ensures GetChangesAfter(r, known) == CatchUp(r.changes, false)
  {
    AfterKeepsAll(r.changes, known);
    SortOfNumbered(r.changes, first);
  }

  /** What it answers when the client's next change is still there. */
  lemma AnswerWhenKept(r: RedisBoard, first: int, known: int)
    requires NumberedFrom(r.changes, first) && first <= known + 1 < first + |r.changes| && known < r.sequence
    ensures GetChangesAfter(r, known) == CatchUp(r.changes[known + 1 - first..], true)
  {
    AfterIsTail(r.changes, first, known);
    SortOfNumbered(r.changes[known + 1 - first..], known + 1);
  }

  lemma KeptIffInLog(made: seq<Change>, known: nat)
    requires Numbered(made) && known < |made|
    ensures |made| - |Trim(made)| <= known <==> forall i | known <= i < |made| :: made[i] in Trim(made)
  {
    TrimIsTail(made);
    InTailIff(made, |made| - |Trim(made)|, known);
  }

  lemma InTailIff(made: seq<Change>, lost: nat, known: nat)
    requires Numbered(made) && lost <= |made| && known < |made|
    ensures lost <= known <==> forall i | known <= i < |made| :: made[i] in made[lost..]
  {
    var kept := made[lost..];
    if known < lost {
      assert forall j | 0 <= j < |kept| :: kept[j].sequence == lost + j + 1;
      assert made[known] !in kept;
    } else {
      assert forall i | lost <= i < |made| :: kept[i - lost] == made[i];
    }
  }

  /** The answer is complete exactly when every change after the client's sequence number
      is still in the log; then it is those changes. */
  lemma CompleteIffKept(r: RedisBoard, requests: seq<Request>, known: nat)
    requires Loaded(r)
    ensures var (r', made) := Run(r, requests);
      var answer := GetChangesAfter(r', known);
      && (answer.complete <==> forall i | known <= i < |made| :: made[i] in r'.changes)
      && (answer.complete && known <= |made| ==> answer.changes == made[known..])
  {
    RunFacts(r, requests);
    var (r', made) := Run(r, requests);
    if known < |made| {
      KeptIffInLog(made, known);
      TrimIsTail(made);
      var first := |made| - |r'.changes| + 1;
      if known + 1 < first {
        AnswerWhenTrimmed(r', first, known);
      } else {
        AnswerWhenKept(r', first, known);
        assert made[first - 1..][known + 1 - first..] == made[known..];
      }
    }
  }

  /** A complete answer, replayed on the board the client knows, gives the current board. */
  lemma CatchUpReachesCurrent(r: RedisBoard, requests: seq<Request>, known: nat)
    requires Loaded(r)
    ensures var (r', made) := Run(r, requests);
      var answer := GetChangesAfter(r', known);
      answer.complete && known <= |made| ==> Replay(Replay(r.elements, made[..known]), answer.changes) == r'.elements
  {
    RunFacts(r, requests);
    CompleteIffKept(r, requests, known);
    var (r', made) := Run(r, requests);
    if known <= |made| {
      assert made == made[..known] + made[known..];
      ReplayAppend(r.elements, made[..known], made[known..]);
    }
  }

  // ----- Across an eviction -----

  /** One change that creates an element. */
  lemma OneCreate(r: RedisBoard, e: Element)
    requires Loaded(r) && IdOf(e) !in r.elements
    ensures var (r', made) := Run(r, [Request([e], [], 0)]);
      |made| == 1 && r'.sequence == 1 && IdOf(e) in r'.elements
  {
    var request := Request([e], [], 0);
    RunFacts(r, [request]);
    assert Run(r, [request][..0]) == (r, []);
    var c := ToChange(r, [e], [], 0);
    ChangeMeaning(r, [e], [], 0);
    LastWinsSnoc([], e);
    assert [] + [e] == [e];
    assert IdOf(e) in StampAll(LastWins([e]), 0);
    assert CascadeOf(r.elements, []) == {};
    assert IdOf(e) in r.elements + StampAll(LastWins([e]), 0) - {};
  }

  /** The answer is complete and, replayed on `board`, gives the current board. */
  ghost predicate RightFor(board: map<Id, Element>, r: RedisBoard, known: nat) {
    GetChangesAfter(r, known).complete ==> Replay(board, GetChangesAfter(r, known).changes) == r.elements
  }

  /** An eviction restarts the sequence. A client that holds the board as it was evicted, at sequence `known`,
      is served right by every complete answer after the reload if and only if `known` is 0: to any other
      client, a board that has changed again may be reported unchanged. */
  lemma CatchUpAcrossReloadIff(r: RedisBoard, known: nat, e: Element)
    requires Loaded(r) && IdOf(e) !in r.elements
    ensures (forall requests: seq<Request> :: RightFor(r.elements, Run(r, requests).0, known)) <==> known == 0
  {
    if known == 0 {
      forall requests: seq<Request> ensures RightFor(r.elements, Run(r, requests).0, 0) {
        CatchUpReachesCurrent(r, requests, 0);
        assert Replay(r.elements, Run(r, requests).1[..0]) == r.elements;
      }
    } else {
      OneCreate(r, e);
      var (r', made) := Run(r, [Request([e], [], 0)]);
      assert GetChangesAfter(r', known) == CatchUp([], true);
      assert Replay(r.elements, []) == r.elements;
      assert !RightFor(r.elements, r', known);
    }
  }
}
