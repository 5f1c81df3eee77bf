/** The board mutation lock: a token with an expiry shared by all processes, behind a chain of
    promises in each process. */
module MutationLock {
  import opened Elements

  const TTL_MS := 30_000
  const POLL_MS := 25
  const ACQUIRE_TIMEOUT_MS := 2_000

  type Token = nat

  datatype Lease = Lease(token: Token, expiry: Time)

  /** `inside` maps the token of each task in the lock to the time its lease was last set or renewed. */
  datatype Cell = Cell(now: Time, lease: Option<Lease>, used: set<Token>, inside: map<Token, Time>)

  datatype Action =
    | Acquire(token: Token)
    | Extend(token: Token)
    | Release(token: Token)
    | Die(token: Token)
    | Evict
    | Wait(ms: nat)

  predicate Live(c: Cell) {
    c.lease.Some? && c.now < c.lease.value.expiry
  }

  predicate Holds(c: Cell, token: Token) {
    Live(c) && c.lease.value.token == token
  }

  /** An attempt has a fresh token; a renewal may arrive long after its holder has left; and an eviction
      of the board, whose scan matches the lock key too, may delete the lease at any time. */
  predicate Enabled(c: Cell, a: Action) {
    match a
    case Acquire(token) => token !in c.used
    case Extend(token) => token in c.used
    case Release(token) => token in c.inside
    case Die(token) => token in c.inside
    case Evict => true
    case Wait(_) => true
  }

  function Next(c: Cell, a: Action): Cell
    requires Enabled(c, a)
  {
    match a
    case Acquire(token) =>
      if Live(c) then c.(used := c.used + {token})
      else c.(lease := Some(Lease(token, c.now + TTL_MS)), used := c.used + {token}, inside := c.inside[token := c.now])
    case Extend(token) =>
      var renewed := if token in c.inside then c.(inside := c.inside[token := c.now]) else c;
      if Holds(c, token) then renewed.(lease := Some(Lease(token, c.now + TTL_MS))) else renewed
    case Release(token) =>
      c.(lease := if Holds(c, token) then None else c.lease, inside := c.inside - {token})
    case Die(token) => c.(inside := c.inside - {token})
    case Evict => c.(lease := None)
    case Wait(ms) => c.(now := c.now + ms)
  }

  ghost predicate ValidRun(c: Cell, run: seq<Action>)
    decreases |run|
  {
    run == [] || (Enabled(c, run[0]) && ValidRun(Next(c, run[0]), run[1..]))
  }

  function After(c: Cell, run: seq<Action>): Cell
    requires ValidRun(c, run)
    decreases |run|
  {
    if run == [] then c else After(Next(c, run[0]), run[1..])
  }

  function Unlocked(now: Time): Cell {
    Cell(now, None, {}, map[])
  }

  // ----- Exclusion -----

  /** No holder lets a whole time-to-live pass without renewing, and no eviction finds a task inside. */
  ghost predicate Timely(c: Cell, a: Action) {
    && (a.Wait? ==> forall t | t in c.inside :: c.now + a.ms < c.inside[t] + TTL_MS)
    && (a.Evict? ==> c.inside == map[])
  }

  ghost predicate TimelyRun(c: Cell, run: seq<Action>)
    requires ValidRun(c, run)
    decreases |run|
  {
    run == [] || (Timely(c, run[0]) && TimelyRun(Next(c, run[0]), run[1..]))
  }

  /** Whoever is inside owns the live lease. */
  ghost predicate Inv(c: Cell) {
    && (forall t | t in c.inside :: t in c.used && c.lease == Some(Lease(t, c.inside[t] + TTL_MS)) && Live(c))
    && (c.lease.Some? ==> c.lease.value.token in c.used)
  }

  lemma {:induction false} RunKeepsInv(c: Cell, run: seq<Action>)
    requires Inv(c) && ValidRun(c, run) && TimelyRun(c, run)
    ensures Inv(After(c, run))
    decreases |run|
  {
    if run != [] {
      RunKeepsInv(Next(c, run[0]), run[1..]);
    }
  }

  /** Over every timed run in which holders renew in time and no eviction finds a task inside, at most one
      task of all processes is inside, and it holds the live lease. */
  lemma AtMostOneInside(now: Time, run: seq<Action>, t: Token, u: Token)
    requires ValidRun(Unlocked(now), run) && TimelyRun(Unlocked(now), run)
    requires var c := After(Unlocked(now), run); t in c.inside && u in c.inside
    ensures t == u && Holds(After(Unlocked(now), run), t)
  {
    RunKeepsInv(Unlocked(now), run);
  }

  /** The assumption is exact: a wait is harmless to the holder if and only if it ends before the
      lease it last renewed does; any longer and the next attempt gets in beside it. */
  lemma WaitIsSafeIffTimely(now: Time, run: seq<Action>, holder: Token, ms: nat, newcomer: Token)
    requires ValidRun(Unlocked(now), run) && TimelyRun(Unlocked(now), run)
    requires var c := After(Unlocked(now), run); holder in c.inside && newcomer !in c.used
    ensures var c := After(Unlocked(now), run);
      newcomer !in Next(Next(c, Wait(ms)), Acquire(newcomer)).inside <==> c.now + ms < c.inside[holder] + TTL_MS
  {
    RunKeepsInv(Unlocked(now), run);
  }

  ghost predicate Exclusive(c: Cell) {
    forall t, u | t in c.inside && u in c.inside :: t == u
  }

  /** The other assumption is exact too: an eviction keeps the lock exclusive if and only if it finds nobody
      inside; otherwise it takes the holder's lease away and the next attempt gets in beside it. */
  lemma EvictionIsSafeIffNobodyInside(now: Time, run: seq<Action>, newcomer: Token)
    requires ValidRun(Unlocked(now), run) && TimelyRun(Unlocked(now), run)
    requires newcomer !in After(Unlocked(now), run).used
    ensures var c := After(Unlocked(now), run);
      Exclusive(Next(Next(c, Evict), Acquire(newcomer))) <==> c.inside == map[]
  {
    RunKeepsInv(Unlocked(now), run);
    var c := After(Unlocked(now), run);
    var d := Next(Next(c, Evict), Acquire(newcomer));
    assert newcomer in d.inside;
    if t :| t in c.inside {
      assert t in d.inside && t != newcomer;
    }
  }

  /** What holds at any timing: a lease never outlives one time-to-live from now. */
  ghost predicate Bounded(c: Cell) {
    c.lease.Some? ==> c.lease.value.token in c.used && c.lease.value.expiry <= c.now + TTL_MS
  }

  lemma {:induction false} RunKeepsBounded(c: Cell, run: seq<Action>)
    requires Bounded(c) && ValidRun(c, run)
    ensures Bounded(After(c, run))
    decreases |run|
  {
    if run != [] {
      RunKeepsBounded(Next(c, run[0]), run[1..]);
    }
  }

  /** A step that ends the lease of `token` before its time. */
  predicate Ends(a: Action, token: Token) {
    a == Release(token) || a == Evict
  }

  lemma {:induction false} LostIsLost(c: Cell, run: seq<Action>, token: Token)
    requires token in c.used && (c.lease.Some? ==> c.lease.value.token != token) && ValidRun(c, run)
    ensures !Holds(After(c, run), token)
    decreases |run|
  {
    if run != [] {
      LostIsLost(Next(c, run[0]), run[1..], token);
    }
  }

  lemma {:induction false} LeaseEnds(c: Cell, run: seq<Action>, token: Token)
    requires Bounded(c) && Holds(c, token) && ValidRun(c, run) && After(c, run).now < c.lease.value.expiry
    ensures var d := After(c, run);
      && (Holds(d, token) <==> forall i | 0 <= i < |run| :: !Ends(run[i], token))
      && (Holds(d, token) ==> d.lease.value.expiry >= c.lease.value.expiry && d.inside.Keys <= c.inside.Keys)
    decreases |run|
  {
    if run != [] {
      var c1 := Next(c, run[0]);
      TimeOnlyGrows(c1, run[1..]);
      assert forall i | 0 <= i < |run[1..]| :: run[1..][i] == run[i + 1];
      assert forall i | 0 < i < |run| :: run[i] == run[1..][i - 1];
      if Ends(run[0], token) {
        LostIsLost(c1, run[1..], token);
      } else {
        LeaseEnds(c1, run[1..], token);
      }
    }
  }

  /** At any timing, a live lease is kept until it expires if and only if its owner does not release it and
      no eviction deletes it: renewals and releases by other tokens never end or shorten it. While it is
      kept nobody new gets in. */
  lemma LeaseIsSafeIff(now: Time, before: seq<Action>, run: seq<Action>, token: Token)
    requires ValidRun(Unlocked(now), before)
    requires var c := After(Unlocked(now), before);
      Holds(c, token) && ValidRun(c, run) && After(c, run).now < c.lease.value.expiry
    ensures var c := After(Unlocked(now), before); var d := After(c, run);
      && (Holds(d, token) <==> forall i | 0 <= i < |run| :: !Ends(run[i], token))
      && (Holds(d, token) ==> d.lease.value.expiry >= c.lease.value.expiry && d.inside.Keys <= c.inside.Keys)
  {
    RunKeepsBounded(Unlocked(now), before);
    LeaseEnds(After(Unlocked(now), before), run, token);
  }

  lemma {:induction false} TimeOnlyGrows(c: Cell, run: seq<Action>)
    requires ValidRun(c, run)
    ensures c.now <= After(c, run).now
    decreases |run|
  {
    if run != [] {
      TimeOnlyGrows(Next(c, run[0]), run[1..]);
    }
  }

  // ----- Acquiring -----

  /** What the `k`th attempt finds: the lease another task left, at the time of the attempt. */
  function CellAt(found: nat -> Option<Lease>, setAt: nat -> Time, k: nat): Cell {
    Cell(setAt(k), found(k), {}, map[])
  }

  /** When the attempts are made and the deadline is looked at: an attempt, the look, then a sleep. */
  ghost predicate Polling(startedAt: Time, setAt: nat -> Time, checkAt: nat -> Time) {
    startedAt <= setAt(0) && forall k: nat :: setAt(k) <= checkAt(k) && checkAt(k) + POLL_MS <= setAt(k + 1)
  }

  lemma PollAt(startedAt: Time, setAt: nat -> Time, checkAt: nat -> Time, k: nat)
    requires Polling(startedAt, setAt, checkAt)
    ensures startedAt <= setAt(0) && setAt(k) <= checkAt(k) && checkAt(k) + POLL_MS <= setAt(k + 1)
  {
  }

  /** Poll until an attempt succeeds or the deadline has passed: at most 81 attempts. Each attempt is the step
      of the lock machine on what it finds; a failure comes only after every one of them found a live
      lease and the timeout is over, and leaves the lease alone. */
  method AcquireMutationLock(found: nat -> Option<Lease>, token: nat -> Token, startedAt: Time,
                             setAt: nat -> Time, checkAt: nat -> Time)
    returns (acquired: bool, attempts: nat, lease: Option<Lease>)
    requires Polling(startedAt, setAt, checkAt)
    ensures 1 <= attempts <= ACQUIRE_TIMEOUT_MS / POLL_MS + 1
    ensures acquired <==> !Live(CellAt(found, setAt, attempts - 1))
    ensures lease == Next(CellAt(found, setAt, attempts - 1), Acquire(token(attempts - 1))).lease
    ensures forall k | 0 <= k < attempts - 1 ::
      Live(CellAt(found, setAt, k)) && checkAt(k) < startedAt + ACQUIRE_TIMEOUT_MS
    ensures !acquired ==> checkAt(attempts - 1) >= startedAt + ACQUIRE_TIMEOUT_MS
  {
    hide Polling;
    PollAt(startedAt, setAt, checkAt, 0);
    var deadline := startedAt + ACQUIRE_TIMEOUT_MS;
    attempts := 0;
    while true
      invariant startedAt + attempts * POLL_MS <= setAt(attempts)
      invariant forall k | 0 <= k < attempts :: Live(CellAt(found, setAt, k)) && checkAt(k) < deadline
      invariant attempts > 0 ==> startedAt + (attempts - 1) * POLL_MS < deadline
      decreases ACQUIRE_TIMEOUT_MS - attempts
    {
      lease := found(attempts);
      var taken := lease.Some? && setAt(attempts) < lease.value.expiry;
      if !taken {
        lease := Some(Lease(token(attempts), setAt(attempts) + TTL_MS));
      }
      PollAt(startedAt, setAt, checkAt, attempts);
      attempts := attempts + 1;
      if !taken {
        return true, attempts, lease;
      }
      if checkAt(attempts - 1) >= deadline {
        return false, attempts, lease;
      }
    }
  }
}

/** The chain of promises that lines up the callers of one process. */
module LocalLock {
  import opened Elements

  datatype Promise =
    | Resolved
    | Raw(task: nat)
    | Then(previous: Promise, task: nat)

  datatype Phase = Waiting | Running | Finished

  datatype Task = Task(previous: Promise, phase: Phase)

  /** `entry` is what the map holds for the board; tasks are numbered as they arrive. */
  datatype Queue = Queue(entry: Option<Promise>, tasks: seq<Task>)

  datatype Action = Arrive | Enter(task: nat) | Leave(task: nat)

  /** A raw promise is resolved once its task has released it; `p.then(() => q)` once both are. */
  predicate Settled(q: Queue, p: Promise) {
    match p
    case Resolved => true
    case Raw(i) => i < |q.tasks| && q.tasks[i].phase.Finished?
    case Then(previous, i) => Settled(q, previous) && i < |q.tasks| && q.tasks[i].phase.Finished?
  }

  predicate Enabled(q: Queue, a: Action) {
    match a
    case Arrive => true
    case Enter(i) => i < |q.tasks| && q.tasks[i].phase.Waiting? && Settled(q, q.tasks[i].previous)
    case Leave(i) => i < |q.tasks| && q.tasks[i].phase.Running?
  }

  function Next(q: Queue, a: Action): Queue
    requires Enabled(q, a)
  {
    match a
    case Arrive =>
      var previous := if q.entry.Some? then q.entry.value else Resolved;
      Queue(Some(Then(previous, |q.tasks|)), q.tasks + [Task(previous, Waiting)])
    case Enter(i) => q.(tasks := q.tasks[i := q.tasks[i].(phase := Running)])
    case Leave(i) =>
      Queue(if q.entry == Some(Raw(i)) then None else q.entry, q.tasks[i := q.tasks[i].(phase := Finished)])
  }

  ghost predicate ValidRun(q: Queue, run: seq<Action>)
    decreases |run|
  {
    run == [] || (Enabled(q, run[0]) && ValidRun(Next(q, run[0]), run[1..]))
  }

  function After(q: Queue, run: seq<Action>): Queue
    requires ValidRun(q, run)
    decreases |run|
  {
    if run == [] then q else After(Next(q, run[0]), run[1..])
  }

  const EMPTY := Queue(None, [])

  /** The promise of the first `n` callers. */
  function ChainOf(n: nat): Promise {
    if n == 0 then Resolved else Then(ChainOf(n - 1), n - 1)
  }

  lemma {:induction false} ChainSettled(q: Queue, n: nat)
    requires n <= |q.tasks|
    ensures Settled(q, ChainOf(n)) <==> forall i | 0 <= i < n :: q.tasks[i].phase.Finished?
  {
    if n > 0 {
      ChainSettled(q, n - 1);
    }
  }

  ghost predicate InOrder(q: Queue) {
    forall i, j | 0 <= i < j < |q.tasks| :: !q.tasks[j].phase.Waiting? ==> q.tasks[i].phase.Finished?
  }

  ghost predicate Inv(q: Queue) {
    && (forall i | 0 <= i < |q.tasks| :: q.tasks[i].previous == ChainOf(i))
    && q.entry == (if q.tasks == [] then None else Some(ChainOf(|q.tasks|)))
    && InOrder(q)
  }

  lemma StepKeepsInv(q: Queue, a: Action)
    requires Inv(q) && Enabled(q, a)
    ensures Inv(Next(q, a))
  {
    hide Settled;
    var q' := Next(q, a);
    match a
    case Arrive =>
      assert ChainOf(|q'.tasks|) == Then(ChainOf(|q.tasks|), |q.tasks|);
    case Enter(i) =>
      ChainSettled(q, i);
      assert forall j | i < j < |q.tasks| :: q.tasks[j].phase.Waiting?;
    case Leave(i) =>
      assert ChainOf(|q.tasks|).Then?;
      assert forall j | 0 <= j < |q.tasks| :: q'.tasks[j].previous == q.tasks[j].previous;
  }

  lemma {:induction false} RunKeepsInv(q: Queue, run: seq<Action>)
    requires Inv(q) && ValidRun(q, run)
    ensures Inv(After(q, run))
    decreases |run|
  {
    if run != [] {
      StepKeepsInv(q, run[0]);
      RunKeepsInv(Next(q, run[0]), run[1..]);
    }
  }

  /** Over every run the callers run one at a time and in arrival order: while one runs, all before
      it have finished and all after it wait; and the next in line can enter as soon as it has left. */
  lemma FirstComeFirstServed(run: seq<Action>, i: nat)
    requires ValidRun(EMPTY, run) && i < |After(EMPTY, run).tasks|
    ensures var q := After(EMPTY, run);
      && (!q.tasks[i].phase.Waiting? ==> forall j | 0 <= j < i :: q.tasks[j].phase.Finished?)
      && (!q.tasks[i].phase.Finished? ==> forall j | i < j < |q.tasks| :: q.tasks[j].phase.Waiting?)
      && (Enabled(q, Enter(i)) <==> q.tasks[i].phase.Waiting? && forall j | 0 <= j < i :: q.tasks[j].phase.Finished?)
  {
    RunKeepsInv(EMPTY, run);
    ChainSettled(After(EMPTY, run), i);
  }

  /** The map entry is never dropped: it is never the raw promise it is compared with, so it stays
      and names every caller there ever was. */
  lemma EntryIsNeverDropped(run: seq<Action>)
    requires ValidRun(EMPTY, run)
    ensures var q := After(EMPTY, run);
      q.entry == (if q.tasks == [] then None else Some(ChainOf(|q.tasks|)))
  {
    RunKeepsInv(EMPTY, run);
  }
}
