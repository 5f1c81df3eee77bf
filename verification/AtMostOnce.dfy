/** Mutation ids are claimed once: resubmissions, alone or in batches, change nothing. The
    seen window is taken as open: no id expires and the board is not evicted during the run. */
module AtMostOnce {
  import opened Elements
  import opened BoardState
  import opened LockEnforcement
  import opened Processor
  import opened Batch
  import opened MutationProcessor

  /** One processing of a mutation, in any context and under any verdict. */
  datatype Attempt = Attempt(m: Mutation, context: Context, blocked: bool, mode: Mode, now: Time)

  ghost function Try(r: RedisBoard, a: Attempt): Outcome {
    Process(r, a.m, a.context, a.blocked, a.mode, a.now)
  }

  /** How many attempts applied a change under mutation id `id`. */
  ghost function Applications(r: RedisBoard, attempts: seq<Attempt>, id: MutationId): nat
    decreases |attempts|
  {
    if attempts == [] then 0
    else
      var out := Try(r, attempts[0]);
      (if out.result.change.Some? && attempts[0].m.mutationId == id then 1 else 0)
      + Applications(out.redis, attempts[1..], id)
  }

  lemma TryMarks(r: RedisBoard, a: Attempt)
    ensures var out := Try(r, a);
      && r.seen <= out.redis.seen
      && (out.result.change.Some? ==> a.m.mutationId !in r.seen && a.m.mutationId in out.redis.seen)
      && (IsTransient(a.m.op) || a.m.mutationId in out.redis.seen)
      && (IsTransient(a.m.op) || a.m.mutationId in r.seen ==> out.redis == r && out.result.change.None?)
  {
  }

  /** Over any run with any resubmissions, an id yields at most one applied change, and none if it was already seen. */
  lemma {:induction false} AppliedAtMostOnce(r: RedisBoard, attempts: seq<Attempt>, id: MutationId)
    ensures Applications(r, attempts, id) <= if id in r.seen then 0 else 1
    decreases |attempts|
  {
    if attempts != [] {
      hide Process;
      TryMarks(r, attempts[0]);
      AppliedAtMostOnce(Try(r, attempts[0]).redis, attempts[1..], id);
    }
  }

  /** Every mutation of the batch is transient or already seen on its board. */
  ghost predicate AllSeen(boards: Boards, batch: seq<Mutation>) {
    forall m | m in batch :: IsTransient(m.op) || m.mutationId in At(boards, m.boardId).seen
  }

  lemma StepMarks(boards: Boards, batch: seq<Mutation>, i: nat, st: Setting)
    requires i < |batch|
    ensures var before, after := OneByOne(boards, batch, i, st).boards, OneByOne(boards, batch, i + 1, st).boards;
      && (forall b :: At(before, b).seen <= At(after, b).seen)
      && (IsTransient(batch[i].op) || batch[i].mutationId in At(after, batch[i].boardId).seen)
      && (IsTransient(batch[i].op) || batch[i].mutationId in At(before, batch[i].boardId).seen ==>
            && (forall b :: At(after, b) == At(before, b))
            && OneByOne(boards, batch, i + 1, st).results[i].change.None?)
  {
    hide Process, VerdictAt;
    var before := OneByOne(boards, batch, i, st).boards;
    var m := batch[i];
    var r := At(before, m.boardId);
    TryMarks(r, Attempt(m, r.elements, VerdictAt(boards, batch, i, st), st.modes(m.boardId), st.clock(i)));
  }

  /** A processed batch leaves every id of it seen. */
  lemma {:induction false} BatchMarksAll(boards: Boards, batch: seq<Mutation>, n: nat, st: Setting)
    requires n <= |batch|
    ensures AllSeen(OneByOne(boards, batch, n, st).boards, batch[..n])
  {
    hide OneByOne, IsTransient;
    if n > 0 {
      BatchMarksAll(boards, batch, n - 1, st);
      StepMarks(boards, batch, n - 1, st);
      assert batch[..n] == batch[..n - 1] + [batch[n - 1]];
    }
  }

  lemma {:induction false} SeenBatchIsIdle(boards: Boards, batch: seq<Mutation>, n: nat, st: Setting)
    requires n <= |batch| && AllSeen(boards, batch)
    ensures forall b :: At(OneByOne(boards, batch, n, st).boards, b) == At(boards, b)
    ensures forall i | 0 <= i < n :: OneByOne(boards, batch, n, st).results[i].change.None?
  {
    if n > 0 {
      SeenBatchIsIdle(boards, batch, n - 1, st);
      StepMarks(boards, batch, n - 1, st);
      assert batch[n - 1] in batch;
      assert OneByOne(boards, batch, n, st).results[..n - 1] == OneByOne(boards, batch, n - 1, st).results;
    }
  }

  /** No board of the batch is evicted by it, as happens to a changed solo board that is gone from Postgres. */
  ghost predicate NoneEvicted(incremental: bool, boards: Boards, batch: seq<Mutation>, st: Setting) {
    forall m | m in batch :: !EvictedBy(incremental, boards, batch, m.boardId, st)
  }

  /** Replaying a whole batch after it was processed (flushes included), in any setting, leaves
      every key of every board as it was: elements, sequence, epoch, markers and log. */
  lemma ReplayedBatchChangesNothing(incremental: bool, boards: Boards, batch: seq<Mutation>, st: Setting, after: Boards, again: Setting)
    requires forall b :: At(after, b) == FinalRedis(incremental, boards, batch, b, st)
    requires NoneEvicted(incremental, boards, batch, st)
    ensures forall b :: FinalRedis(incremental, after, batch, b, again) == At(after, b)
    ensures forall i | 0 <= i < |batch| :: OneByOne(after, batch, |batch|, again).results[i].change.None?
  {
    hide Process, OneByOne, ChangedBy;
    BatchMarksAll(boards, batch, |batch|, st);
    assert batch[..|batch|] == batch;
    assert AllSeen(after, batch);
    SeenBatchIsIdle(after, batch, |batch|, again);
    ResultsAreOneByOne(after, batch, |batch|, again);
    forall b ensures !ChangedBy(after, batch, b, |batch|, again) {
      NothingChanged(after, batch, b, again);
    }
  }

  lemma NothingChanged(boards: Boards, batch: seq<Mutation>, b: BoardId, st: Setting)
    requires forall i | 0 <= i < |batch| :: OneByOne(boards, batch, |batch|, st).results[i].change.None?
    ensures !ChangedBy(boards, batch, b, |batch|, st)
  {
    hide Process, OneByOne;
    ResultsAreOneByOne(boards, batch, |batch|, st);
    forall i | 0 <= i < |batch| ensures !ResultAt(boards, batch, i, st).applied {
      AppliedHasChange(boards, batch, i, st);
    }
  }

  lemma AppliedHasChange(boards: Boards, batch: seq<Mutation>, i: nat, st: Setting)
    requires i < |batch|
    ensures ResultAt(boards, batch, i, st).applied <==> ResultAt(boards, batch, i, st).result.change.Some?
  {
    hide CachedAt, AppliedChangeSet;
  }
}
