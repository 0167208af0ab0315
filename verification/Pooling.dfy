/**
 The shared pool of read buffers over whole runs: a buffer is made only when
 none is free, so there are never more than were in use at once, and buffers
 leave the pool in the order they came back.
 */
module Pooling {
  import opened Wrappers
  import opened ActorPool
  import opened ReadSide

  // ---------------------------------------------------------------- buffers in use

  function RunningWorkers(ws: seq<Worker<Chunk>>): nat {
    if ws == [] then 0 else (if ws[0].Running? then 1 else 0) + RunningWorkers(ws[1..])
  }

  lemma {:induction false} RunningUpdate(ws: seq<Worker<Chunk>>, i: nat, w: Worker<Chunk>)
    requires i < |ws|
    ensures RunningWorkers(ws[i := w]) + (if ws[i].Running? then 1 else 0)
         == RunningWorkers(ws) + (if w.Running? then 1 else 0)
  {
    if i == 0 {
      assert ws[0 := w][1..] == ws[1..];
    } else {
      assert ws[i := w][1..] == ws[1..][i - 1 := w];
      RunningUpdate(ws[1..], i - 1, w);
    }
  }

  /** One buffer for the selector's hand, one for each task not yet started, one for each running. */
  function InUse(r: Reading): int {
    (if r.hand.Some? then 1 else 0) + (|r.pool.submitted| - |r.pool.started|) + RunningWorkers(r.pool.workers)
  }

  predicate Balanced(r: Reading) {
    r.made == |r.free| + InUse(r)
  }

  lemma {:induction false} NoneRunning(ws: seq<Worker<Chunk>>)
    requires forall i :: 0 <= i < |ws| ==> ws[i].Idle?
    ensures RunningWorkers(ws) == 0
  {
    if ws != [] {
      NoneRunning(ws[1..]);
    }
  }

  lemma StepBalanced(r: Reading, a: Act)
    requires Can(r, a) && Balanced(r)
    ensures Balanced(Do(r, a))
  {
    match a
    case Start(w) => RunningUpdate(r.pool.workers, w, Running(r.pool.queue[0]));
    case Release(w) => RunningUpdate(r.pool.workers, w, Finished(r.pool.workers[w].job));
    case Throw(w) => RunningUpdate(r.pool.workers, w, Finished(r.pool.workers[w].job));
    case Finish(w) => RunningUpdate(r.pool.workers, w, Idle);
    case _ =>
  }

  /** A buffer is made only by leasing from an empty pool. */
  lemma StepMakes(r: Reading, a: Act)
    requires Can(r, a) && Balanced(r)
    ensures Do(r, a).made == r.made || (Do(r, a).made == r.made + 1 == InUse(Do(r, a)) && r.hand.None?)
  {
    StepBalanced(r, a);
  }

  // ---------------------------------------------------------------- as many as were in use at once

  lemma {:induction false} RunBalanced(trace: seq<Reading>, threads: nat)
    requires ReadSide.IsRun(trace, threads)
    ensures Balanced(trace[|trace| - 1])
    decreases |trace|
  {
    var n := |trace| - 1;
    if n == 0 {
      NoneRunning(trace[0].pool.workers);
    } else {
      RunBalanced(trace[..n], threads);
      assert ReadSide.Next(trace[n - 1], trace[n]);
      var a: Act :| Can(trace[n - 1], a) && trace[n] == Do(trace[n - 1], a);
      StepBalanced(trace[n - 1], a);
    }
  }

  /** In no state of a run were more buffers in use than have been made by its end. */
  ghost predicate NeverMore(trace: seq<Reading>, made: nat) {
    forall i :: 0 <= i < |trace| ==> InUse(trace[i]) <= made
  }

  ghost predicate OnceAsMany(trace: seq<Reading>, made: nat) {
    exists i :: 0 <= i < |trace| && InUse(trace[i]) == made
  }

  lemma PeakGrows(trace: seq<Reading>, r: Reading, made: nat)
    requires NeverMore(trace, made) && OnceAsMany(trace, made)
    requires Balanced(r) && (r.made == made || r.made == made + 1 == InUse(r))
    ensures NeverMore(trace + [r], r.made) && OnceAsMany(trace + [r], r.made)
  {
    var t := trace + [r];
    assert t[|trace|] == r;
    if r.made == made {
      var i :| 0 <= i < |trace| && InUse(trace[i]) == made;
      assert t[i] == trace[i];
    }
  }

  /** The buffers ever made are as many as were in use at once at the busiest moment of the run. */
  lemma {:induction false} MadeIsPeak(trace: seq<Reading>, threads: nat)
    requires ReadSide.IsRun(trace, threads)
    ensures NeverMore(trace, trace[|trace| - 1].made) && OnceAsMany(trace, trace[|trace| - 1].made)
    decreases |trace|
  {
    var n := |trace| - 1;
    RunBalanced(trace, threads);
    if n == 0 {
      assert InUse(trace[0]) == trace[0].made;
    } else {
      MadeIsPeak(trace[..n], threads);
      RunBalanced(trace[..n], threads);
      NextMakes(trace[n - 1], trace[n]);
      LastApart(trace);
      PeakGrows(trace[..n], trace[n], trace[n - 1].made);
    }
  }

  lemma NextMakes(r: Reading, q: Reading)
    requires ReadSide.Next(r, q) && Balanced(r)
    ensures q.made == r.made || (q.made == r.made + 1 == InUse(q) && r.hand.None?)
  {
    var a: Act :| Can(r, a) && q == Do(r, a);
    StepMakes(r, a);
  }

  /** A run in which every buffer is back before the next is leased makes one at most. */
  lemma OneBufferServes(trace: seq<Reading>, threads: nat)
    requires ReadSide.IsRun(trace, threads)
    requires forall i :: 0 <= i < |trace| - 1 && Leases(trace[i], trace[i + 1]) ==> InUse(trace[i]) == 0
    ensures trace[|trace| - 1].made <= 1
    decreases |trace|
  {
    var n := |trace| - 1;
    if n > 0 {
      OneBufferServes(trace[..n], threads);
      RunBalanced(trace[..n], threads);
      NextMakes(trace[n - 1], trace[n]);
      assert ReadSide.Next(trace[n - 1], trace[n]);
      assert Leases(trace[n - 1], trace[n]) ==> InUse(trace[n - 1]) == 0;
      LeaseAddsOne(trace[n - 1], trace[n]);
    }
  }

  predicate Leases(r: Reading, q: Reading) {
    r.hand.None? && q.hand.Some?
  }

  lemma LeaseAddsOne(r: Reading, q: Reading)
    requires ReadSide.Next(r, q)
    ensures q.made > r.made ==> Leases(r, q)
    ensures Leases(r, q) ==> InUse(q) == InUse(r) + 1
  {
    var a: Act :| Can(r, a) && q == Do(r, a);
    if !a.Lease? {
      OthersOnlyReturn(r, a);
    }
  }

  /** Steps other than leasing make no buffer and take none: they may put one back. */
  lemma OthersOnlyReturn(r: Reading, a: Act)
    requires Can(r, a) && !a.Lease?
    ensures Do(r, a).made == r.made && !Leases(r, Do(r, a))
    ensures Do(r, a).free == r.free || (Do(r, a).free != [] && Do(r, a).free[..|Do(r, a).free| - 1] == r.free)
  {
  }

  // ---------------------------------------------------------------- what a buffer holds

  predicate ChunksFit(jobs: seq<Job<Chunk>>) {
    forall j :: j in jobs ==> |j.task.bytes| <= 8192
  }

  lemma StepFits(r: Reading, a: Act)
    requires Can(r, a) && ChunksFit(r.pool.submitted)
    ensures ChunksFit(Do(r, a).pool.submitted)
  {
  }

  /** No task is given more bytes than a buffer of 8K holds. */
  lemma {:induction false} RunFits(trace: seq<Reading>, threads: nat)
    requires ReadSide.IsRun(trace, threads)
    ensures ChunksFit(trace[|trace| - 1].pool.submitted)
    decreases |trace|
  {
    var n := |trace| - 1;
    if n > 0 {
      RunFits(trace[..n], threads);
      assert ReadSide.Next(trace[n - 1], trace[n]);
      var a: Act :| Can(trace[n - 1], a) && trace[n] == Do(trace[n - 1], a);
      StepFits(trace[n - 1], a);
    }
  }

  // ---------------------------------------------------------------- first in, first out

  /** What a step put back into the pool. */
  function PutBack(r: Reading, q: Reading): seq<nat> {
    if |q.free| > |r.free| then [q.free[|q.free| - 1]] else []
  }

  /** What a step took out of the pool: a buffer leased, and not made for the lease. */
  function TakenOut(r: Reading, q: Reading): seq<nat> {
    if Leases(r, q) && q.made == r.made then [q.hand.value] else []
  }

  function Returned(trace: seq<Reading>): seq<nat> {
    if |trace| <= 1 then []
    else Returned(trace[..|trace| - 1]) + PutBack(trace[|trace| - 2], trace[|trace| - 1])
  }

  function Reused(trace: seq<Reading>): seq<nat> {
    if |trace| <= 1 then []
    else Reused(trace[..|trace| - 1]) + TakenOut(trace[|trace| - 2], trace[|trace| - 1])
  }

  lemma StepIsQueue(r: Reading, q: Reading)
    requires ReadSide.Next(r, q)
    ensures r.free + PutBack(r, q) == TakenOut(r, q) + q.free
  {
    var a: Act :| Can(r, a) && q == Do(r, a);
    ActIsQueue(r, a);
  }

  lemma ActIsQueue(r: Reading, a: Act)
    requires Can(r, a)
    ensures r.free + PutBack(r, Do(r, a)) == TakenOut(r, Do(r, a)) + Do(r, a).free
  {
    if a.Lease? {
      LeaseIsQueue(r);
    } else {
      OthersOnlyReturn(r, a);
    }
  }

  lemma LeaseIsQueue(r: Reading)
    requires r.hand.None?
    ensures r.free + PutBack(r, LeaseBuffer(r)) == TakenOut(r, LeaseBuffer(r)) + LeaseBuffer(r).free
  {
    if r.free != [] {
      HeadApart(r.free);
    }
  }

  /** The pool holds what has come back and not been leased again, and is leased from in that order. */
  lemma {:induction false} PoolIsQueue(trace: seq<Reading>, threads: nat)
    requires ReadSide.IsRun(trace, threads)
    ensures Returned(trace) == Reused(trace) + trace[|trace| - 1].free
    decreases |trace|
  {
    var n := |trace| - 1;
    if n > 0 {
      PoolIsQueue(trace[..n], threads);
      var r, q := trace[n - 1], trace[n];
      assert ReadSide.Next(r, q);
      StepIsQueue(r, q);
      AppendAssoc(Reused(trace[..n]), r.free, PutBack(r, q));
      AppendAssoc(Reused(trace[..n]), TakenOut(r, q), q.free);
    }
  }
}
