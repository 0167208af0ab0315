/**
 Ownership of the 8K read buffers: at any time each of them is in the shared
 pool, in the selector's hand, or in exactly one unfinished task.
 */
module Buffers {
  import opened Wrappers
  import opened ActorPool
  import opened ReadSide

  predicate NoDup(s: seq<nat>) {
    forall i, j :: 0 <= i < j < |s| ==> s[i] != s[j]
  }

  function OpenBufs(r: Reading, c: nat): seq<nat> {
    Bufs(Open(r, c))
  }

  /** Pool and selector hold exactly the buffers recorded as theirs, once each. */
  ghost predicate HeldApart(r: Reading) {
    && (forall b: nat :: b in r.place <==> b < r.made)
    && NoDup(r.free)
    && (forall b: nat :: b in r.free <==> b in r.place && r.place[b] == Pooled)
    && (forall b: nat :: r.hand == Some(b) <==> b in r.place && r.place[b] == InHand)
  }

  /** So do the unfinished tasks of connection `c`. */
  ghost predicate HeldByTasks(r: Reading, c: nat) {
    && NoDup(OpenBufs(r, c))
    && (forall b: nat :: b in OpenBufs(r, c) <==> b in r.place && r.place[b] == InTask(c))
  }

  ghost predicate BufInv(r: Reading) {
    HeldApart(r) && forall c: nat :: ConnInv(r, c) && HeldByTasks(r, c)
  }

  // ---------------------------------------------------------------- open tasks

  lemma OpenSubmit(r: Reading, d: nat, bytes: string, c: nat)
    requires r.hand.Some? && ConnInv(r, c)
    ensures Open(SubmitRead(r, d, bytes), c)
         == if c == d then Open(r, c) + [Chunk(r.hand.value, bytes)] else Open(r, c)
  {
    var k := Chunk(r.hand.value, bytes);
    WaitingSubmit(r.pool, d, k, c);
    if c == d {
      AppendAssoc(Current(c, r.pool.workers), Waiting(r.pool, c), [k]);
    }
  }

  lemma OpenStartOwn(r: Reading, w: nat)
    requires Enabled(r.pool, Take(w)) && ConnInv(r, r.pool.queue[0].actor)
    ensures Open(StartTask(r, w), r.pool.queue[0].actor) == Open(r, r.pool.queue[0].actor)
  {
    var q, j := StartTask(r, w), r.pool.queue[0];
    WaitingTake(r.pool, w, j.actor);
    NoWorker(r, j.actor);
    CurrentNone(j.actor, r.pool.workers, r.left, "");
    CurrentIs(j.actor, q.pool.workers, q.left, "", w);
    assert Open(r, j.actor) == [] + Waiting(r.pool, j.actor);
  }

  lemma OpenStart(r: Reading, w: nat, c: nat)
    requires Enabled(r.pool, Take(w)) && ConnInv(r, c)
    ensures Open(StartTask(r, w), c) == Open(r, c)
  {
    var j := r.pool.queue[0];
    if j.actor == c {
      OpenStartOwn(r, w);
    } else {
      WaitingTake(r.pool, w, c);
      CurrentFrame(c, r.pool.workers, r.left, "", w, Running(j), j.task.bytes);
    }
  }

  lemma OpenRelease(r: Reading, w: nat, c: nat)
    requires RunsOn(r, w) && ConnInv(r, c)
    ensures Open(r, c)
         == if Conn(r, w) == c then [r.pool.workers[w].job.task] + Open(ReleaseBuffer(r, w), c)
            else Open(ReleaseBuffer(r, w), c)
  {
    var q := ReleaseBuffer(r, w);
    if Conn(r, w) == c {
      OnlyWorker(r, c, w);
      CurrentIs(c, r.pool.workers, r.left, "", w);
      CurrentNone(c, q.pool.workers, q.left, "");
      assert Open(r, c) == [r.pool.workers[w].job.task] + Open(q, c);
    } else {
      CurrentFrame(c, r.pool.workers, r.left, "", w, Finished(r.pool.workers[w].job), "");
    }
  }

  lemma OpenFinish(r: Reading, w: nat, c: nat)
    requires Can(r, Finish(w)) && ConnInv(r, c)
    ensures Open(Do(r, Finish(w)), c) == Open(r, c)
  {
    WaitingComplete(r.pool, w, c);
    CurrentFrame(c, r.pool.workers, r.left, "", w, Idle, r.left[w]);
  }

  // ---------------------------------------------------------------- steps

  lemma SubmitKeepsTasks(r: Reading, d: nat, bytes: string, c: nat)
    requires r.hand.Some? && HeldApart(r) && ConnInv(r, c) && HeldByTasks(r, c)
    ensures HeldByTasks(SubmitRead(r, d, bytes), c)
  {
    var b := r.hand.value;
    OpenSubmit(r, d, bytes, c);
    if c == d {
      BufsSnoc(Open(r, c), Chunk(b, bytes));
      NoDupSnoc(OpenBufs(r, c), b);
    }
  }

  lemma BufsSnoc(chunks: seq<Chunk>, k: Chunk)
    ensures Bufs(chunks + [k]) == Bufs(chunks) + [k.buf]
  {
  }

  lemma NoDupSnoc(s: seq<nat>, b: nat)
    requires NoDup(s) && b !in s
    ensures NoDup(s + [b])
    ensures forall x: nat :: x in s + [b] <==> x in s || x == b
  {
  }

  /** The buffer of a running task is its connection's oldest open one. */
  lemma RunningBuf(r: Reading, w: nat)
    requires RunsOn(r, w) && ConnInv(r, Conn(r, w)) && HeldByTasks(r, Conn(r, w))
    ensures var b, c := r.pool.workers[w].job.task.buf, Conn(r, w);
      && b in r.place && r.place[b] == InTask(c)
      && OpenBufs(r, c) == [b] + OpenBufs(ReleaseBuffer(r, w), c)
  {
    var c := Conn(r, w);
    OpenRelease(r, w, c);
    assert OpenBufs(r, c)[0] in OpenBufs(r, c);
  }

  lemma NoDupTail(b: nat, t: seq<nat>)
    requires NoDup([b] + t)
    ensures NoDup(t) && b !in t
  {
    var s := [b] + t;
    forall i | 0 <= i < |t|
      ensures t[i] != b
    {
      assert s[0] != s[i + 1];
    }
    forall i, j | 0 <= i < j < |t|
      ensures t[i] != t[j]
    {
      assert s[i + 1] != s[j + 1];
    }
  }

  lemma ReleaseKeepsTasks(r: Reading, w: nat, c: nat)
    requires RunsOn(r, w) && ConnInv(r, c) && HeldByTasks(r, c)
    requires ConnInv(r, Conn(r, w)) && HeldByTasks(r, Conn(r, w))
    ensures HeldByTasks(ReleaseBuffer(r, w), c)
  {
    var b, t := r.pool.workers[w].job.task.buf, OpenBufs(ReleaseBuffer(r, w), c);
    RunningBuf(r, w);
    if c == Conn(r, w) {
      NoDupTail(b, t);
      assert forall x: nat :: x in OpenBufs(r, c) <==> x == b || x in t;
    } else {
      OpenRelease(r, w, c);
    }
  }

  lemma StepKeepsTasks(r: Reading, a: Act, c: nat)
    requires Can(r, a) && BufInv(r)
    ensures HeldByTasks(Do(r, a), c)
  {
    assert ConnInv(r, c) && HeldByTasks(r, c);
    match a
    case Lease =>
    case ReadSome(d, bytes) => SubmitKeepsTasks(r, d, bytes, c);
    case ReadEnd => assert OpenBufs(Do(r, a), c) == OpenBufs(r, c);
    case Start(w) => OpenStart(r, w, c);
    case Byte(w) => assert Open(FeedByte(r, w), c) == Open(r, c);
    case Release(w) => ReleaseKeepsTasks(r, w, c);
    case Throw(w) =>
      ReleaseKeepsTasks(r, w, c);
      assert Open(Do(r, a), c) == Open(ReleaseBuffer(r, w), c);
    case Finish(w) => OpenFinish(r, w, c);
  }

  lemma ReleaseKeepsApart(r: Reading, w: nat)
    requires RunsOn(r, w) && BufInv(r)
    ensures HeldApart(ReleaseBuffer(r, w))
  {
    RunningBuf(r, w);
  }

  lemma LeaseKeepsApart(r: Reading)
    requires Can(r, Lease) && HeldApart(r)
    ensures HeldApart(LeaseBuffer(r))
  {
    if r.free != [] {
      HeadApart(r.free);
      NoDupTail(r.free[0], r.free[1..]);
    }
  }

  lemma ReturnKeepsApart(r: Reading)
    requires Can(r, ReadEnd) && HeldApart(r)
    ensures HeldApart(Do(r, ReadEnd))
  {
  }

  lemma StepKeepsApart(r: Reading, a: Act)
    requires Can(r, a) && BufInv(r)
    ensures HeldApart(Do(r, a))
  {
    match a
    case Lease => LeaseKeepsApart(r);
    case ReadSome(d, bytes) =>
    case ReadEnd => ReturnKeepsApart(r);
    case Start(w) =>
    case Byte(w) =>
    case Release(w) => ReleaseKeepsApart(r, w);
    case Throw(w) => ReleaseKeepsApart(r, w);
    case Finish(w) =>
  }

  lemma StepKeepsBufInv(r: Reading, a: Act)
    requires Can(r, a) && BufInv(r)
    ensures BufInv(Do(r, a))
  {
    StepKeepsApart(r, a);
    forall c: nat
      ensures ConnInv(Do(r, a), c) && HeldByTasks(Do(r, a), c)
    {
      assert ConnInv(r, c);
      StepKeepsConn(r, a, c);
      StepKeepsTasks(r, a, c);
    }
  }

  lemma BeginBufInv(threads: nat)
    ensures BufInv(Begin(threads))
  {
    var r := Begin(threads);
    forall c: nat
      ensures ConnInv(r, c) && HeldByTasks(r, c)
    {
      BeginInv(threads, c);
      CurrentNone(c, r.pool.workers, r.left, "");
      assert Open(r, c) == [];
    }
  }

  lemma {:induction false} RunKeepsBufInv(trace: seq<Reading>, threads: nat)
    requires ReadSide.IsRun(trace, threads)
    ensures BufInv(trace[|trace| - 1])
    decreases |trace|
  {
    var n := |trace| - 1;
    if n == 0 {
      BeginBufInv(threads);
    } else {
      RunKeepsBufInv(trace[..n], threads);
      assert ReadSide.Next(trace[n - 1], trace[n]);
      var a: Act :| Can(trace[n - 1], a) && trace[n] == Do(trace[n - 1], a);
      StepKeepsBufInv(trace[n - 1], a);
    }
  }

  lemma QuiescentNoneOpen(r: Reading, c: nat)
    requires ConnInv(r, c) && Quiescent(r.pool)
    ensures Open(r, c) == []
  {
    BusyNone(c, r.pool.workers);
    CurrentNone(c, r.pool.workers, r.left, "");
  }

  lemma RestingBuffer(r: Reading, b: nat)
    requires BufInv(r) && Quiescent(r.pool) && b < r.made
    ensures b in r.free || r.hand == Some(b)
  {
    if r.place[b].InTask? {
      assert ConnInv(r, r.place[b].conn) && HeldByTasks(r, r.place[b].conn);
      QuiescentNoneOpen(r, r.place[b].conn);
    }
  }

  /** The places a buffer can be in, as facts about the real state. */
  ghost predicate Free(r: Reading, b: nat) { b in r.free }
  ghost predicate Leased(r: Reading, b: nat) { r.hand == Some(b) }
  ghost predicate InTaskOf(r: Reading, b: nat, c: nat) { b in OpenBufs(r, c) }

  /**
   In every reachable state each buffer ever made is in one place only: not
   twice in the pool, not in two tasks, not in a task and the pool. When the
   actor pool has come to rest all are back, save one the selector may hold.
   */
  lemma BuffersHaveOneOwner(trace: seq<Reading>, threads: nat, b: nat)
    requires ReadSide.IsRun(trace, threads) && b < trace[|trace| - 1].made
    ensures var r := trace[|trace| - 1];
      && NoDup(r.free) && (forall c: nat :: NoDup(OpenBufs(r, c)))
      && (Free(r, b) || Leased(r, b) || exists c: nat :: InTaskOf(r, b, c))
      && !(Free(r, b) && Leased(r, b))
      && (forall c: nat :: InTaskOf(r, b, c) ==> !Free(r, b) && !Leased(r, b))
      && (forall c: nat, d: nat :: InTaskOf(r, b, c) && InTaskOf(r, b, d) ==> c == d)
      && (Quiescent(r.pool) ==> Free(r, b) || Leased(r, b))
  {
    var r := trace[|trace| - 1];
    RunKeepsBufInv(trace, threads);
    forall c: nat
      ensures NoDup(OpenBufs(r, c)) && (InTaskOf(r, b, c) <==> r.place[b] == InTask(c))
    {
      assert HeldByTasks(r, c);
    }
    if r.place[b].InTask? {
      assert InTaskOf(r, b, r.place[b].conn);
    }
    if Quiescent(r.pool) {
      RestingBuffer(r, b);
    }
  }
}
