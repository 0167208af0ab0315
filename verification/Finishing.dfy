/**
 The whole reactor comes to rest: once nothing more is read and sockets take
 bytes, every schedule of workers, senders and selector ends, however many
 replies the frames still to be processed cause.
 */
module Finishing {
  import opened Wrappers
  import opened Wire
  import A = ActorPool
  import RS = ReadSide
  import opened Reactor
  import W = WriteSide
  import D = Draining

  /** Nothing is read, and the selector's steps are those by which the writing half drains. */
  predicate Works(s: Server, m: Move) {
    && Can(s, m) && !m.LeaseRead? && !m.ReadChunk? && !m.ReadClosed?
    && (m.Selector? ==> D.Works(s.write, m.act))
  }

  ghost predicate WorksTo(s: Server, t: Server) {
    exists m: Move :: Works(s, m) && t == Do(s, m)
  }

  ghost predicate Stuck(s: Server) {
    forall m: Move :: !Works(s, m)
  }

  /** What holds of a server that has stopped reading. */
  ghost predicate Closing(s: Server) {
    Inv(s) && D.Full(s.write) && s.read.hand.None?
  }

  // ---------------------------------------------------------------- work left

  function Total<T>(xs: seq<seq<T>>): nat {
    if xs == [] then 0 else |xs[0]| + Total(xs[1..])
  }

  lemma {:induction false} TotalUpdate<T>(xs: seq<seq<T>>, i: nat, x: seq<T>)
    requires i < |xs|
    ensures Total(xs[i := x]) + |xs[i]| == Total(xs) + |x|
  {
    if i == 0 {
      assert xs[0 := x][1..] == xs[1..];
    } else {
      assert xs[i := x][1..] == xs[1..][i - 1 := x];
      TotalUpdate(xs[1..], i - 1, x);
    }
  }

  ghost function PoolWork(s: Server): nat
    requires Inv(s)
  {
    PoolInv(s);
    A.MeasureNatural(s.read.pool);
    A.Measure(s.read.pool)
  }

  lemma PoolInv(s: Server)
    requires Inv(s)
    ensures A.Inv(s.read.pool)
  {
    forall c: nat
      ensures A.ActorInv(s.read.pool, c)
    {
      assert RS.ConnInv(s.read, c);
    }
  }

  /**
   What is left to do: tasks before bytes, bytes before replies, replies before
   writing, since each may cause any amount of what comes after.
   */
  datatype Left = Left(tasks: nat, bytes: nat, replies: nat, writing: nat)

  predicate Below(x: Left, y: Left) {
    || x.tasks < y.tasks
    || (x.tasks == y.tasks && x.bytes < y.bytes)
    || (x.tasks == y.tasks && x.bytes == y.bytes && x.replies < y.replies)
    || (x.tasks == y.tasks && x.bytes == y.bytes && x.replies == y.replies && x.writing < y.writing)
  }

  /** The schedule goes on up to its n-th state and no further. */
  ghost predicate EndsAt<T(!new)>(works: (T, T) -> bool, schedule: nat -> T, n: nat) {
    !works(schedule(n), schedule(n + 1)) && forall k: nat :: k < n ==> works(schedule(k), schedule(k + 1))
  }

  /** What goes on only by going down does not go on for ever. */
  lemma {:induction false} StopsAt<T(!new)>(good: T -> bool, works: (T, T) -> bool, left: T -> Left,
                                            schedule: nat -> T, i: nat) returns (n: nat)
    requires good(schedule(i)) && forall k: nat :: k < i ==> works(schedule(k), schedule(k + 1))
    requires forall s, t :: good(s) && works(s, t) ==> good(t) && Below(left(t), left(s))
    ensures EndsAt(works, schedule, n)
    decreases left(schedule(i)).tasks, left(schedule(i)).bytes, left(schedule(i)).replies, left(schedule(i)).writing
  {
    n := i;
    if works(schedule(i), schedule(i + 1)) {
      n := StopsAt(good, works, left, schedule, i + 1);
    }
  }

  ghost function LeftIn(s: Server): Left {
    if Closing(s) then Left(PoolWork(s), Total(s.read.left), Total(s.outbox), D.Measure(s.write))
    else Left(0, 0, 0, 0)
  }

  /** The step of the actor pool that a move makes. */
  function PoolStep(m: Move): Option<A.Step<RS.Chunk>> {
    match m
    case StartRun(w) => Some(A.Take(w))
    case FinishRun(w) => Some(A.EndRun(w))
    case FailRun(w) => Some(A.EndRun(w))
    case CompleteRun(w) => Some(A.Step.Complete(w))
    case _ => None
  }

  lemma PoolMoves(s: Server, m: Move)
    requires Works(s, m)
    ensures PoolStep(m).Some? ==>
      A.Enabled(s.read.pool, PoolStep(m).value) && Do(s, m).read.pool == A.Apply(s.read.pool, PoolStep(m).value)
    ensures PoolStep(m).None? ==> Do(s, m).read.pool == s.read.pool
  {
  }

  lemma OthersWork(s: Server, m: Move)
    requires Works(s, m) && Inv(s) && PoolStep(m).None? && !m.NextByte? && !m.AddReply?
    ensures Do(s, m).read == s.read && Do(s, m).outbox == s.outbox
    ensures D.Measure(Do(s, m).write) < D.Measure(s.write)
  {
    D.StepWorks(s.write, WriteAct(s, m).value);
  }

  /** Every step brings the end nearer. */
  lemma StepWorks(s: Server, m: Move)
    requires Works(s, m) && Closing(s)
    ensures Closing(Do(s, m)) && Below(LeftIn(Do(s, m)), LeftIn(s))
    ensures Do(s, m).read.pool.submitted == s.read.pool.submitted
    ensures |Do(s, m).read.pool.workers| == |s.read.pool.workers|
  {
    StepKeepsInv(s, m);
    PoolMoves(s, m);
    MoveKeepsFull(s, m);
    if PoolStep(m).Some? {
      A.StepWorks(s.read.pool, PoolStep(m).value);
    } else if m.NextByte? {
      TotalUpdate(s.read.left, m.w, s.read.left[m.w][1..]);
    } else if m.AddReply? {
      TotalUpdate(s.outbox, m.w, s.outbox[m.w][1..]);
    } else {
      OthersWork(s, m);
    }
  }

  // ---------------------------------------------------------------- until nothing is left

  lemma RunningWorks(s: Server, w: nat) returns (m: Move)
    requires Closing(s) && w < |s.outbox| && RS.RunsOn(s.read, w)
    ensures Works(s, m)
  {
    match s.write.senders[w]
    case Added(_) => m := PostInterest(w);
    case Posted => m := WakeSelector(w);
    case Ready =>
      if s.outbox[w] != [] {
        m := AddReply(w);
      } else {
        m := if s.read.left[w] == "" then FinishRun(w) else NextByte(w, []);
      }
  }

  /** A worker with something to do can do it. */
  lemma WorkerWorks(s: Server, w: nat) returns (m: Move)
    requires Closing(s) && w < |s.outbox| && (s.read.pool.workers[w].Idle? ==> s.read.pool.queue != [])
    ensures Works(s, m)
  {
    assert RS.ConnInv(s.read, 0);
    match s.read.pool.workers[w]
    case Idle => m := StartRun(w);
    case Finished(_) => m := CompleteRun(w);
    case Running(_) => m := RunningWorks(s, w);
  }

  lemma SelectorWorks(s: Server) returns (m: Move)
    requires Closing(s) && A.Quiescent(s.read.pool)
    requires !s.write.selector.Stopped? && !(W.Asleep(s.write) && s.write.writable == {})
    ensures Works(s, m)
  {
    forall w: nat | w < |s.write.senders|
      ensures s.write.senders[w].Ready?
    {
      assert s.read.pool.workers[w].Idle?;
      assert Quiet(s, w);
    }
    var a := D.SomeStepWorks(s.write);
    m := Selector(a);
  }

  lemma StuckIsAtRest(s: Server)
    requires Closing(s) && Stuck(s) && |s.read.pool.workers| >= 1
    ensures A.Quiescent(s.read.pool) && D.Drained(s.write)
  {
    if !A.Quiescent(s.read.pool) {
      var w: nat :| w < |s.read.pool.workers| && (s.read.pool.workers[w].Idle? ==> s.read.pool.queue != []);
      var m := WorkerWorks(s, w);
    }
    if !s.write.selector.Stopped? {
      if !(W.Asleep(s.write) && s.write.writable == {}) {
        var m := SelectorWorks(s);
      }
      D.AsleepIsDrained(s.write);
    }
  }

  // ---------------------------------------------------------------- schedules

  lemma MoveKeepsFull(s: Server, m: Move)
    requires Can(s, m) && D.Full(s.write)
    ensures D.Full(Do(s, m).write)
  {
    if WriteAct(s, m).Some? {
      D.StepKeepsFull(s.write, WriteAct(s, m).value);
    }
  }

  lemma MoveKeepsWorkers(s: Server, m: Move)
    requires Can(s, m)
    ensures |Do(s, m).read.pool.workers| == |s.read.pool.workers|
  {
  }

  lemma {:induction false} RunIsFull(trace: seq<Server>, threads: nat)
    requires IsRun(trace, threads)
    ensures D.Full(trace[|trace| - 1].write) && |trace[|trace| - 1].read.pool.workers| == threads
    decreases |trace|
  {
    var n := |trace| - 1;
    if n > 0 {
      RunIsFull(trace[..n], threads);
      assert Next(trace[n - 1], trace[n]);
      var m: Move :| Can(trace[n - 1], m) && trace[n] == Do(trace[n - 1], m);
      MoveKeepsFull(trace[n - 1], m);
      MoveKeepsWorkers(trace[n - 1], m);
    }
  }

  lemma RunIsClosing(past: seq<Server>, threads: nat)
    requires IsRun(past, threads) && past[|past| - 1].read.hand.None?
    ensures Closing(past[|past| - 1]) && |past[|past| - 1].read.pool.workers| == threads
  {
    RunKeepsInv(past, threads);
    RunIsFull(past, threads);
  }

  lemma NearsTheEnd(s: Server, t: Server)
    requires Closing(s) && WorksTo(s, t)
    ensures Closing(t) && Below(LeftIn(t), LeftIn(s))
    ensures t.read.pool.submitted == s.read.pool.submitted
    ensures |t.read.pool.workers| == |s.read.pool.workers|
  {
    var m: Move :| Works(s, m) && t == Do(s, m);
    StepWorks(s, m);
  }

  ghost function Working(): (Server, Server) -> bool {
    (s, t) => WorksTo(s, t)
  }

  /** From whatever state a run has come to: once reading stops, no schedule goes on for ever. */
  lemma EveryScheduleEnds(past: seq<Server>, threads: nat, schedule: nat -> Server) returns (n: nat)
    requires IsRun(past, threads) && past[|past| - 1].read.hand.None? && schedule(0) == past[|past| - 1]
    ensures EndsAt(Working(), schedule, n)
  {
    RunIsClosing(past, threads);
    var good, left := s => Closing(s), s => LeftIn(s);
    forall s, t | good(s) && Working()(s, t)
      ensures good(t) && Below(left(t), left(s))
    {
      NearsTheEnd(s, t);
    }
    n := StopsAt(good, Working(), left, schedule, 0);
  }

  /** What every step keeps holds at the end. */
  lemma {:induction false} Stays<T(!new)>(good: T -> bool, works: (T, T) -> bool, trace: seq<T>)
    requires trace != [] && good(trace[0])
    requires forall s, t :: good(s) && works(s, t) ==> good(t)
    requires forall i :: 0 <= i < |trace| - 1 ==> works(trace[i], trace[i + 1])
    ensures good(trace[|trace| - 1])
    decreases |trace|
  {
    var n := |trace| - 1;
    if n > 0 {
      Stays(good, works, trace[..n]);
      assert works(trace[n - 1], trace[n]);
    }
  }

  /** `s` has stopped reading where `r` did, and has as many workers. */
  ghost predicate ClosingAs(r: Server, s: Server) {
    && Closing(s) && s.read.pool.submitted == r.read.pool.submitted
    && |s.read.pool.workers| == |r.read.pool.workers|
  }

  lemma StaysClosing(trace: seq<Server>)
    requires trace != [] && Closing(trace[0])
    requires forall i :: 0 <= i < |trace| - 1 ==> Working()(trace[i], trace[i + 1])
    ensures ClosingAs(trace[0], trace[|trace| - 1])
  {
    var r := trace[0];
    var good := s => ClosingAs(r, s);
    forall s, t | good(s) && Working()(s, t)
      ensures good(t)
    {
      NearsTheEnd(s, t);
    }
    Stays(good, Working(), trace);
  }

  /**
   A schedule that cannot go on has done everything: every frame of all that was
   read has been processed, every reply it caused has been queued, and every byte
   for an open connection has been sent, unless `serve` is over, which it is
   exactly if a request for a closed channel was made.
   */
  lemma EndIsComplete(past: seq<Server>, threads: nat, trace: seq<Server>, c: nat)
    requires IsRun(past, threads) && threads >= 1 && past[|past| - 1].read.hand.None?
    requires trace != [] && trace[0] == past[|past| - 1] && Stuck(trace[|trace| - 1])
    requires forall i :: 0 <= i < |trace| - 1 ==> Working()(trace[i], trace[i + 1])
    ensures var s := trace[|trace| - 1];
      && RS.Received(s.read, c) == RS.Received(trace[0].read, c)
      && (c !in s.read.failed ==> RS.List(s.read.processed, c) == Frames(RS.Received(trace[0].read, c)))
      && From(c, s.log) == Issued(s, c)
      && (s.write.selector.Stopped? <==> W.Fatal(s.write))
      && (!W.Fatal(s.write) && c !in s.write.closed ==> W.Sent(s.write, c) == EncodeAll(To(c, s.log)))
  {
    var s := trace[|trace| - 1];
    RunIsClosing(past, threads);
    StaysClosing(trace);
    StuckIsAtRest(s);
    Processed(s, c);
    assert QueuedInOrder(s, c);
  }
}
