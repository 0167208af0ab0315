/**
 The whole reactor: reading and writing halves joined on the same selector
 thread and the same worker threads. A worker that completes a frame gets the
 replies its protocol makes for it, for any connections, and sends them one by
 one, each in three separate steps, before it takes the next byte.
 */
module Reactor {
  import opened Wrappers
  import opened Wire
  import opened ActorPool
  import opened ReadSide
  import opened Buffers
  import W = WriteSide

  datatype Reply = Reply(to: nat, message: string)

  /** A reply and the connection whose frame caused it. */
  datatype Sending = Sending(from: nat, reply: Reply)

  /**
   `outbox[w]` holds the replies worker `w` has still to send. `issued` and
   `log` record, per frame and per `writeQueue.add`, what has been sent.
   */
  datatype Server = Server(
    read: Reading,
    write: W.Writer,
    outbox: seq<seq<Reply>>,
    issued: map<nat, seq<Reply>>,
    log: seq<Sending>)

  datatype Move =
    | LeaseRead
    | ReadChunk(conn: nat, bytes: string)
    | ReadClosed(conn: nat)
    | StartRun(w: nat)
    | NextByte(w: nat, replies: seq<Reply>)
    | FinishRun(w: nat)
    | FailRun(w: nat)
    | CompleteRun(w: nat)
    | AddReply(w: nat)
    | PostInterest(w: nat)
    | WakeSelector(w: nat)
    | Selector(act: W.Act)

  function Begin(threads: nat): Server {
    Server(ReadSide.Begin(threads), W.Begin(threads), seq(threads, i => []), map[], [])
  }

  /** Worker `w` has nothing left to send. */
  predicate Quiet(s: Server, w: nat) {
    w < |s.outbox| && w < |s.write.senders| && s.outbox[w] == [] && s.write.senders[w].Ready?
  }

  /** The step of the reading half that a move makes, if any. */
  function ReadAct(m: Move): Option<ReadSide.Act> {
    match m
    case LeaseRead => Some(Lease)
    case ReadChunk(c, bytes) => Some(ReadSome(c, bytes))
    case ReadClosed(_) => Some(ReadEnd)
    case StartRun(w) => Some(Start(w))
    case NextByte(w, _) => Some(Byte(w))
    case FinishRun(w) => Some(Release(w))
    case FailRun(w) => Some(Throw(w))
    case CompleteRun(w) => Some(Finish(w))
    case _ => None
  }

  /** The step of the writing half that a move makes, if any. */
  function WriteAct(s: Server, m: Move): Option<W.Act> {
    match m
    case AddReply(w) =>
      if w < |s.outbox| && s.outbox[w] != [] then Some(W.Add(w, s.outbox[w][0].to, s.outbox[w][0].message)) else None
    case PostInterest(w) => Some(W.Post(w))
    case WakeSelector(w) => Some(W.Wake(w))
    case Selector(a) => Some(a)
    case ReadClosed(c) => Some(W.CloseRead(c))
    case _ => None
  }

  /** Threads do one thing at a time, and both halves must allow the step. */
  predicate Can(s: Server, m: Move) {
    && (ReadAct(m).Some? ==> ReadSide.Can(s.read, ReadAct(m).value))
    && (WriteAct(s, m).Some? ==> W.Can(s.write, WriteAct(s, m).value))
    && match m
       case LeaseRead => s.write.selector.Handling?
       case ReadChunk(c, _) => s.write.selector.Handling? && c !in s.write.closed
       case NextByte(w, replies) => Quiet(s, w) && (replies != [] ==> CompletesFrame(s.read, w))
       case FinishRun(w) => Quiet(s, w)
       case FailRun(w) => Quiet(s, w)
       case AddReply(w) => RunsOn(s.read, w) && w < |s.outbox| && s.outbox[w] != []
       case Selector(a) => s.read.hand.None? && !a.Add? && !a.Post? && !a.Wake? && !a.CloseRead?
       case _ => true
  }

  function Issued(s: Server, c: nat): seq<Reply> {
    if c in s.issued then s.issued[c] else []
  }

  function Do(s: Server, m: Move): Server
    requires Can(s, m)
  {
    var t := s.(
      read := if ReadAct(m).Some? then ReadSide.Do(s.read, ReadAct(m).value) else s.read,
      write := if WriteAct(s, m).Some? then W.Do(s.write, WriteAct(s, m).value) else s.write);
    match m
    case NextByte(w, replies) =>
      var c := Conn(s.read, w);
      t.(outbox := s.outbox[w := replies], issued := s.issued[c := Issued(s, c) + replies])
    case AddReply(w) =>
      t.(outbox := s.outbox[w := s.outbox[w][1..]],
         log := s.log + [Sending(Conn(s.read, w), s.outbox[w][0])])
    case _ => t
  }

  // ---------------------------------------------------------------- logs

  function From(c: nat, log: seq<Sending>): seq<Reply> {
    if log == [] then []
    else if log[|log| - 1].from == c then From(c, log[..|log| - 1]) + [log[|log| - 1].reply]
    else From(c, log[..|log| - 1])
  }

  function To(d: nat, log: seq<Sending>): seq<string> {
    if log == [] then []
    else if log[|log| - 1].reply.to == d then To(d, log[..|log| - 1]) + [log[|log| - 1].reply.message]
    else To(d, log[..|log| - 1])
  }

  lemma LogSnoc(log: seq<Sending>, x: Sending, c: nat)
    ensures From(c, log + [x]) == if x.from == c then From(c, log) + [x.reply] else From(c, log)
    ensures To(c, log + [x]) == if x.reply.to == c then To(c, log) + [x.reply.message] else To(c, log)
  {
    assert (log + [x])[..|log + [x]| - 1] == log;
  }

  // ---------------------------------------------------------------- invariant

  predicate Shape(s: Server) {
    && |s.outbox| == |s.write.senders| == |s.read.pool.workers|
    && (forall w :: 0 <= w < |s.outbox| && !s.read.pool.workers[w].Running? ==> Quiet(s, w))
    && (s.read.hand.Some? ==> s.write.selector.Handling?)
  }

  /** Replies issued for `c`'s frames: those sent, then those its worker still has. */
  predicate RepliesInOrder(s: Server, c: nat) {
    && |s.outbox| == |s.read.pool.workers|
    && From(c, s.log) + Pick(c, s.read.pool.workers, s.outbox, []) == Issued(s, c)
  }

  predicate QueuedInOrder(s: Server, d: nat) {
    To(d, s.log) == W.AddedTo(s.write, d)
  }

  ghost predicate Inv(s: Server) {
    && Shape(s) && BufInv(s.read) && W.Inv(s.write)
    && forall c: nat :: RepliesInOrder(s, c) && QueuedInOrder(s, c)
  }

  lemma HalvesKept(s: Server, m: Move)
    requires Can(s, m) && BufInv(s.read) && W.Inv(s.write)
    ensures BufInv(Do(s, m).read) && W.Inv(Do(s, m).write)
  {
    if ReadAct(m).Some? {
      StepKeepsBufInv(s.read, ReadAct(m).value);
    }
    if WriteAct(s, m).Some? {
      W.StepKeepsInv(s.write, WriteAct(s, m).value);
    }
  }

  lemma QueuedKept(s: Server, m: Move, d: nat)
    requires Can(s, m) && QueuedInOrder(s, d)
    ensures QueuedInOrder(Do(s, m), d)
  {
    if m.AddReply? {
      LogSnoc(s.log, Sending(Conn(s.read, m.w), s.outbox[m.w][0]), d);
    } else {
      assert Do(s, m).log == s.log;
    }
  }

  lemma WorkerKeepsReplies(s: Server, w: nat, v: Worker<Chunk>, t: Server, c: nat)
    requires Shape(s) && w < |s.outbox| && Quiet(s, w)
    requires ConnInv(s.read, c) && RepliesInOrder(s, c)
    requires t.read.pool.workers == s.read.pool.workers[w := v]
    requires t.outbox == s.outbox && t.log == s.log && t.issued == s.issued
    requires Runs(v, c) ==> forall i :: 0 <= i < |s.outbox| ==> !Runs(s.read.pool.workers[i], c)
    ensures RepliesInOrder(t, c)
  {
    var ws := s.read.pool.workers;
    if Runs(v, c) {
      CurrentNone(c, ws, s.outbox, []);
      CurrentIs(c, ws[w := v], s.outbox, [], w);
    } else if Runs(ws[w], c) {
      OnlyWorker(s.read, c, w);
      CurrentIs(c, ws, s.outbox, [], w);
      CurrentNone(c, ws[w := v], s.outbox, []);
    } else {
      CurrentFrame(c, ws, s.outbox, [], w, v, s.outbox[w]);
      assert s.outbox[w := s.outbox[w]] == s.outbox;
    }
  }

  /** Only the connection a worker is running sees that worker's outbox. */
  lemma OutboxOf(s: Server, w: nat, box: seq<Reply>, c: nat)
    requires Shape(s) && RunsOn(s.read, w) && ConnInv(s.read, c)
    ensures var ws := s.read.pool.workers;
      if Conn(s.read, w) == c
      then Pick(c, ws, s.outbox, []) == s.outbox[w] && Pick(c, ws, s.outbox[w := box], []) == box
      else Pick(c, ws, s.outbox[w := box], []) == Pick(c, ws, s.outbox, [])
  {
    var ws := s.read.pool.workers;
    if Conn(s.read, w) == c {
      OnlyWorker(s.read, c, w);
      CurrentIs(c, ws, s.outbox, [], w);
      CurrentIs(c, ws, s.outbox[w := box], [], w);
    } else {
      CurrentFrame(c, ws, s.outbox, [], w, ws[w], box);
      assert ws[w := ws[w]] == ws;
    }
  }

  lemma NextByteKeepsReplies(s: Server, w: nat, replies: seq<Reply>, c: nat)
    requires Can(s, NextByte(w, replies)) && Shape(s) && ConnInv(s.read, c) && RepliesInOrder(s, c)
    ensures RepliesInOrder(Do(s, NextByte(w, replies)), c)
  {
    OutboxOf(s, w, replies, c);
    var t := Do(s, NextByte(w, replies));
    assert t.read.pool.workers == s.read.pool.workers && t.outbox == s.outbox[w := replies] && t.log == s.log;
    if Conn(s.read, w) == c {
      AppendAssoc(From(c, s.log), [], replies);
    }
  }

  lemma AddReplyKeepsReplies(s: Server, w: nat, c: nat)
    requires Can(s, AddReply(w)) && Shape(s) && ConnInv(s.read, c) && RepliesInOrder(s, c)
    ensures RepliesInOrder(Do(s, AddReply(w)), c)
  {
    var r, rest := s.outbox[w][0], s.outbox[w][1..];
    OutboxOf(s, w, rest, c);
    LogSnoc(s.log, Sending(Conn(s.read, w), r), c);
    if Conn(s.read, w) == c {
      assert s.outbox[w] == [r] + rest;
      AppendAssoc(From(c, s.log), [r], rest);
    }
  }

  lemma StartKeepsReplies(s: Server, w: nat, c: nat)
    requires Can(s, StartRun(w)) && Inv(s)
    ensures RepliesInOrder(Do(s, StartRun(w)), c)
  {
    assert ConnInv(s.read, c) && RepliesInOrder(s, c);
    var j := s.read.pool.queue[0];
    if j.actor == c {
      NoWorker(s.read, c);
    }
    WorkerKeepsReplies(s, w, Running(j), Do(s, StartRun(w)), c);
  }

  lemma EndKeepsReplies(s: Server, m: Move, c: nat)
    requires Can(s, m) && Inv(s) && (m.FinishRun? || m.FailRun?)
    ensures RepliesInOrder(Do(s, m), c)
  {
    assert ConnInv(s.read, c) && RepliesInOrder(s, c);
    WorkerKeepsReplies(s, m.w, Finished(s.read.pool.workers[m.w].job), Do(s, m), c);
  }

  lemma CompleteKeepsReplies(s: Server, w: nat, c: nat)
    requires Can(s, CompleteRun(w)) && Inv(s)
    ensures RepliesInOrder(Do(s, CompleteRun(w)), c)
  {
    assert ConnInv(s.read, c) && RepliesInOrder(s, c);
    WorkerKeepsReplies(s, w, Idle, Do(s, CompleteRun(w)), c);
  }

  lemma RepliesKept(s: Server, m: Move, c: nat)
    requires Can(s, m) && Inv(s)
    ensures RepliesInOrder(Do(s, m), c)
  {
    var t := Do(s, m);
    assert ConnInv(s.read, c) && RepliesInOrder(s, c);
    match m
    case StartRun(w) => StartKeepsReplies(s, w, c);
    case NextByte(w, replies) => NextByteKeepsReplies(s, w, replies, c);
    case FinishRun(w) => EndKeepsReplies(s, m, c);
    case FailRun(w) => EndKeepsReplies(s, m, c);
    case CompleteRun(w) => CompleteKeepsReplies(s, w, c);
    case AddReply(w) => AddReplyKeepsReplies(s, w, c);
    case _ => assert t.read.pool.workers == s.read.pool.workers;
  }

  lemma HandKept(s: Server, m: Move)
    requires Can(s, m) && Shape(s)
    ensures Do(s, m).read.hand.Some? ==> Do(s, m).write.selector.Handling?
  {
  }

  /** A worker stops running only by ending its task. */
  lemma ReadKeepsRunning(r: Reading, a: ReadSide.Act, w: nat)
    requires ReadSide.Can(r, a)
    ensures |ReadSide.Do(r, a).pool.workers| == |r.pool.workers|
    ensures w < |r.pool.workers| && r.pool.workers[w].Running? && !ReadSide.Do(r, a).pool.workers[w].Running? ==>
      a == Release(w) || a == Throw(w)
  {
  }

  /** A sender moves only by its own steps. */
  lemma WriteKeepsReady(w: W.Writer, a: W.Act, i: nat)
    requires W.Can(w, a)
    ensures |W.Do(w, a).senders| == |w.senders|
    ensures i < |w.senders| && w.senders[i].Ready? && !W.Do(w, a).senders[i].Ready? ==> a.Add? && a.s == i
  {
  }

  lemma LengthsKept(s: Server, m: Move)
    requires Can(s, m) && Shape(s)
    ensures var t := Do(s, m);
      |t.outbox| == |t.write.senders| == |t.read.pool.workers| == |s.outbox|
  {
    if ReadAct(m).Some? {
      ReadKeepsRunning(s.read, ReadAct(m).value, 0);
    }
    if WriteAct(s, m).Some? {
      WriteKeepsReady(s.write, WriteAct(s, m).value, 0);
    }
  }

  /** Only a worker that runs a task has replies to send. */
  lemma QuietKept(s: Server, m: Move, w: nat)
    requires Can(s, m) && Shape(s) && w < |s.outbox|
    requires w < |Do(s, m).read.pool.workers| && !Do(s, m).read.pool.workers[w].Running?
    ensures Quiet(Do(s, m), w)
  {
    if ReadAct(m).Some? {
      ReadKeepsRunning(s.read, ReadAct(m).value, w);
    }
    if WriteAct(s, m).Some? {
      WriteKeepsReady(s.write, WriteAct(s, m).value, w);
    }
  }

  lemma ShapeKept(s: Server, m: Move)
    requires Can(s, m) && Shape(s)
    ensures Shape(Do(s, m))
  {
    HandKept(s, m);
    LengthsKept(s, m);
    forall w: nat | w < |s.outbox| && !Do(s, m).read.pool.workers[w].Running?
      ensures Quiet(Do(s, m), w)
    {
      QuietKept(s, m, w);
    }
  }

  lemma StepKeepsInv(s: Server, m: Move)
    requires Can(s, m) && Inv(s)
    ensures Inv(Do(s, m))
  {
    HalvesKept(s, m);
    ShapeKept(s, m);
    forall c: nat
      ensures RepliesInOrder(Do(s, m), c) && QueuedInOrder(Do(s, m), c)
    {
      assert QueuedInOrder(s, c);
      RepliesKept(s, m, c);
      QueuedKept(s, m, c);
    }
  }

  lemma BeginInv(threads: nat)
    ensures Inv(Begin(threads))
  {
    var s := Begin(threads);
    BeginBufInv(threads);
    W.BeginInv(threads);
    forall c: nat
      ensures RepliesInOrder(s, c)
    {
      CurrentNone(c, s.read.pool.workers, s.outbox, []);
    }
  }

  ghost predicate Next(s: Server, t: Server) {
    exists m: Move :: Can(s, m) && t == Do(s, m)
  }

  ghost predicate IsRun(trace: seq<Server>, threads: nat) {
    && trace != [] && trace[0] == Begin(threads)
    && forall i :: 0 <= i < |trace| - 1 ==> Next(trace[i], trace[i + 1])
  }

  lemma {:induction false} RunKeepsInv(trace: seq<Server>, threads: nat)
    requires IsRun(trace, threads)
    ensures Inv(trace[|trace| - 1])
    decreases |trace|
  {
    var n := |trace| - 1;
    if n == 0 {
      BeginInv(threads);
    } else {
      RunKeepsInv(trace[..n], threads);
      assert Next(trace[n - 1], trace[n]);
      var m: Move :| Can(trace[n - 1], m) && trace[n] == Do(trace[n - 1], m);
      StepKeepsInv(trace[n - 1], m);
    }
  }

  // ---------------------------------------------------------------- end to end

  lemma InOrder(s: Server, c: nat)
    requires Inv(s)
    ensures c !in s.read.failed ==> List(s.read.processed, c) <= Frames(Received(s.read, c))
    ensures From(c, s.log) <= Issued(s, c)
    ensures W.Sent(s.write, c) <= EncodeAll(To(c, s.log))
  {
    assert ConnInv(s.read, c) && RepliesInOrder(s, c) && QueuedInOrder(s, c);
    if c !in s.read.failed {
      FramesOfConn(s.read, c);
    }
    assert W.Conserved(s.write, c);
  }

  /**
   What holds of connection `c` at any moment of any run: its frames reach the
   protocol in order; the replies its frames cause are queued in the order they
   were made, none twice; and the bytes sent to it are a prefix of the replies
   queued for it.
   */
  lemma AlwaysInOrder(trace: seq<Server>, threads: nat, c: nat)
    requires IsRun(trace, threads)
    ensures var s := trace[|trace| - 1];
      && (c !in s.read.failed ==> List(s.read.processed, c) <= Frames(Received(s.read, c)))
      && From(c, s.log) <= Issued(s, c)
      && W.Sent(s.write, c) <= EncodeAll(To(c, s.log))
  {
    RunKeepsInv(trace, threads);
    InOrder(trace[|trace| - 1], c);
  }

  /** Workers idle, nothing queued for them, selector asleep. */
  predicate AtRest(s: Server) {
    Quiescent(s.read.pool) && W.Asleep(s.write)
  }

  /** Once the workers are idle, frames and replies have all been seen to. */
  lemma Processed(s: Server, c: nat)
    requires Inv(s) && Quiescent(s.read.pool)
    ensures c !in s.read.failed ==> List(s.read.processed, c) == Frames(Received(s.read, c))
    ensures From(c, s.log) == Issued(s, c)
  {
    assert ConnInv(s.read, c) && RepliesInOrder(s, c);
    if c !in s.read.failed {
      FramesOfConn(s.read, c);
    }
    CurrentNone(c, s.read.pool.workers, s.outbox, []);
  }

  lemma Complete(s: Server, c: nat)
    requires Inv(s) && AtRest(s)
    ensures c !in s.read.failed ==> List(s.read.processed, c) == Frames(Received(s.read, c))
    ensures From(c, s.log) == Issued(s, c)
    ensures W.Sent(s.write, c) + W.Concat(W.Queue(s.write, c)) == EncodeAll(To(c, s.log))
    ensures W.Queue(s.write, c) != [] ==> c in s.write.writable || c in s.write.closed
    ensures forall b: nat :: b < s.read.made ==> b in s.read.free
  {
    Processed(s, c);
    assert QueuedInOrder(s, c);
    assert W.Conserved(s.write, c);
    W.NothingForgotten(s.write, c);
    forall b: nat | b < s.read.made
      ensures b in s.read.free
    {
      RestingBuffer(s.read, b);
    }
  }

  /**
   When the server comes to rest nothing is left behind: every complete frame
   has been processed, every reply has been queued, every byte is sent or waits
   on a connection that is closed or has WRITE interest, and every read buffer is
   back in the pool.
   */
  lemma RestIsComplete(trace: seq<Server>, threads: nat, c: nat)
    requires IsRun(trace, threads) && AtRest(trace[|trace| - 1])
    ensures var s := trace[|trace| - 1];
      && (c !in s.read.failed ==> List(s.read.processed, c) == Frames(Received(s.read, c)))
      && From(c, s.log) == Issued(s, c)
      && W.Sent(s.write, c) + W.Concat(W.Queue(s.write, c)) == EncodeAll(To(c, s.log))
      && (W.Queue(s.write, c) != [] ==> c in s.write.writable || c in s.write.closed)
      && forall b: nat :: b < s.read.made ==> b in s.read.free
  {
    RunKeepsInv(trace, threads);
    Complete(trace[|trace| - 1], c);
  }
}
