/**
 The writing half of the reactor. Worker threads add a reply to a connection's
 write queue, then ask the selector thread for WRITE interest through
 `selectorTasks` and `wakeup`; the selector drains queues by partial writes and
 drops WRITE interest, or closes the channel, when it has seen a queue empty. No
 two of these steps are atomic together. Writes do not fail.
 */
module WriteSide {
  import opened Wrappers
  import opened Wire

  /**
   A sending thread: `Added` is between `writeQueue.add` and
   `selectorTasks.add`, `Posted` between that and `wakeup`.
   */
  datatype Sender = Ready | Added(conn: nat) | Posted

  /**
   The selector thread. `todo` is the part of the selected keys that were
   writable and are still to be handled. `Writing`, `SawEmpty` and `Dropping`
   are inside `continueWrite`: at the loop test, after the loop, and past the
   second emptiness test with `OP_READ` still to be set or the channel to be
   closed. `Stopped` is `serve` left by the exception that `interestOps` throws
   on the key of a closed channel.
   */
  datatype Selector =
    | Blocked
    | Draining(todo: set<nat>)
    | Handling(todo: set<nat>)
    | Writing(todo: set<nat>, conn: nat)
    | SawEmpty(todo: set<nat>, conn: nat)
    | Dropping(todo: set<nat>, conn: nat)
    | Stopped

  /**
   `writable` is the set of keys with WRITE interest; every queued selector task
   sets that interest for one key. `closed` holds the connections whose channel
   is closed, and its key cancelled. `sent` and `added` record the run.
   */
  datatype Writer = Writer(
    queues: map<nat, seq<string>>,
    tasks: seq<nat>,
    writable: set<nat>,
    wakeup: bool,
    senders: seq<Sender>,
    selector: Selector,
    closed: set<nat>,
    sent: map<nat, string>,
    added: map<nat, seq<string>>)

  datatype Act =
    | Add(s: nat, conn: nat, message: string)
    | Post(s: nat)
    | Wake(s: nat)
    | Select(keys: set<nat>)
    | RunTask
    | EndDrain
    | BeginWrite(conn: nat)
    | WriteSome(count: nat)
    | LeaveLoop
    | TestAgain
    | DropInterest
    | CloseWritten
    | CloseRead(conn: nat)
    | EndSelect

  function Queue(w: Writer, c: nat): seq<string> {
    if c in w.queues then w.queues[c] else []
  }

  function Sent(w: Writer, c: nat): string {
    if c in w.sent then w.sent[c] else ""
  }

  function AddedTo(w: Writer, c: nat): seq<string> {
    if c in w.added then w.added[c] else []
  }

  function Begin(threads: nat): Writer {
    Writer(map[], [], {}, false, seq(threads, i => Ready), Blocked, {}, map[], map[])
  }

  predicate Can(w: Writer, a: Act) {
    match a
    case Add(s, c, m) => s < |w.senders| && w.senders[s].Ready?
    case Post(s) => s < |w.senders| && w.senders[s].Added?
    case Wake(s) => s < |w.senders| && w.senders[s].Posted?
    case Select(keys) => w.selector.Blocked? && keys <= w.writable
    case RunTask => w.selector.Draining? && w.tasks != []
    case EndDrain => w.selector.Draining? && w.tasks == []
    case BeginWrite(c) => w.selector.Handling? && c in w.selector.todo
    case WriteSome(k) =>
      && w.selector.Writing? && Queue(w, w.selector.conn) != []
      && k <= |Queue(w, w.selector.conn)[0]|
    case LeaveLoop => w.selector.Writing? && Queue(w, w.selector.conn) == []
    case TestAgain => w.selector.SawEmpty?
    case DropInterest => w.selector.Dropping?
    case CloseWritten => w.selector.Dropping?
    case CloseRead(c) => w.selector.Handling? && c !in w.closed
    case EndSelect => w.selector.Handling? && w.selector.todo == {}
  }

  /** The queue once `k` bytes of its oldest buffer are written. */
  function AfterWrite(bufs: seq<string>, k: nat): seq<string>
    requires bufs != [] && k <= |bufs[0]|
  {
    if k < |bufs[0]| then [bufs[0][k..]] + bufs[1..] else bufs[1..]
  }

  /** One `chan.write(top)` that takes `k` bytes of the oldest buffer. */
  function WriteHead(w: Writer, k: nat): Writer
    requires Can(w, WriteSome(k))
  {
    var c := w.selector.conn;
    var bufs := Queue(w, c);
    w.(sent := w.sent[c := Sent(w, c) + bufs[0][..k]],
       queues := w.queues[c := AfterWrite(bufs, k)],
       selector := if k < |bufs[0]| then Handling(w.selector.todo) else w.selector)
  }

  function AddReply(w: Writer, s: nat, c: nat, m: string): Writer
    requires Can(w, Add(s, c, m))
  {
    w.(queues := w.queues[c := Queue(w, c) + [Encode(m)]],
       added := w.added[c := AddedTo(w, c) + [m]],
       senders := w.senders[s := Added(c)])
  }

  /** The channel of `c` is closed: its key is selected no more. */
  function CloseChannel(w: Writer, c: nat, todo: set<nat>): Writer {
    w.(closed := w.closed + {c}, writable := w.writable - {c}, selector := Handling(todo - {c}))
  }

  function Do(w: Writer, a: Act): Writer
    requires Can(w, a)
  {
    match a
    case Add(s, c, m) => AddReply(w, s, c, m)
    case Post(s) =>
      w.(tasks := w.tasks + [w.senders[s].conn], senders := w.senders[s := Posted])
    case Wake(s) => w.(wakeup := true, senders := w.senders[s := Ready])
    case Select(keys) => w.(wakeup := false, selector := Draining(keys))
    case RunTask =>
      var q := w.(tasks := w.tasks[1..]);
      if w.tasks[0] in w.closed then q.(selector := Stopped) else q.(writable := w.writable + {w.tasks[0]})
    case EndDrain => w.(selector := Handling(w.selector.todo))
    case BeginWrite(c) => w.(selector := Writing(w.selector.todo - {c}, c))
    case WriteSome(k) => WriteHead(w, k)
    case LeaveLoop => w.(selector := SawEmpty(w.selector.todo, w.selector.conn))
    case TestAgain =>
      var todo, c := w.selector.todo, w.selector.conn;
      w.(selector := if Queue(w, c) == [] then Dropping(todo, c) else Handling(todo))
    case DropInterest =>
      w.(writable := w.writable - {w.selector.conn}, selector := Handling(w.selector.todo))
    case CloseWritten => CloseChannel(w, w.selector.conn, w.selector.todo)
    case CloseRead(c) => CloseChannel(w, c, w.selector.todo)
    case EndSelect => w.(selector := Blocked)
  }

  // ---------------------------------------------------------------- no lost interest

  predicate Adding(w: Writer, s: int, c: nat) {
    0 <= s < |w.senders| && w.senders[s] == Added(c)
  }

  predicate Waking(w: Writer, s: int) {
    0 <= s < |w.senders| && w.senders[s].Posted?
  }

  /** Someone will still see to it that `c` gets WRITE interest. */
  ghost predicate Requested(w: Writer, c: nat) {
    c in w.tasks || exists s :: Adding(w, s, c)
  }

  /**
   A reply waiting in the queue of an open connection has WRITE interest or a
   request for it. While the selector is about to drop that interest, there must
   be a request.
   */
  ghost predicate InterestKept(w: Writer, c: nat) {
    Queue(w, c) != [] && c !in w.closed ==>
      || Requested(w, c)
      || (c in w.writable && !(w.selector.Dropping? && w.selector.conn == c))
  }

  /** A waiting selector task will be run: the selector is, or will be, awake. */
  ghost predicate WakeupKept(w: Writer) {
    w.tasks != [] ==> w.wakeup || w.selector.Draining? || w.selector.Stopped? || exists s :: Waking(w, s)
  }

  /** Keys being written to were selected for WRITE and still have that interest; closed ones have none. */
  predicate KeysWritable(w: Writer) {
    && w.writable !! w.closed
    && (!w.selector.Blocked? && !w.selector.Stopped? ==> w.selector.todo <= w.writable)
    && (w.selector.Writing? || w.selector.SawEmpty? || w.selector.Dropping? ==>
          w.selector.conn in w.writable && w.selector.conn !in w.selector.todo)
  }

  ghost predicate HandOff(w: Writer) {
    KeysWritable(w) && WakeupKept(w) && forall c: nat :: InterestKept(w, c)
  }

  lemma RequestsKept(w: Writer, a: Act, c: nat)
    requires Can(w, a) && Requested(w, c)
    ensures Requested(Do(w, a), c) || (a.RunTask? && c == w.tasks[0])
  {
    var q := Do(w, a);
    if c in w.tasks {
      if a.RunTask? {
        assert w.tasks == [w.tasks[0]] + w.tasks[1..];
      }
    } else {
      var s :| Adding(w, s, c);
      if a == Post(s) {
        assert q.tasks[|q.tasks| - 1] == c;
      } else {
        assert Adding(q, s, c);
      }
    }
  }

  lemma StepKeepsInterest(w: Writer, a: Act, c: nat)
    requires Can(w, a) && KeysWritable(w) && InterestKept(w, c)
    ensures InterestKept(Do(w, a), c)
  {
    var q := Do(w, a);
    if Requested(w, c) {
      RequestsKept(w, a, c);
    } else if a.Add? && a.conn == c {
      assert Adding(q, a.s, c);
    }
  }

  lemma StepKeepsWakeup(w: Writer, a: Act)
    requires Can(w, a) && WakeupKept(w)
    ensures WakeupKept(Do(w, a))
  {
    var q := Do(w, a);
    if a.Post? {
      assert Waking(q, a.s);
    } else if s :| Waking(w, s) {
      assert a == Wake(s) || Waking(q, s);
    }
  }

  lemma StepKeepsHandOff(w: Writer, a: Act)
    requires Can(w, a) && HandOff(w)
    ensures HandOff(Do(w, a))
  {
    StepKeepsWakeup(w, a);
    forall c: nat
      ensures InterestKept(Do(w, a), c)
    {
      StepKeepsInterest(w, a, c);
    }
  }

  // ---------------------------------------------------------------- no lost bytes

  function Concat(bufs: seq<string>): string {
    if bufs == [] then "" else bufs[0] + Concat(bufs[1..])
  }

  lemma {:induction false} ConcatSnoc(bufs: seq<string>, b: string)
    ensures Concat(bufs + [b]) == Concat(bufs) + b
  {
    if bufs == [] {
      assert bufs + [b] == [b] && [b][1..] == [];
    } else {
      assert (bufs + [b])[1..] == bufs[1..] + [b];
      ConcatSnoc(bufs[1..], b);
      assert bufs[0] + (Concat(bufs[1..]) + b) == Concat(bufs) + b;
    }
  }

  /** Bytes on the socket, then bytes still queued: all replies, in order. */
  predicate Conserved(w: Writer, c: nat) {
    Sent(w, c) + Concat(Queue(w, c)) == EncodeAll(AddedTo(w, c))
  }

  lemma AddConserves(w: Writer, s: nat, d: nat, m: string, c: nat)
    requires Can(w, Add(s, d, m)) && Conserved(w, c)
    ensures Conserved(AddReply(w, s, d, m), c)
  {
    if c == d {
      ConcatSnoc(Queue(w, c), Encode(m));
      EncodeAllSnoc(AddedTo(w, c), m);
      AppendAssoc(Sent(w, c), Concat(Queue(w, c)), Encode(m));
    }
  }

  lemma {:induction false} PartialHead(bufs: seq<string>, k: nat)
    requires bufs != [] && k <= |bufs[0]|
    ensures Concat(bufs) == bufs[0][..k] + Concat(AfterWrite(bufs, k))
  {
    var top, rest := bufs[0], bufs[1..];
    assert top == top[..k] + top[k..];
    assert top[..k] + (top[k..] + Concat(rest)) == top + Concat(rest);
    assert ([top[k..]] + rest)[1..] == rest;
  }

  lemma WriteConserves(w: Writer, k: nat, c: nat)
    requires Can(w, WriteSome(k)) && Conserved(w, c)
    ensures Conserved(WriteHead(w, k), c)
  {
    if c == w.selector.conn {
      PartialHead(Queue(w, c), k);
      var s, t, z := Sent(w, c), Queue(w, c)[0][..k], Concat(AfterWrite(Queue(w, c), k));
      assert s + (t + z) == (s + t) + z;
    }
  }

  lemma StepConserves(w: Writer, a: Act, c: nat)
    requires Can(w, a) && Conserved(w, c)
    ensures Conserved(Do(w, a), c)
  {
    match a
    case Add(s, d, m) => AddConserves(w, s, d, m, c);
    case WriteSome(k) => WriteConserves(w, k, c);
    case _ => OthersMoveNoBytes(w, a);
  }

  lemma OthersMoveNoBytes(w: Writer, a: Act)
    requires Can(w, a) && !a.Add? && !a.WriteSome?
    ensures var q := Do(w, a);
      q.queues == w.queues && q.sent == w.sent && q.added == w.added
  {
  }

  // ---------------------------------------------------------------- runs

  ghost predicate Inv(w: Writer) {
    HandOff(w) && forall c: nat :: Conserved(w, c)
  }

  lemma BeginInv(threads: nat)
    ensures Inv(Begin(threads))
  {
  }

  lemma StepKeepsInv(w: Writer, a: Act)
    requires Can(w, a) && Inv(w)
    ensures Inv(Do(w, a))
  {
    StepKeepsHandOff(w, a);
    forall c: nat
      ensures Conserved(Do(w, a), c)
    {
      StepConserves(w, a, c);
    }
  }

  ghost predicate Next(w: Writer, q: Writer) {
    exists a: Act :: Can(w, a) && q == Do(w, a)
  }

  ghost predicate IsRun(trace: seq<Writer>, threads: nat) {
    && trace != [] && trace[0] == Begin(threads)
    && forall i :: 0 <= i < |trace| - 1 ==> Next(trace[i], trace[i + 1])
  }

  lemma {:induction false} RunKeepsInv(trace: seq<Writer>, threads: nat)
    requires IsRun(trace, threads)
    ensures Inv(trace[|trace| - 1])
    decreases |trace|
  {
    var n := |trace| - 1;
    if n == 0 {
      BeginInv(threads);
    } else {
      RunKeepsInv(trace[..n], threads);
      assert Next(trace[n - 1], trace[n]);
      var a: Act :| Can(trace[n - 1], a) && trace[n] == Do(trace[n - 1], a);
      StepKeepsInv(trace[n - 1], a);
    }
  }

  // ---------------------------------------------------------------- the end of serve

  ghost predicate ForClosed(w: Writer, c: nat) {
    c in w.closed && Requested(w, c)
  }

  /** `serve` is over, or will be: a request for WRITE interest is under way for a closed channel. */
  ghost predicate Fatal(w: Writer) {
    w.selector.Stopped? || exists c: nat :: ForClosed(w, c)
  }

  /** A reply for a connection already closed, or a close that overtakes the request of a reply. */
  ghost predicate TooLate(w: Writer, a: Act) {
    || (a.Add? && a.conn in w.closed)
    || (a.CloseRead? && Requested(w, a.conn))
    || (a.CloseWritten? && w.selector.Dropping? && Requested(w, w.selector.conn))
  }

  lemma FatalKept(w: Writer, a: Act)
    requires Can(w, a) && Fatal(w)
    ensures Fatal(Do(w, a))
  {
    if !w.selector.Stopped? {
      var c: nat :| ForClosed(w, c);
      RequestsKept(w, a, c);
      assert (a.RunTask? && c == w.tasks[0]) || ForClosed(Do(w, a), c);
    }
  }

  lemma RequestsFrom(w: Writer, a: Act, c: nat)
    requires Can(w, a) && Requested(Do(w, a), c)
    ensures Requested(w, c) || (a.Add? && a.conn == c)
  {
    var q := Do(w, a);
    if c in q.tasks {
      if a.Post? && c !in w.tasks {
        assert Adding(w, a.s, c);
      }
    } else {
      var s :| Adding(q, s, c);
      assert (a.Add? && a.s == s) || Adding(w, s, c);
    }
  }

  /** A step is what makes the end of `serve` certain exactly if it comes too late. */
  lemma StepFatal(w: Writer, a: Act)
    requires Can(w, a)
    ensures Fatal(Do(w, a)) <==> Fatal(w) || TooLate(w, a)
  {
    var q := Do(w, a);
    if Fatal(w) {
      FatalKept(w, a);
    } else if TooLate(w, a) {
      var c := if a.CloseWritten? then w.selector.conn else a.conn;
      if a.Add? {
        assert Adding(q, a.s, c);
      } else {
        RequestsKept(w, a, c);
      }
      assert ForClosed(q, c);
    } else if Fatal(q) {
      NoFatalStep(w, a);
    }
  }

  lemma NoFatalStep(w: Writer, a: Act)
    requires Can(w, a) && !Fatal(w) && !TooLate(w, a)
    ensures !Fatal(Do(w, a))
  {
    var q := Do(w, a);
    if a.RunTask? {
      assert !ForClosed(w, w.tasks[0]);
    }
    forall c: nat
      ensures !ForClosed(q, c)
    {
      assert !ForClosed(w, c);
      if Requested(q, c) {
        RequestsFrom(w, a, c);
      }
    }
  }

  ghost predicate Leads(trace: seq<Writer>, acts: seq<Act>, i: nat)
    requires i < |acts| && |trace| == |acts| + 1
  {
    Can(trace[i], acts[i]) && trace[i + 1] == Do(trace[i], acts[i])
  }

  /** A run with the steps it took. */
  ghost predicate Schedule(trace: seq<Writer>, acts: seq<Act>, threads: nat) {
    && |trace| == |acts| + 1 && trace[0] == Begin(threads)
    && forall i :: 0 <= i < |acts| ==> Leads(trace, acts, i)
  }

  lemma ScheduleInit(trace: seq<Writer>, acts: seq<Act>, threads: nat)
    requires Schedule(trace, acts, threads) && acts != []
    ensures Schedule(trace[..|acts|], acts[..|acts| - 1], threads)
  {
    var t, done := trace[..|acts|], acts[..|acts| - 1];
    forall i | 0 <= i < |done|
      ensures Leads(t, done, i)
    {
      assert Leads(trace, acts, i);
    }
  }

  /** The selector thread survives a run exactly if no step of it came too late. */
  lemma {:induction false} ServeEndsIff(trace: seq<Writer>, acts: seq<Act>, threads: nat)
    requires Schedule(trace, acts, threads)
    ensures Fatal(trace[|acts|]) <==> exists i :: 0 <= i < |acts| && TooLate(trace[i], acts[i])
    decreases |acts|
  {
    var n := |acts|;
    if n > 0 {
      ScheduleInit(trace, acts, threads);
      ServeEndsIff(trace[..n], acts[..n - 1], threads);
      assert Leads(trace, acts, n - 1);
      StepFatal(trace[n - 1], acts[n - 1]);
      if i :| 0 <= i < n - 1 && TooLate(trace[..n][i], acts[..n - 1][i]) {
        assert TooLate(trace[i], acts[i]);
      }
      if i :| 0 <= i < n && TooLate(trace[i], acts[i]) {
        assert i < n - 1 ==> TooLate(trace[..n][i], acts[..n - 1][i]);
      }
    }
  }

  /** No reply is added for a connection already closed. */
  predicate AddsInTime(trace: seq<Writer>, acts: seq<Act>)
    requires |trace| == |acts| + 1
  {
    forall i :: 0 <= i < |acts| && acts[i].Add? ==> acts[i].conn !in trace[i].closed
  }

  lemma Played(trace: seq<Writer>, acts: seq<Act>, threads: nat, a: Act) returns (t: seq<Writer>, done: seq<Act>)
    requires Schedule(trace, acts, threads) && Can(trace[|acts|], a)
    ensures Schedule(t, done, threads) && t[|done|] == Do(trace[|acts|], a)
    ensures AddsInTime(trace, acts) && !(a.Add? && a.conn in trace[|acts|].closed) ==> AddsInTime(t, done)
  {
    t, done := trace + [Do(trace[|acts|], a)], acts + [a];
    forall i | 0 <= i < |done|
      ensures Leads(t, done, i)
    {
      assert i < |acts| ==> Leads(trace, acts, i);
    }
    assert forall i :: 0 <= i < |done| ==> done[i] == (if i < |acts| then acts[i] else a) && t[i] == trace[i];
  }

  /** A state in which the first reply is queued under WRITE interest and the second just added. */
  lemma TwoReplies(c: nat) returns (t: seq<Writer>, done: seq<Act>)
    ensures Schedule(t, done, 1) && AddsInTime(t, done)
    ensures var w := t[|done|];
      && Queue(w, c) == [[NUL], [NUL]] && w.writable == {c} && w.closed == {}
      && w.tasks == [] && w.senders == [Added(c)] && w.selector == Draining({})
  {
    assert Encode("") == [NUL];
    t, done := [Begin(1)], [];
    t, done := Played(t, done, 1, Add(0, c, ""));
    assert Queue(t[|done|], c) == [[NUL]];
    t, done := Played(t, done, 1, Post(0));
    t, done := Played(t, done, 1, Wake(0));
    t, done := Played(t, done, 1, Select({}));
    t, done := Played(t, done, 1, RunTask);
    t, done := Played(t, done, 1, Add(0, c, ""));
    assert Queue(t[|done|], c) == [[NUL]] + [Encode("")];
  }

  lemma BothSelected(c: nat) returns (t: seq<Writer>, done: seq<Act>)
    ensures Schedule(t, done, 1) && AddsInTime(t, done)
    ensures var w := t[|done|];
      && Queue(w, c) == [[NUL], [NUL]] && w.closed == {} && w.tasks == [] && w.senders == [Added(c)]
      && w.selector == Writing({}, c)
  {
    t, done := TwoReplies(c);
    t, done := Played(t, done, 1, EndDrain);
    t, done := Played(t, done, 1, EndSelect);
    t, done := Played(t, done, 1, Select({c}));
    t, done := Played(t, done, 1, EndDrain);
    t, done := Played(t, done, 1, BeginWrite(c));
    assert {c} - {c} == {};
  }

  lemma WrittenAndClosed(c: nat) returns (t: seq<Writer>, done: seq<Act>)
    ensures Schedule(t, done, 1) && AddsInTime(t, done)
    ensures var w := t[|done|];
      w.senders == [Added(c)] && w.tasks == [] && w.closed == {c} && w.selector == Handling({})
  {
    t, done := BothSelected(c);
    t, done := Played(t, done, 1, WriteSome(1));
    t, done := Played(t, done, 1, WriteSome(1));
    t, done := Played(t, done, 1, LeaveLoop);
    t, done := Played(t, done, 1, TestAgain);
    t, done := Played(t, done, 1, CloseWritten);
  }

  /**
   A last reply that the selector writes, and closes the channel upon, before
   its worker has asked for WRITE interest: that request ends `serve`.
   */
  lemma LastReplyEndsServe(c: nat) returns (t: seq<Writer>, done: seq<Act>)
    ensures Schedule(t, done, 1) && AddsInTime(t, done) && t[|done|].selector.Stopped?
  {
    t, done := WrittenAndClosed(c);
    t, done := Played(t, done, 1, Post(0));
    t, done := Played(t, done, 1, Wake(0));
    t, done := Played(t, done, 1, EndSelect);
    t, done := Played(t, done, 1, Select({}));
    t, done := Played(t, done, 1, RunTask);
  }

  /** A selector asleep with no wakeup pending, and no thread in mid-send. */
  predicate Asleep(w: Writer) {
    w.selector.Blocked? && !w.wakeup && forall s :: 0 <= s < |w.senders| ==> w.senders[s].Ready?
  }

  /** Nothing is forgotten while the selector sleeps. */
  lemma NothingForgotten(w: Writer, c: nat)
    requires Inv(w) && Asleep(w)
    ensures w.tasks == []
    ensures Queue(w, c) != [] ==> c in w.writable || c in w.closed
  {
    assert InterestKept(w, c);
  }

  /**
   In every reachable interleaving, for a connection that is open: a waiting
   reply has WRITE interest or a request for it; a waiting request will wake the
   selector, unless `serve` is over; and if the selector sleeps undisturbed, every
   connection with a waiting reply has WRITE interest.
   */
  lemma NoLostInterest(trace: seq<Writer>, threads: nat, c: nat)
    requires IsRun(trace, threads)
    ensures var w := trace[|trace| - 1];
      && (Queue(w, c) != [] && c !in w.closed ==> c in w.writable || Requested(w, c))
      && (w.tasks != [] ==> w.wakeup || w.selector.Draining? || w.selector.Stopped? || exists s :: Waking(w, s))
      && (Asleep(w) ==> w.tasks == [] && (Queue(w, c) != [] ==> c in w.writable || c in w.closed))
  {
    var w := trace[|trace| - 1];
    RunKeepsInv(trace, threads);
    assert InterestKept(w, c);
    if Asleep(w) {
      NothingForgotten(w, c);
    }
  }

  /**
   What the client can read of the bytes sent so far is a prefix of the replies
   added, in order, and all of them once the queue is empty.
   */
  lemma SentFrames(w: Writer, c: nat)
    requires Inv(w) && NulFree(AddedTo(w, c))
    ensures Frames(Sent(w, c)) <= AddedTo(w, c)
    ensures Queue(w, c) == [] ==> Frames(Sent(w, c)) == AddedTo(w, c) && Rest(Sent(w, c)) == ""
  {
    var ms := AddedTo(w, c);
    assert Conserved(w, c);
    FramesUnique(ms, "");
    assert EncodeAll(ms) + "" == EncodeAll(ms);
    FramesGrow(Sent(w, c), Concat(Queue(w, c)));
    if Queue(w, c) == [] {
      assert Sent(w, c) + "" == Sent(w, c);
    }
  }

  lemma SentIsPrefixOfReplies(trace: seq<Writer>, threads: nat, c: nat)
    requires IsRun(trace, threads) && NulFree(AddedTo(trace[|trace| - 1], c))
    ensures var w := trace[|trace| - 1];
      && Sent(w, c) + Concat(Queue(w, c)) == EncodeAll(AddedTo(w, c))
      && Frames(Sent(w, c)) <= AddedTo(w, c)
      && (Queue(w, c) == [] ==> Frames(Sent(w, c)) == AddedTo(w, c))
  {
    RunKeepsInv(trace, threads);
    assert Conserved(trace[|trace| - 1], c);
    SentFrames(trace[|trace| - 1], c);
  }
}
