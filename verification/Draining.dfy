/**
 The writing half comes to rest: once no more replies are added and sockets take
 bytes, every schedule of senders and selector ends, with all queues empty.
 */
module Draining {
  import opened Wire
  import opened WriteSide

  // ---------------------------------------------------------------- bytes left

  ghost function BytesLeft(queues: map<nat, seq<string>>): nat {
    if queues == map[] then 0
    else
      var c :| c in queues;
      |Concat(queues[c])| + BytesLeft(queues - {c})
  }

  /** The sum does not depend on the order of the connections. */
  lemma {:induction false} BytesWithout(queues: map<nat, seq<string>>, c: nat)
    requires c in queues
    ensures BytesLeft(queues) == |Concat(queues[c])| + BytesLeft(queues - {c})
    decreases |queues|
  {
    var d :| d in queues && BytesLeft(queues) == |Concat(queues[d])| + BytesLeft(queues - {d});
    if d != c {
      BytesWithout(queues - {d}, c);
      BytesWithout(queues - {c}, d);
      assert (queues - {d}) - {c} == (queues - {c}) - {d};
    }
  }

  lemma BytesUpdate(queues: map<nat, seq<string>>, c: nat, bufs: seq<string>)
    requires c in queues
    ensures BytesLeft(queues[c := bufs]) + |Concat(queues[c])| == BytesLeft(queues) + |Concat(bufs)|
  {
    BytesWithout(queues, c);
    BytesWithout(queues[c := bufs], c);
    assert queues[c := bufs] - {c} == queues - {c};
  }

  /** No queue holds an empty buffer, so a write that takes a byte takes one of a reply. */
  ghost predicate Full(w: Writer) {
    forall c: nat :: "" !in Queue(w, c)
  }

  lemma StepKeepsFull(w: Writer, a: Act)
    requires Can(w, a) && Full(w)
    ensures Full(Do(w, a))
  {
    forall c: nat
      ensures "" !in Queue(Do(w, a), c)
    {
      assert "" !in Queue(w, c);
    }
  }

  lemma {:induction false} RunKeepsFull(trace: seq<Writer>, threads: nat)
    requires IsRun(trace, threads)
    ensures Full(trace[|trace| - 1])
    decreases |trace|
  {
    var n := |trace| - 1;
    if n > 0 {
      RunKeepsFull(trace[..n], threads);
      assert Next(trace[n - 1], trace[n]);
      var a: Act :| Can(trace[n - 1], a) && trace[n] == Do(trace[n - 1], a);
      StepKeepsFull(trace[n - 1], a);
    }
  }

  // ---------------------------------------------------------------- work left

  /** A sender past its `writeQueue.add` has a task and a wakeup to bring about. */
  function SenderWork(senders: seq<Sender>): nat {
    if senders == [] then 0
    else (match senders[0] case Ready => 0 case Added(_) => 5 case Posted => 2) + SenderWork(senders[1..])
  }

  lemma {:induction false} SenderUpdate(senders: seq<Sender>, s: nat, v: Sender)
    requires s < |senders|
    ensures SenderWork(senders[s := v]) + SenderWork([senders[s]]) == SenderWork(senders) + SenderWork([v])
  {
    if s == 0 {
      assert senders[0 := v][1..] == senders[1..];
    } else {
      assert senders[s := v][1..] == senders[1..][s - 1 := v];
      SenderUpdate(senders[1..], s - 1, v);
    }
  }

  /** The selector past its loop, with a reply added since: it goes back once for that. */
  predicate Overtaken(w: Writer) {
    w.selector.SawEmpty? && Queue(w, w.selector.conn) != []
  }

  ghost function Work(w: Writer): nat {
    BytesLeft(w.queues) + SenderWork(w.senders) + 2 * |w.tasks| + |w.writable|
    + (if w.wakeup then 1 else 0) + if Overtaken(w) then 1 else 0
  }

  /** Selector steps till some work is done, or till it sleeps. */
  function Rank(s: Selector): nat {
    match s
    case Draining(todo) => if todo == {} then 9 else 6
    case Handling(todo) => if todo == {} then 8 else 5
    case Blocked => 7
    case Writing(_, _) => 4
    case SawEmpty(_, _) => 3
    case Dropping(_, _) => 2
    case Stopped => 0
  }

  ghost function Measure(w: Writer): nat {
    16 * Work(w) + Rank(w.selector)
  }

  /** Nothing read, no new replies, no idle return of `select`, and a socket that takes at least a byte. */
  predicate Works(w: Writer, a: Act) {
    && Can(w, a) && !a.Add? && !a.CloseRead?
    && (a.Select? ==> w.wakeup || a.keys != {})
    && (a.WriteSome? ==> a.count >= 1)
  }

  lemma WriteWorks(w: Writer, k: nat)
    requires Works(w, WriteSome(k))
    ensures Work(Do(w, WriteSome(k))) < Work(w)
  {
    var c := w.selector.conn;
    BytesUpdate(w.queues, c, AfterWrite(Queue(w, c), k));
    PartialHead(Queue(w, c), k);
  }

  lemma SenderWorks(w: Writer, a: Act)
    requires Works(w, a) && (a.Post? || a.Wake?)
    ensures Work(Do(w, a)) < Work(w)
  {
    SenderUpdate(w.senders, a.s, if a.Post? then Posted else Ready);
  }

  lemma LoseInterest(w: Writer, a: Act)
    requires Works(w, a) && KeysWritable(w) && (a.DropInterest? || a.CloseWritten?)
    ensures Work(Do(w, a)) < Work(w)
  {
    assert |w.writable - {w.selector.conn}| == |w.writable| - 1;
  }

  lemma TaskWorks(w: Writer)
    requires Works(w, RunTask)
    ensures Work(Do(w, RunTask)) < Work(w)
  {
    assert |w.writable + {w.tasks[0]}| <= |w.writable| + 1;
  }

  lemma TestWorks(w: Writer)
    requires Works(w, TestAgain)
    ensures Measure(Do(w, TestAgain)) < Measure(w)
  {
  }

  lemma SelectWorks(w: Writer, keys: set<nat>)
    requires Works(w, Select(keys))
    ensures Measure(Do(w, Select(keys))) < Measure(w)
  {
  }

  lemma SelectorTurns(w: Writer, a: Act)
    requires Works(w, a) && (a.EndDrain? || a.BeginWrite? || a.LeaveLoop? || a.EndSelect?)
    ensures Measure(Do(w, a)) < Measure(w)
  {
  }

  /** Every such step brings the end nearer. */
  lemma StepWorks(w: Writer, a: Act)
    requires Works(w, a) && KeysWritable(w)
    ensures Measure(Do(w, a)) < Measure(w)
    ensures forall c: nat :: AddedTo(Do(w, a), c) == AddedTo(w, c)
  {
    match a
    case Post(_) => SenderWorks(w, a);
    case Wake(_) => SenderWorks(w, a);
    case WriteSome(k) => WriteWorks(w, k);
    case DropInterest => LoseInterest(w, a);
    case CloseWritten => LoseInterest(w, a);
    case RunTask => TaskWorks(w);
    case TestAgain => TestWorks(w);
    case Select(keys) => SelectWorks(w, keys);
    case _ => SelectorTurns(w, a);
  }

  /** While a sender or the selector is under way, or a connection has WRITE interest, some step is possible. */
  lemma SomeStepWorks(w: Writer) returns (a: Act)
    requires Full(w) && !w.selector.Stopped? && !(Asleep(w) && w.writable == {})
    ensures Works(w, a)
  {
    if s :| 0 <= s < |w.senders| && w.senders[s].Added? {
      a := Post(s);
    } else if s :| 0 <= s < |w.senders| && w.senders[s].Posted? {
      a := Wake(s);
    } else {
      match w.selector
      case Blocked => a := Select(w.writable);
      case Draining(_) => a := if w.tasks != [] then RunTask else EndDrain;
      case Handling(todo) =>
        if todo == {} {
          a := EndSelect;
        } else {
          var c :| c in todo;
          a := BeginWrite(c);
        }
      case Writing(_, c) =>
        if Queue(w, c) == [] {
          a := LeaveLoop;
        } else {
          assert Queue(w, c)[0] in Queue(w, c);
          a := WriteSome(1);
        }
      case SawEmpty(_, _) => a := TestAgain;
      case Dropping(_, _) => a := DropInterest;
    }
  }

  ghost predicate WorksTo(w: Writer, q: Writer) {
    exists a: Act :: Works(w, a) && q == Do(w, a)
  }

  ghost predicate Stuck(w: Writer) {
    forall a: Act :: !Works(w, a)
  }

  lemma {:induction false} DrainsFrom(trace: seq<Writer>)
    requires trace != [] && Inv(trace[0]) && Full(trace[0])
    requires forall i :: 0 <= i < |trace| - 1 ==> WorksTo(trace[i], trace[i + 1])
    ensures |trace| - 1 <= Measure(trace[0])
    ensures var w := trace[|trace| - 1];
      Inv(w) && Full(w) && forall c: nat :: AddedTo(w, c) == AddedTo(trace[0], c)
  {
    var w := trace[0];
    if |trace| > 1 {
      assert WorksTo(trace[0], trace[1]);
      var a: Act :| Works(w, a) && trace[1] == Do(w, a);
      StepWorks(w, a);
      StepKeepsInv(w, a);
      StepKeepsFull(w, a);
      forall i | 0 <= i < |trace[1..]| - 1
        ensures WorksTo(trace[1..][i], trace[1..][i + 1])
      {
        assert WorksTo(trace[i + 1], trace[i + 2]);
      }
      DrainsFrom(trace[1..]);
    }
  }

  /** What is left when nothing more can be done: all is sent, or `serve` is over. */
  ghost predicate Drained(w: Writer) {
    if Fatal(w) then w.selector.Stopped?
    else
      && Asleep(w) && w.tasks == [] && w.writable == {}
      && forall c: nat :: c !in w.closed ==> Queue(w, c) == [] && Sent(w, c) == EncodeAll(AddedTo(w, c))
  }

  lemma StuckIsDrained(w: Writer)
    requires Inv(w) && Full(w) && Stuck(w)
    ensures Drained(w)
  {
    if !w.selector.Stopped? {
      if !(Asleep(w) && w.writable == {}) {
        var a := SomeStepWorks(w);
      }
      AsleepIsDrained(w);
    }
  }

  lemma AsleepIsDrained(w: Writer)
    requires Inv(w) && Asleep(w) && w.writable == {}
    ensures Drained(w) && !Fatal(w)
  {
    NothingForgotten(w, 0);
    forall c: nat
      ensures !ForClosed(w, c) && (c !in w.closed ==> Queue(w, c) == [] && Sent(w, c) == EncodeAll(AddedTo(w, c)))
    {
      NothingForgotten(w, c);
      assert Conserved(w, c);
      assert Sent(w, c) + "" == Sent(w, c);
    }
  }

  /**
   From whatever state a run has come to: once replies stop and nothing is read,
   no schedule is longer than the measure says. One that cannot go on has sent
   every byte of every reply on every open connection, with no request left over,
   or has ended `serve`, and that only if a request for a closed channel was made.
   */
  lemma WritesDrain(past: seq<Writer>, threads: nat, trace: seq<Writer>)
    requires IsRun(past, threads) && trace != [] && trace[0] == past[|past| - 1]
    requires forall i :: 0 <= i < |trace| - 1 ==> WorksTo(trace[i], trace[i + 1])
    ensures |trace| - 1 <= Measure(trace[0])
    ensures var w := trace[|trace| - 1];
      && (forall c: nat :: AddedTo(w, c) == AddedTo(trace[0], c))
      && (Stuck(w) ==> Drained(w))
  {
    RunKeepsInv(past, threads);
    RunKeepsFull(past, threads);
    DrainsFrom(trace);
    if Stuck(trace[|trace| - 1]) {
      StuckIsDrained(trace[|trace| - 1]);
    }
  }
}
