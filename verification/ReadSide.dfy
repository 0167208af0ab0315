/**
 The reading half of the reactor: the selector leases a buffer, fills it from a
 socket and submits a task that feeds the connection's decoder byte by byte.
 Workers, the selector and the pool interleave freely.
 */
module ReadSide {
  import opened Wrappers
  import opened Wire
  import opened ActorPool

  const BUFFER_SIZE: nat := 8192

  /** The task made by `continueRead`: a leased buffer and the bytes read into it. */
  datatype Chunk = Chunk(buf: nat, bytes: string)

  /** Where a read buffer is. */
  datatype Place = Pooled | InHand | InTask(conn: nat)

  /**
   `left[w]` is what worker `w` has not yet taken from its buffer; `hand` is the
   buffer the selector has leased and not passed on. `partial` is the content of
   each connection's decoder, `processed` the frames its protocol was given.
   `input`, `place` and `failed` record the run and are read by no step.
   */
  datatype Reading = Reading(
    pool: Pool<Chunk>,
    left: seq<string>,
    hand: Option<nat>,
    free: seq<nat>,
    made: nat,
    partial: map<nat, string>,
    processed: map<nat, seq<string>>,
    input: map<nat, string>,
    place: map<nat, Place>,
    failed: set<nat>)

  datatype Act =
    | Lease
    | ReadSome(conn: nat, bytes: string)
    | ReadEnd
    | Start(w: nat)
    | Byte(w: nat)
    | Release(w: nat)
    | Throw(w: nat)
    | Finish(w: nat)

  function Text(m: map<nat, string>, c: nat): string {
    if c in m then m[c] else ""
  }

  function List<T>(m: map<nat, seq<T>>, c: nat): seq<T> {
    if c in m then m[c] else []
  }

  function Begin(threads: nat): Reading {
    Reading(Fresh(threads), seq(threads, i => ""), None, [], 0, map[], map[], map[], map[], {})
  }

  predicate RunsOn(r: Reading, w: nat) {
    w < |r.pool.workers| && w < |r.left| && r.pool.workers[w].Running?
  }

  function Conn(r: Reading, w: nat): nat
    requires RunsOn(r, w)
  {
    r.pool.workers[w].job.actor
  }

  /** Does the next byte of worker `w` complete a frame? */
  predicate CompletesFrame(r: Reading, w: nat) {
    RunsOn(r, w) && r.left[w] != "" && r.left[w][0] == NUL
  }

  predicate Can(r: Reading, a: Act) {
    match a
    case Lease => r.hand.None?
    case ReadSome(c, bytes) => r.hand.Some? && |bytes| <= BUFFER_SIZE
    case ReadEnd => r.hand.Some?
    case Start(w) => Enabled(r.pool, Take(w)) && w < |r.left|
    case Byte(w) => RunsOn(r, w) && r.left[w] != ""
    case Release(w) => RunsOn(r, w) && r.left[w] == ""
    case Throw(w) => RunsOn(r, w)
    case Finish(w) => Enabled(r.pool, Step.Complete(w))
  }

  /** `leaseBuffer`: the head of the pool, or a new buffer when the pool is empty. */
  function LeaseBuffer(r: Reading): Reading {
    if r.free == [] then
      r.(hand := Some(r.made), made := r.made + 1, place := r.place[r.made := InHand])
    else
      r.(hand := Some(r.free[0]), free := r.free[1..], place := r.place[r.free[0] := InHand])
  }

  /** A successful read: the filled buffer goes into a task for `c`. */
  function SubmitRead(r: Reading, c: nat, bytes: string): Reading
    requires r.hand.Some?
  {
    r.(pool := Apply(r.pool, Step.Submit(c, Chunk(r.hand.value, bytes))), hand := None,
       place := r.place[r.hand.value := InTask(c)])
  }

  function StartTask(r: Reading, w: nat): Reading
    requires Enabled(r.pool, Take(w)) && w < |r.left|
  {
    r.(pool := Apply(r.pool, Take(w)), left := r.left[w := r.pool.queue[0].task.bytes])
  }

  /** `releaseBuffer` in the task's `finally`, after which `run()` is over. */
  function ReleaseBuffer(r: Reading, w: nat): Reading
    requires RunsOn(r, w)
  {
    var b := r.pool.workers[w].job.task.buf;
    r.(pool := Apply(r.pool, EndRun(w)), left := r.left[w := ""], free := r.free + [b],
       place := r.place[b := Pooled])
  }

  /** `encdec.decodeNextByte(buf.get())`, then `process` if a frame came out. */
  function FeedByte(r: Reading, w: nat): Reading
    requires RunsOn(r, w) && r.left[w] != ""
  {
    var c, b := Conn(r, w), r.left[w][0];
    var q := r.(left := r.left[w := r.left[w][1..]], input := r.input[c := Text(r.input, c) + [b]]);
    if b == NUL then
      q.(partial := r.partial[c := ""],
         processed := r.processed[c := List(r.processed, c) + [Text(r.partial, c)]])
    else
      q.(partial := r.partial[c := Text(r.partial, c) + [b]])
  }

  function Do(r: Reading, a: Act): Reading
    requires Can(r, a)
  {
    match a
    case Lease => LeaseBuffer(r)
    case ReadSome(c, bytes) => SubmitRead(r, c, bytes)
    case ReadEnd =>
      r.(hand := None, free := r.free + [r.hand.value], place := r.place[r.hand.value := Pooled])
    case Start(w) => StartTask(r, w)
    case Byte(w) => FeedByte(r, w)
    case Release(w) => ReleaseBuffer(r, w)
    case Throw(w) => ReleaseBuffer(r, w).(failed := r.failed + {Conn(r, w)})
    case Finish(w) => r.(pool := Apply(r.pool, Step.Complete(w)))
  }

  // ---------------------------------------------------------------- streams

  function Bytes(chunks: seq<Chunk>): string {
    if chunks == [] then "" else chunks[0].bytes + Bytes(chunks[1..])
  }

  lemma {:induction false} BytesAppend(x: seq<Chunk>, y: seq<Chunk>)
    ensures Bytes(x + y) == Bytes(x) + Bytes(y)
  {
    if x == [] {
      assert x + y == y;
    } else {
      assert (x + y)[1..] == x[1..] + y;
      BytesAppend(x[1..], y);
      assert Bytes(x + y) == x[0].bytes + (Bytes(x[1..]) + Bytes(y));
    }
  }

  function Bufs(chunks: seq<Chunk>): seq<nat> {
    seq(|chunks|, i requires 0 <= i < |chunks| => chunks[i].buf)
  }

  /** Everything the selector has read from connection `c`. */
  function Received(r: Reading, c: nat): string {
    Bytes(Of(c, r.pool.submitted))
  }

  /** The task of `c` that a worker is running now, if any. */
  function Current(c: nat, ws: seq<Worker<Chunk>>): seq<Chunk> {
    if ws == [] then []
    else if ws[0].Running? && ws[0].job.actor == c then [ws[0].job.task]
    else Current(c, ws[1..])
  }

  /** The entry of `xs` for the worker that is running `c`, or `none`. */
  function Pick<T>(c: nat, ws: seq<Worker<Chunk>>, xs: seq<T>, none: T): T
    requires |ws| == |xs|
  {
    if ws == [] then none
    else if ws[0].Running? && ws[0].job.actor == c then xs[0]
    else Pick(c, ws[1..], xs[1..], none)
  }

  /** Tasks of `c` submitted and not finished, oldest first. */
  function Open(r: Reading, c: nat): seq<Chunk> {
    Current(c, r.pool.workers) + Waiting(r.pool, c)
  }

  /** Bytes of `c` that have been read and not yet decoded. */
  function Undecoded(r: Reading, c: nat): string
    requires |r.left| == |r.pool.workers|
  {
    Pick(c, r.pool.workers, r.left, "") + Bytes(Waiting(r.pool, c))
  }

  // ---------------------------------------------------------------- workers

  predicate Runs(w: Worker<Chunk>, c: nat) {
    w.Running? && w.job.actor == c
  }

  lemma {:induction false} CurrentNone<T>(c: nat, ws: seq<Worker<Chunk>>, xs: seq<T>, none: T)
    requires |ws| == |xs|
    requires forall i :: 0 <= i < |ws| ==> !Runs(ws[i], c)
    ensures Current(c, ws) == [] && Pick(c, ws, xs, none) == none
  {
    if ws != [] {
      assert !Runs(ws[0], c);
      forall i | 0 <= i < |ws[1..]|
        ensures !Runs(ws[1..][i], c)
      {
        assert ws[1..][i] == ws[i + 1];
      }
      CurrentNone(c, ws[1..], xs[1..], none);
    }
  }

  lemma {:induction false} CurrentIs<T>(c: nat, ws: seq<Worker<Chunk>>, xs: seq<T>, none: T, w: nat)
    requires |ws| == |xs| && w < |ws| && Runs(ws[w], c)
    requires forall i :: 0 <= i < |ws| && i != w ==> !Runs(ws[i], c)
    ensures Current(c, ws) == [ws[w].job.task] && Pick(c, ws, xs, none) == xs[w]
  {
    if w != 0 {
      assert !Runs(ws[0], c);
      forall i | 0 <= i < |ws[1..]| && i != w - 1
        ensures !Runs(ws[1..][i], c)
      {
        assert ws[1..][i] == ws[i + 1];
      }
      CurrentIs(c, ws[1..], xs[1..], none, w - 1);
    }
  }

  /** Steps on other workers, or for other connections, do not matter to `c`. */
  lemma {:induction false} CurrentFrame<T>(c: nat, ws: seq<Worker<Chunk>>, xs: seq<T>, none: T,
                                           w: nat, v: Worker<Chunk>, x: T)
    requires |ws| == |xs| && w < |ws| && !Runs(ws[w], c) && !Runs(v, c)
    ensures Current(c, ws[w := v]) == Current(c, ws)
    ensures Pick(c, ws[w := v], xs[w := x], none) == Pick(c, ws, xs, none)
  {
    if w == 0 {
      assert ws[0 := v][1..] == ws[1..] && xs[0 := x][1..] == xs[1..];
    } else {
      assert ws[w := v][1..] == ws[1..][w - 1 := v] && xs[w := x][1..] == xs[1..][w - 1 := x];
      CurrentFrame(c, ws[1..], xs[1..], none, w - 1, v, x);
    }
  }

  /** Mutual exclusion, as the streams need it. */
  lemma OnlyWorker(r: Reading, c: nat, w: nat)
    requires ActorInv(r.pool, c) && w < |r.pool.workers| && Holds(r.pool.workers[w], c)
    ensures forall i :: 0 <= i < |r.pool.workers| && i != w ==> !Runs(r.pool.workers[i], c)
    ensures c in r.pool.playing && Of(c, r.pool.queue) == []
  {
    BusyWitness(c, r.pool.workers, w);
    forall i | 0 <= i < |r.pool.workers| && i != w
      ensures !Runs(r.pool.workers[i], c)
    {
      assert Holds(r.pool.workers[i], c) ==> Busy(c, r.pool.workers) >= 2;
    }
  }

  lemma NoWorker(r: Reading, c: nat)
    requires ActorInv(r.pool, c) && (c !in r.pool.playing || Of(c, r.pool.queue) != [])
    ensures forall i :: 0 <= i < |r.pool.workers| ==> !Runs(r.pool.workers[i], c)
  {
    forall i | 0 <= i < |r.pool.workers|
      ensures !Runs(r.pool.workers[i], c)
    {
      if Runs(r.pool.workers[i], c) {
        BusyWitness(c, r.pool.workers, i);
      }
    }
  }

  // ---------------------------------------------------------------- invariant

  /** Decoder and protocol have seen exactly the bytes fed to them. */
  predicate Decoded(r: Reading, c: nat) {
    DecodedAs(Text(r.partial, c), List(r.processed, c), Text(r.input, c))
  }

  /** Unless `process` threw, bytes fed and bytes waiting make up the stream, in order. */
  predicate InStream(r: Reading, c: nat) {
    && |r.left| == |r.pool.workers|
    && (c !in r.failed ==> Text(r.input, c) + Undecoded(r, c) == Received(r, c))
  }

  ghost predicate ConnInv(r: Reading, c: nat) {
    ActorInv(r.pool, c) && Decoded(r, c) && InStream(r, c)
  }

  lemma FeedKeepsDecoded(r: Reading, w: nat, c: nat)
    requires RunsOn(r, w) && r.left[w] != "" && Decoded(r, c)
    ensures Decoded(FeedByte(r, w), c)
  {
    if c == Conn(r, w) {
      DecodedNext(Text(r.partial, c), List(r.processed, c), Text(r.input, c), r.left[w][0]);
    }
  }

  lemma BytesSnoc(x: seq<Chunk>, k: Chunk)
    ensures Bytes(x + [k]) == Bytes(x) + k.bytes
  {
    BytesAppend(x, [k]);
  }

  lemma SubmitAddsBytes(r: Reading, d: nat, bytes: string)
    requires r.hand.Some? && ConnInv(r, d)
    ensures Undecoded(SubmitRead(r, d, bytes), d) == Undecoded(r, d) + bytes
  {
    var k := Chunk(r.hand.value, bytes);
    WaitingSubmit(r.pool, d, k, d);
    BytesSnoc(Waiting(r.pool, d), k);
    var l, z := Pick(d, r.pool.workers, r.left, ""), Bytes(Waiting(r.pool, d));
    assert l + (z + bytes) == (l + z) + bytes;
  }

  lemma SubmitReceives(r: Reading, d: nat, bytes: string)
    requires r.hand.Some?
    ensures Received(SubmitRead(r, d, bytes), d) == Received(r, d) + bytes
  {
    var k := Chunk(r.hand.value, bytes);
    OfSnoc(d, r.pool.submitted, Job(d, k));
    BytesSnoc(Of(d, r.pool.submitted), k);
  }

  lemma SubmitKeepsOwnStream(r: Reading, d: nat, bytes: string)
    requires r.hand.Some? && ConnInv(r, d)
    ensures InStream(SubmitRead(r, d, bytes), d)
  {
    SubmitAddsBytes(r, d, bytes);
    SubmitReceives(r, d, bytes);
    AppendAssoc(Text(r.input, d), Undecoded(r, d), bytes);
  }

  lemma SubmitKeepsOtherStream(r: Reading, d: nat, bytes: string, c: nat)
    requires r.hand.Some? && ConnInv(r, c) && c != d
    ensures InStream(SubmitRead(r, d, bytes), c)
  {
    WaitingSubmit(r.pool, d, Chunk(r.hand.value, bytes), c);
    OfSnoc(c, r.pool.submitted, Job(d, Chunk(r.hand.value, bytes)));
  }

  lemma StartKeepsOwnStream(r: Reading, w: nat)
    requires Enabled(r.pool, Take(w)) && ConnInv(r, r.pool.queue[0].actor)
    ensures Undecoded(StartTask(r, w), r.pool.queue[0].actor) == Undecoded(r, r.pool.queue[0].actor)
  {
    var q, j := StartTask(r, w), r.pool.queue[0];
    var c := j.actor;
    var rest := Waiting(q.pool, c);
    WaitingTake(r.pool, w, c);
    NoWorker(r, c);
    CurrentNone(c, r.pool.workers, r.left, "");
    CurrentIs(c, q.pool.workers, q.left, "", w);
    assert ([j.task] + rest)[1..] == rest;
    assert Bytes(Waiting(r.pool, c)) == j.task.bytes + Bytes(rest);
  }

  lemma StartKeepsStream(r: Reading, w: nat, c: nat)
    requires Enabled(r.pool, Take(w)) && ConnInv(r, c)
    ensures Undecoded(StartTask(r, w), c) == Undecoded(r, c)
  {
    var j := r.pool.queue[0];
    if j.actor == c {
      StartKeepsOwnStream(r, w);
    } else {
      WaitingTake(r.pool, w, c);
      CurrentFrame(c, r.pool.workers, r.left, "", w, Running(j), j.task.bytes);
    }
  }

  lemma FeedTakesByte(r: Reading, w: nat)
    requires RunsOn(r, w) && r.left[w] != "" && ConnInv(r, Conn(r, w))
    ensures Undecoded(r, Conn(r, w)) == [r.left[w][0]] + Undecoded(FeedByte(r, w), Conn(r, w))
  {
    var c, q := Conn(r, w), FeedByte(r, w);
    OnlyWorker(r, c, w);
    CurrentIs(c, r.pool.workers, r.left, "", w);
    CurrentIs(c, q.pool.workers, q.left, "", w);
    HeadApart(r.left[w]);
    AppendAssoc([r.left[w][0]], q.left[w], Bytes(Waiting(r.pool, c)));
  }

  lemma FeedKeepsStream(r: Reading, w: nat, c: nat)
    requires RunsOn(r, w) && r.left[w] != "" && ConnInv(r, c)
    ensures InStream(FeedByte(r, w), c)
  {
    var q := FeedByte(r, w);
    if Conn(r, w) == c {
      FeedTakesByte(r, w);
      AppendAssoc(Text(r.input, c), [r.left[w][0]], Undecoded(q, c));
    } else {
      CurrentFrame(c, r.pool.workers, r.left, "", w, r.pool.workers[w], q.left[w]);
      assert r.pool.workers[w := r.pool.workers[w]] == r.pool.workers;
    }
  }

  lemma EndKeepsStream(r: Reading, w: nat, c: nat)
    requires RunsOn(r, w) && ConnInv(r, c)
    requires c == Conn(r, w) && c !in r.failed ==> r.left[w] == ""
    ensures InStream(ReleaseBuffer(r, w), c)
  {
    var q := ReleaseBuffer(r, w);
    var v := Finished(r.pool.workers[w].job);
    if Conn(r, w) == c {
      OnlyWorker(r, c, w);
      CurrentIs(c, r.pool.workers, r.left, "", w);
      CurrentNone(c, q.pool.workers, q.left, "");
    } else {
      CurrentFrame(c, r.pool.workers, r.left, "", w, v, "");
    }
  }

  lemma FinishKeepsStream(r: Reading, w: nat, c: nat)
    requires Can(r, Finish(w)) && ConnInv(r, c)
    ensures InStream(Do(r, Finish(w)), c)
  {
    WaitingComplete(r.pool, w, c);
    CurrentFrame(c, r.pool.workers, r.left, "", w, Idle, r.left[w]);
    assert r.left[w := r.left[w]] == r.left;
  }

  lemma ReadKeepsConn(r: Reading, d: nat, bytes: string, c: nat)
    requires r.hand.Some? && ConnInv(r, c)
    ensures ConnInv(SubmitRead(r, d, bytes), c)
  {
    StepKeepsActor(r.pool, Step.Submit(d, Chunk(r.hand.value, bytes)), c);
    if c == d {
      SubmitKeepsOwnStream(r, d, bytes);
    } else {
      SubmitKeepsOtherStream(r, d, bytes, c);
    }
  }

  lemma StartKeepsConn(r: Reading, w: nat, c: nat)
    requires Can(r, Start(w)) && ConnInv(r, c)
    ensures ConnInv(StartTask(r, w), c)
  {
    StepKeepsActor(r.pool, Take(w), c);
    StartKeepsStream(r, w, c);
  }

  lemma FeedKeepsConn(r: Reading, w: nat, c: nat)
    requires Can(r, Byte(w)) && ConnInv(r, c)
    ensures ConnInv(FeedByte(r, w), c)
  {
    FeedKeepsDecoded(r, w, c);
    FeedKeepsStream(r, w, c);
  }

  lemma EndKeepsConn(r: Reading, w: nat, c: nat)
    requires RunsOn(r, w) && ConnInv(r, c)
    requires c == Conn(r, w) && c !in r.failed ==> r.left[w] == ""
    ensures ConnInv(ReleaseBuffer(r, w), c)
  {
    StepKeepsActor(r.pool, EndRun(w), c);
    EndKeepsStream(r, w, c);
  }

  lemma FinishKeepsConn(r: Reading, w: nat, c: nat)
    requires Can(r, Finish(w)) && ConnInv(r, c)
    ensures ConnInv(Do(r, Finish(w)), c)
  {
    StepKeepsActor(r.pool, Step.Complete(w), c);
    FinishKeepsStream(r, w, c);
  }

  lemma StepKeepsConn(r: Reading, a: Act, c: nat)
    requires Can(r, a) && ConnInv(r, c)
    ensures ConnInv(Do(r, a), c)
  {
    match a
    case Lease =>
    case ReadSome(d, bytes) => ReadKeepsConn(r, d, bytes, c);
    case ReadEnd =>
    case Start(w) => StartKeepsConn(r, w, c);
    case Byte(w) => FeedKeepsConn(r, w, c);
    case Release(w) => EndKeepsConn(r, w, c);
    case Throw(w) =>
      var q := r.(failed := r.failed + {Conn(r, w)});
      EndKeepsConn(q, w, c);
      assert Do(r, a) == ReleaseBuffer(q, w);
    case Finish(w) => FinishKeepsConn(r, w, c);
  }

  // ---------------------------------------------------------------- runs

  lemma BeginInv(threads: nat, c: nat)
    ensures ConnInv(Begin(threads), c)
  {
    FreshInv<Chunk>(threads);
    var r := Begin(threads);
    assert ActorInv(r.pool, c);
    CurrentNone(c, r.pool.workers, r.left, "");
  }

  ghost predicate Next(r: Reading, q: Reading) {
    exists a: Act :: Can(r, a) && q == Do(r, a)
  }

  /** Any interleaving of selector and workers, with any chunking of the input. */
  ghost predicate IsRun(trace: seq<Reading>, threads: nat) {
    && trace != [] && trace[0] == Begin(threads)
    && forall i :: 0 <= i < |trace| - 1 ==> Next(trace[i], trace[i + 1])
  }

  lemma {:induction false} RunKeepsConn(trace: seq<Reading>, threads: nat, c: nat)
    requires IsRun(trace, threads)
    ensures ConnInv(trace[|trace| - 1], c)
    decreases |trace|
  {
    var n := |trace| - 1;
    if n == 0 {
      BeginInv(threads, c);
    } else {
      RunKeepsConn(trace[..n], threads, c);
      assert Next(trace[n - 1], trace[n]);
      var a: Act :| Can(trace[n - 1], a) && trace[n] == Do(trace[n - 1], a);
      StepKeepsConn(trace[n - 1], a, c);
    }
  }

  /** What the invariant says about the frames of one connection. */
  lemma FramesOfConn(r: Reading, c: nat)
    requires ConnInv(r, c) && c !in r.failed
    ensures List(r.processed, c) <= Frames(Received(r, c))
    ensures Quiescent(r.pool) ==> List(r.processed, c) == Frames(Received(r, c))
  {
    FramesGrow(Text(r.input, c), Undecoded(r, c));
    if Quiescent(r.pool) {
      BusyNone(c, r.pool.workers);
      CurrentNone(c, r.pool.workers, r.left, "");
      assert Waiting(r.pool, c) == [];
      assert Text(r.input, c) + Undecoded(r, c) == Text(r.input, c);
    }
  }

  /**
   For every schedule and every chunking, the frames handed to a connection's
   protocol are a prefix of the frames of all bytes read from it, in order; and
   all of them once the pool has come to rest.
   */
  lemma FramesArriveInOrder(trace: seq<Reading>, threads: nat, c: nat)
    requires IsRun(trace, threads) && c !in trace[|trace| - 1].failed
    ensures var r := trace[|trace| - 1];
      && List(r.processed, c) <= Frames(Received(r, c))
      && (Quiescent(r.pool) ==> List(r.processed, c) == Frames(Received(r, c)))
  {
    RunKeepsConn(trace, threads, c);
    FramesOfConn(trace[|trace| - 1], c);
  }
}
