/**
 The reactor with its protocol: the replies a worker sends are those that
 `process` makes of the frame it has decoded. Whatever the schedule, the frames
 processed are a run of `Sessions`, and what goes out is what that run answers.
 One `process` call is one step here.
 */
module ReactorRuns {
  import opened Wrappers
  import opened Wire
  import opened StompText
  import opened Registry
  import opened Protocol
  import opened ReadSide
  import R = Reactor
  import S = Sessions

  /**
   `trace` and `events` are the past of tables and protocol objects; `thrown` the
   workers whose task has ended in an exception; `asked` what the selector has
   been told by `shouldTerminate` of the connection whose queue it found empty.
   */
  datatype Service = Service(
    reactor: R.Server,
    trace: seq<S.Server>,
    events: seq<S.Event>,
    thrown: set<nat>,
    asked: Option<bool>)

  const CLOSE_WRITTEN: R.Move := R.Selector(R.W.CloseWritten)

  /**
   `CloseConnection` is a failed read, `CloseWritten` the end of `continueWrite`
   when `AskProtocol` has found the protocol finished; workers may act between the
   two. `Other` stands for all moves that leave tables and protocol objects alone.
   */
  datatype Step =
    | Accept
    | CloseConnection(conn: nat)
    | AskProtocol
    | CloseWritten
    | PlainByte(w: nat)
    | FrameByte(w: nat, addr: nat, sent: seq<Delivery>, broken: bool)
    | Other(move: R.Move)

  function Begin(threads: nat): Service {
    Service(R.Begin(threads), [S.START], [], {}, None)
  }

  function Now(s: Service): S.Server
    requires s.trace != []
  {
    s.trace[|s.trace| - 1]
  }

  /** `shouldTerminate` of connection `c`. */
  predicate Finished(s: S.Server, c: nat) {
    c in s.live && s.live[c].terminate
  }

  // ---------------------------------------------------------------- replies

  function MessageTo(d: Delivery): R.Reply {
    R.Reply(d.conn, MessageFrame(d.subscription, d.messageId, d.channel, d.body))
  }

  function Messages(ds: seq<Delivery>): seq<R.Reply> {
    seq(|ds|, i requires 0 <= i < |ds| => MessageTo(ds[i]))
  }

  /** Messages to other connections go out during `process`, the answer after it. */
  function RepliesTo(s: S.Server, e: S.Event): seq<R.Reply>
    requires e.Frame? && e.conn in s.live
  {
    var answer := Answer(e.parts, s.live[e.conn], S.Verdict(s, e));
    Messages(e.sent) + if answer.Some? then [R.Reply(e.conn, answer.value)] else []
  }

  // ---------------------------------------------------------------- steps

  /** The frame that the next byte of worker `w` completes, as an event. */
  function Completed(s: Service, step: Step): S.Event
    requires step.FrameByte? && RunsOn(s.reactor.read, step.w)
  {
    var c := Conn(s.reactor.read, step.w);
    S.Frame(c, Cut(ReadSide.Text(s.reactor.read.partial, c)), step.addr, step.sent, step.broken)
  }

  ghost predicate CanStep(s: Service, step: Step)
    requires s.trace != []
  {
    match step
    case Accept => s.reactor.write.selector.Handling? && s.reactor.read.hand.None?
    case CloseConnection(c) => R.Can(s.reactor, R.ReadClosed(c)) && S.Can(Now(s), S.Close(c))
    case AskProtocol => s.reactor.write.selector.Dropping? && s.asked.None?
    case CloseWritten =>
      && R.Can(s.reactor, CLOSE_WRITTEN) && s.asked == Some(true)
      && S.Can(Now(s), S.Close(s.reactor.write.selector.conn))
    case PlainByte(w) => R.Can(s.reactor, R.NextByte(w, [])) && !CompletesFrame(s.reactor.read, w) && w !in s.thrown
    case FrameByte(w, _, _, _) =>
      && CompletesFrame(s.reactor.read, w) && w !in s.thrown
      && S.Can(Now(s), Completed(s, step))
      && R.Can(s.reactor, R.NextByte(w, RepliesTo(Now(s), Completed(s, step))))
    case Other(m) =>
      && R.Can(s.reactor, m) && !m.NextByte? && !m.ReadClosed? && m != CLOSE_WRITTEN
      && (m == R.Selector(R.W.DropInterest) ==> s.asked == Some(false))
      && (m.ReadChunk? ==> m.conn in Now(s).live)
      && (m.FinishRun? ==> m.w !in s.thrown)
  }

  ghost function Happened(s: Service, e: S.Event, reactor: R.Server): Service
    requires s.trace != [] && S.Can(Now(s), e)
  {
    s.(reactor := reactor, trace := s.trace + [S.Do(Now(s), e)], events := s.events + [e])
  }

  ghost function DoStep(s: Service, step: Step): Service
    requires s.trace != [] && CanStep(s, step)
  {
    match step
    case Accept => Happened(s, S.Open, s.reactor)
    case CloseConnection(c) =>
      Happened(s, S.Close(c), R.Do(s.reactor, R.ReadClosed(c)))
    case AskProtocol => s.(asked := Some(Finished(Now(s), s.reactor.write.selector.conn)))
    case CloseWritten =>
      Happened(s, S.Close(s.reactor.write.selector.conn), R.Do(s.reactor, CLOSE_WRITTEN)).(asked := None)
    case PlainByte(w) => s.(reactor := R.Do(s.reactor, R.NextByte(w, [])))
    case FrameByte(w, _, _, _) =>
      var e := Completed(s, step);
      Happened(s, e, R.Do(s.reactor, R.NextByte(w, RepliesTo(Now(s), e)))).(
        thrown := if S.Verdict(Now(s), e).Crashed? then s.thrown + {w} else s.thrown)
    case Other(m) =>
      s.(reactor := R.Do(s.reactor, m), thrown := if m.FailRun? then s.thrown - {m.w} else s.thrown,
         asked := if m.Selector? then None else s.asked)
  }

  // ---------------------------------------------------------------- what the run says

  /** The replies that the frames of `c` cause, in order. */
  ghost function RepliesOf(c: nat, trace: seq<S.Server>, events: seq<S.Event>): seq<R.Reply>
    requires |trace| == |events| + 1
  {
    if events == [] then []
    else
      var n := |events| - 1;
      RepliesOf(c, trace[..n + 1], events[..n]) + RepliesIf(c, trace[n], events[n])
  }

  ghost function RepliesIf(c: nat, s: S.Server, e: S.Event): seq<R.Reply> {
    if e.Frame? && e.conn == c && c in s.live then RepliesTo(s, e) else []
  }

  lemma EventMore(c: nat, trace: seq<S.Server>, events: seq<S.Event>, e: S.Event, q: S.Server)
    requires |trace| == |events| + 1
    ensures S.FramesFrom(c, events + [e]) == S.FramesFrom(c, events) + if e.Frame? && e.conn == c then [e.parts] else []
    ensures RepliesOf(c, trace + [q], events + [e])
         == RepliesOf(c, trace, events) + RepliesIf(c, trace[|events|], e)
  {
    var n := |events|;
    assert (events + [e])[..n] == events && (events + [e])[n] == e;
    assert (trace + [q])[..n + 1] == trace && (trace + [q])[n] == trace[n];
  }

  // ---------------------------------------------------------------- invariant

  ghost predicate Told(s: Service, c: nat)
    requires |s.trace| == |s.events| + 1
  {
    && S.FramesFrom(c, s.events) == CutAll(List(s.reactor.read.processed, c))
    && RepliesOf(c, s.trace, s.events) == R.Issued(s.reactor, c)
  }

  ghost predicate Inv(s: Service) {
    R.Inv(s.reactor) && S.AnyRun(s.trace, s.events) && forall c: nat :: Told(s, c)
  }

  /** Moves other than a completed frame give the protocol nothing and issue no replies. */
  lemma OtherMoves(r: R.Server, m: R.Move, c: nat)
    requires R.Can(r, m) && (m.NextByte? ==> m.replies == [] && !CompletesFrame(r.read, m.w))
    ensures List(R.Do(r, m).read.processed, c) == List(r.read.processed, c)
    ensures R.Issued(R.Do(r, m), c) == R.Issued(r, c)
  {
  }

  lemma HappenedKeeps(s: Service, e: S.Event, q: R.Server, c: nat)
    requires Inv(s) && S.Can(Now(s), e)
    requires List(q.read.processed, c)
          == List(s.reactor.read.processed, c)
             + if e.Frame? && e.conn == c then [ReadSide.Text(s.reactor.read.partial, c)] else []
    requires e.Frame? && e.conn == c ==> e.parts == Cut(ReadSide.Text(s.reactor.read.partial, c))
    requires R.Issued(q, c) == R.Issued(s.reactor, c) + RepliesIf(c, Now(s), e)
    ensures Told(Happened(s, e, q), c)
  {
    assert Told(s, c);
    EventMore(c, s.trace, s.events, e, S.Do(Now(s), e));
    if e.Frame? && e.conn == c {
      CutMore(List(s.reactor.read.processed, c), ReadSide.Text(s.reactor.read.partial, c));
    }
  }

  /** A completed frame goes to its connection's protocol, and its replies are issued to that connection's worker. */
  lemma FrameMoves(r: R.Server, w: nat, replies: seq<R.Reply>, c: nat)
    requires R.Can(r, R.NextByte(w, replies)) && CompletesFrame(r.read, w)
    ensures var q, mine := R.Do(r, R.NextByte(w, replies)), Conn(r.read, w) == c;
      && List(q.read.processed, c)
         == List(r.read.processed, c) + (if mine then [ReadSide.Text(r.read.partial, c)] else [])
      && R.Issued(q, c) == R.Issued(r, c) + if mine then replies else []
  {
  }

  lemma FrameByteKeeps(s: Service, step: Step)
    requires Inv(s) && step.FrameByte? && CanStep(s, step)
    ensures Inv(DoStep(s, step))
  {
    var e := Completed(s, step);
    var m := R.NextByte(step.w, RepliesTo(Now(s), e));
    R.StepKeepsInv(s.reactor, m);
    S.AnyRunMore(s.trace, s.events, e);
    forall c: nat
      ensures Told(DoStep(s, step), c)
    {
      FrameMoves(s.reactor, step.w, m.replies, c);
      HappenedKeeps(s, e, R.Do(s.reactor, m), c);
    }
  }

  lemma QuietStepKeeps(s: Service, step: Step, m: R.Move)
    requires Inv(s) && CanStep(s, step)
    requires R.Can(s.reactor, m) && (m.NextByte? ==> m.replies == [] && !CompletesFrame(s.reactor.read, m.w))
    requires DoStep(s, step).reactor == R.Do(s.reactor, m)
    requires DoStep(s, step).trace == s.trace && DoStep(s, step).events == s.events
    ensures Inv(DoStep(s, step))
  {
    R.StepKeepsInv(s.reactor, m);
    forall c: nat
      ensures Told(DoStep(s, step), c)
    {
      assert Told(s, c);
      OtherMoves(s.reactor, m, c);
    }
  }

  lemma OpenOrCloseKeeps(s: Service, e: S.Event, q: R.Server)
    requires Inv(s) && S.Can(Now(s), e) && !e.Frame? && R.Inv(q)
    requires forall c: nat :: List(q.read.processed, c) == List(s.reactor.read.processed, c)
    requires forall c: nat :: R.Issued(q, c) == R.Issued(s.reactor, c)
    ensures Inv(Happened(s, e, q))
  {
    S.AnyRunMore(s.trace, s.events, e);
    forall c: nat
      ensures Told(Happened(s, e, q), c)
    {
      HappenedKeeps(s, e, q, c);
    }
  }

  lemma CloseKeeps(s: Service, c: nat, m: R.Move)
    requires Inv(s) && S.Can(Now(s), S.Close(c)) && R.Can(s.reactor, m) && !m.NextByte?
    ensures Inv(Happened(s, S.Close(c), R.Do(s.reactor, m)))
  {
    var q := R.Do(s.reactor, m);
    R.StepKeepsInv(s.reactor, m);
    forall d: nat
      ensures List(q.read.processed, d) == List(s.reactor.read.processed, d)
      ensures R.Issued(q, d) == R.Issued(s.reactor, d)
    {
      OtherMoves(s.reactor, m, d);
    }
    OpenOrCloseKeeps(s, S.Close(c), q);
  }

  lemma AskedTells(s: Service, asked: Option<bool>)
    requires Inv(s)
    ensures Inv(s.(asked := asked))
  {
    forall c: nat
      ensures Told(s.(asked := asked), c)
    {
      assert Told(s, c);
    }
  }

  lemma StepKeeps(s: Service, step: Step)
    requires Inv(s) && CanStep(s, step)
    ensures Inv(DoStep(s, step))
  {
    match step
    case Accept => OpenOrCloseKeeps(s, S.Open, s.reactor);
    case CloseConnection(c) => CloseKeeps(s, c, R.ReadClosed(c));
    case AskProtocol => AskedTells(s, DoStep(s, step).asked);
    case CloseWritten =>
      var c := s.reactor.write.selector.conn;
      CloseKeeps(s, c, CLOSE_WRITTEN);
      AskedTells(Happened(s, S.Close(c), R.Do(s.reactor, CLOSE_WRITTEN)), None);
    case PlainByte(w) => QuietStepKeeps(s, step, R.NextByte(w, []));
    case FrameByte(_, _, _, _) => FrameByteKeeps(s, step);
    case Other(m) => QuietStepKeeps(s, step, m);
  }

  // ---------------------------------------------------------------- whole runs

  ghost predicate Next(s: Service, q: Service) {
    s.trace != [] && exists step: Step :: CanStep(s, step) && q == DoStep(s, step)
  }

  ghost predicate IsRun(states: seq<Service>, threads: nat) {
    && states != [] && states[0] == Begin(threads)
    && forall i :: 0 <= i < |states| - 1 ==> Next(states[i], states[i + 1])
  }

  lemma BeginInv(threads: nat)
    ensures Inv(Begin(threads))
  {
    R.BeginInv(threads);
    forall c: nat
      ensures Told(Begin(threads), c)
    {
      assert CutAll([]) == [];
    }
  }

  lemma {:induction false} RunKeepsInv(states: seq<Service>, threads: nat)
    requires IsRun(states, threads)
    ensures Inv(states[|states| - 1])
    decreases |states|
  {
    var n := |states| - 1;
    if n == 0 {
      BeginInv(threads);
    } else {
      RunKeepsInv(states[..n], threads);
      assert Next(states[n - 1], states[n]);
      var step: Step :| CanStep(states[n - 1], step) && states[n] == DoStep(states[n - 1], step);
      StepKeeps(states[n - 1], step);
    }
  }

  /**
   Workers, selector and partial writes make no difference to what is said: the
   events are a run of the protocol; each connection's frames in it are the first
   ones of what was read from it; the replies its frames cause are queued as the
   run makes them, in order; and what is sent to a connection is the beginning of
   what was queued for it.
   */
  lemma ServesARun(states: seq<Service>, threads: nat, c: nat)
    requires IsRun(states, threads)
    ensures var s := states[|states| - 1];
      && S.AnyRun(s.trace, s.events)
      && (c !in s.reactor.read.failed ==> S.FramesFrom(c, s.events) <= CutAll(Frames(Received(s.reactor.read, c))))
      && R.From(c, s.reactor.log) <= RepliesOf(c, s.trace, s.events)
      && R.W.Sent(s.reactor.write, c) <= EncodeAll(R.To(c, s.reactor.log))
  {
    var s := states[|states| - 1];
    RunKeepsInv(states, threads);
    assert Told(s, c);
    R.InOrder(s.reactor, c);
  }

  /** At rest the run has seen every frame, and all that it answers has been queued, and sent or waits to be. */
  lemma RestIsServed(states: seq<Service>, threads: nat, c: nat)
    requires IsRun(states, threads) && R.AtRest(states[|states| - 1].reactor)
    ensures var s := states[|states| - 1];
      && S.AnyRun(s.trace, s.events)
      && (c !in s.reactor.read.failed ==> S.FramesFrom(c, s.events) == CutAll(Frames(Received(s.reactor.read, c))))
      && R.From(c, s.reactor.log) == RepliesOf(c, s.trace, s.events)
      && R.W.Sent(s.reactor.write, c) + R.W.Concat(R.W.Queue(s.reactor.write, c)) == EncodeAll(R.To(c, s.reactor.log))
      && (R.W.Queue(s.reactor.write, c) != [] ==> c in s.reactor.write.writable || c in s.reactor.write.closed)
  {
    var s := states[|states| - 1];
    RunKeepsInv(states, threads);
    assert Told(s, c);
    R.Complete(s.reactor, c);
  }
}
