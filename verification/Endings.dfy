/**
 How a connection of the reactor ends: once its protocol wants to terminate,
 the answer that said so brings `continueWrite` to close it, whatever the
 schedule, and closing takes it out of the tables.
 */
module Endings {
  import opened Wrappers
  import opened StompText
  import opened Protocol
  import opened ReactorRuns
  import R = Reactor
  import W = WriteSide
  import S = Sessions

  // ---------------------------------------------------------------- what leads to a close

  /** Worker `w` has a reply for `c` still to send. */
  ghost predicate Owes(r: R.Server, w: int, c: nat) {
    0 <= w < |r.outbox| && For(r.outbox[w], c)
  }

  ghost predicate For(box: seq<R.Reply>, c: nat) {
    exists i :: 0 <= i < |box| && box[i].to == c
  }

  /** Something is under way that will bring the selector to `c`. */
  ghost predicate Heeded(r: R.Server, c: nat) {
    W.Requested(r.write, c) || exists w :: Owes(r, w, c)
  }

  /** The selector was told that `c` is not finished, and is about to drop its interest. */
  predicate Misled(s: Service, c: nat) {
    s.reactor.write.selector.Dropping? && s.reactor.write.selector.conn == c && s.asked == Some(false)
  }

  predicate Closed(s: Service, c: nat) {
    c in s.reactor.write.closed
  }

  /** A finished connection is closed, or the selector will come to it and find it finished. */
  ghost predicate WillClose(s: Service, c: nat)
    requires s.trace != []
  {
    Finished(Now(s), c) && !Closed(s, c) ==>
      Heeded(s.reactor, c) || (c in s.reactor.write.writable && !Misled(s, c))
  }

  lemma OwesKept(r: R.Server, m: R.Move, w: int, c: nat)
    requires R.Can(r, m) && Owes(r, w, c)
    ensures Heeded(R.Do(r, m), c)
  {
    var q := R.Do(r, m);
    var i :| 0 <= i < |r.outbox[w]| && r.outbox[w][i].to == c;
    if m == R.AddReply(w) {
      if i == 0 {
        assert W.Adding(q.write, w, c);
      } else {
        assert q.outbox[w][i - 1].to == c;
        assert Owes(q, w, c);
      }
    } else {
      assert q.outbox[w] == r.outbox[w];
      assert Owes(q, w, c);
    }
  }

  lemma HeededKept(r: R.Server, m: R.Move, c: nat)
    requires R.Can(r, m) && Heeded(r, c)
    ensures var q := R.Do(r, m);
      || Heeded(q, c) || c in q.write.closed
      || (c in q.write.writable && !q.write.selector.Dropping?)
  {
    if w :| Owes(r, w, c) {
      OwesKept(r, m, w, c);
    } else if R.WriteAct(r, m).Some? {
      W.RequestsKept(r.write, R.WriteAct(r, m).value, c);
    }
  }

  /** Interest is lost, and channels are closed, only so. */
  lemma KeysChange(w: W.Writer, a: W.Act, c: nat)
    requires W.Can(w, a)
    ensures var q := W.Do(w, a);
      && (c in w.writable && c !in q.writable ==> c in q.closed || (a.DropInterest? && w.selector.conn == c))
      && (c in q.closed && c !in w.closed ==> a == W.CloseRead(c) || (a.CloseWritten? && w.selector.conn == c))
  {
  }

  lemma WritableKept(r: R.Server, m: R.Move, c: nat)
    requires R.Can(r, m) && c in r.write.writable
    requires m == R.Selector(R.W.DropInterest) ==> r.write.selector.conn != c
    ensures c in R.Do(r, m).write.writable || c in R.Do(r, m).write.closed
  {
    if R.WriteAct(r, m).Some? {
      KeysChange(r.write, R.WriteAct(r, m).value, c);
    }
  }

  lemma ClosedBy(r: R.Server, m: R.Move, c: nat)
    requires R.Can(r, m) && c in R.Do(r, m).write.closed && c !in r.write.closed
    ensures m == R.ReadClosed(c) || (m == CLOSE_WRITTEN && r.write.selector.conn == c)
  {
    KeysChange(r.write, R.WriteAct(r, m).value, c);
  }

  /** A connection's wish to terminate comes with an answer. */
  lemma AnswersAtEnd(s: S.Server, e: S.Event)
    requires S.Can(s, e) && e.Frame? && !Finished(s, e.conn) && Finished(S.Do(s, e), e.conn)
    ensures Answer(e.parts, s.live[e.conn], S.Verdict(s, e)).Some?
  {
  }

  lemma LastIsFor(box: seq<R.Reply>, r: R.Reply, c: nat)
    requires r.to == c
    ensures For(box + [r], c)
  {
    assert (box + [r])[|box|].to == c;
  }

  lemma AnswerIsFor(s: S.Server, e: S.Event)
    requires S.Can(s, e) && e.Frame? && !Finished(s, e.conn) && Finished(S.Do(s, e), e.conn)
    ensures For(RepliesTo(s, e), e.conn)
  {
    AnswersAtEnd(s, e);
    var answer := Answer(e.parts, s.live[e.conn], S.Verdict(s, e));
    LastIsFor(Messages(e.sent), R.Reply(e.conn, answer.value), e.conn);
  }

  lemma RepliesAreOwed(r: R.Server, w: nat, replies: seq<R.Reply>, c: nat)
    requires R.Can(r, R.NextByte(w, replies)) && For(replies, c)
    ensures Heeded(R.Do(r, R.NextByte(w, replies)), c)
  {
    assert Owes(R.Do(r, R.NextByte(w, replies)), w, c);
  }

  // ---------------------------------------------------------------- steps

  /** The move of the reactor that a step makes, if any. */
  function MoveOf(s: Service, step: Step): Option<R.Move>
    requires s.trace != [] && CanStep(s, step)
  {
    match step
    case Accept => None
    case CloseConnection(c) => Some(R.ReadClosed(c))
    case AskProtocol => None
    case CloseWritten => Some(CLOSE_WRITTEN)
    case PlainByte(w) => Some(R.NextByte(w, []))
    case FrameByte(w, _, _, _) => Some(R.NextByte(w, RepliesTo(Now(s), Completed(s, step))))
    case Other(m) => Some(m)
  }

  lemma MoveMade(s: Service, step: Step)
    requires s.trace != [] && CanStep(s, step)
    ensures DoStep(s, step).trace != []
    ensures match MoveOf(s, step)
      case None => DoStep(s, step).reactor == s.reactor
      case Some(m) => R.Can(s.reactor, m) && DoStep(s, step).reactor == R.Do(s.reactor, m)
  {
  }

  lemma FinishedByEvent(s: S.Server, e: S.Event, c: nat)
    requires S.Can(s, e) && Finished(S.Do(s, e), c)
    ensures Finished(s, c) || (e.Frame? && e.conn == c)
  {
  }

  lemma FinishedBefore(s: Service, step: Step, c: nat)
    requires Inv(s) && CanStep(s, step) && Finished(Now(DoStep(s, step)), c)
    ensures Finished(Now(s), c) || (step.FrameByte? && Completed(s, step).conn == c)
  {
    match step
    case Accept => FinishedByEvent(Now(s), S.Open, c);
    case CloseConnection(d) => FinishedByEvent(Now(s), S.Close(d), c);
    case CloseWritten => FinishedByEvent(Now(s), S.Close(s.reactor.write.selector.conn), c);
    case FrameByte(_, _, _, _) => FinishedByEvent(Now(s), Completed(s, step), c);
    case _ =>
  }

  lemma StepWillClose(s: Service, step: Step, c: nat)
    requires Inv(s) && CanStep(s, step) && WillClose(s, c)
    ensures WillClose(DoStep(s, step), c)
  {
    var q := DoStep(s, step);
    MoveMade(s, step);
    if Finished(Now(q), c) && !Closed(q, c) {
      FinishedBefore(s, step, c);
      if !Finished(Now(s), c) {
        AnswerIsFor(Now(s), Completed(s, step));
        RepliesAreOwed(s.reactor, step.w, RepliesTo(Now(s), Completed(s, step)), c);
      } else {
        KeepsWillClose(s, step, c);
      }
    }
  }

  lemma KeepsWillClose(s: Service, step: Step, c: nat)
    requires Inv(s) && CanStep(s, step) && WillClose(s, c) && Finished(Now(s), c)
    requires !Closed(DoStep(s, step), c)
    ensures WillClose(DoStep(s, step), c)
  {
    var q, m := DoStep(s, step), MoveOf(s, step);
    MoveMade(s, step);
    if m.Some? {
      if Heeded(s.reactor, c) {
        HeededKept(s.reactor, m.value, c);
      } else {
        WritableKept(s.reactor, m.value, c);
      }
    }
  }

  /** Whoever is closed has been closed by an event of the run. */
  ghost predicate CloseTold(s: Service, c: nat) {
    Closed(s, c) ==> S.Close(c) in s.events
  }

  lemma StepTells(s: Service, step: Step, c: nat)
    requires s.trace != [] && CanStep(s, step) && CloseTold(s, c)
    ensures CloseTold(DoStep(s, step), c)
  {
    var q := DoStep(s, step);
    MoveMade(s, step);
    assert s.events <= q.events;
    if Closed(q, c) && !Closed(s, c) {
      ClosedBy(s.reactor, MoveOf(s, step).value, c);
      assert q.events[|q.events| - 1] == S.Close(c);
    }
  }

  // ---------------------------------------------------------------- whole runs

  ghost predicate Awaited(s: Service, c: nat) {
    s.trace != [] && WillClose(s, c) && CloseTold(s, c)
  }

  lemma BeginAwaited(threads: nat, c: nat)
    ensures Awaited(Begin(threads), c)
  {
  }

  lemma NextAwaited(s: Service, q: Service, c: nat)
    requires Inv(s) && Next(s, q) && Awaited(s, c)
    ensures Awaited(q, c)
  {
    var step: Step :| CanStep(s, step) && q == DoStep(s, step);
    MoveMade(s, step);
    StepWillClose(s, step, c);
    StepTells(s, step, c);
  }

  lemma {:induction false} RunAwaited(states: seq<Service>, threads: nat, c: nat)
    requires IsRun(states, threads)
    ensures Awaited(states[|states| - 1], c)
    decreases |states|
  {
    var n := |states| - 1;
    if n == 0 {
      BeginAwaited(threads, c);
    } else {
      RunAwaited(states[..n], threads, c);
      RunKeepsInv(states[..n], threads);
      assert Next(states[n - 1], states[n]);
      NextAwaited(states[n - 1], states[n], c);
    }
  }

  /**
   When the reactor has come to rest with nothing left to write, every connection
   whose protocol wants to terminate has been closed, and with that was taken out
   of the tables: its handler for good, its login then and there.
   */
  lemma FinishedIsClosed(states: seq<Service>, threads: nat, c: nat)
    requires IsRun(states, threads)
    requires var r := states[|states| - 1].reactor;
      R.AtRest(r) && r.write.writable == {}
    ensures var s := states[|states| - 1];
      s.trace != [] && (Finished(Now(s), c) ==> Closed(s, c) && ClosedAt(s, c) && c !in Now(s).tables.handlers)
  {
    var s := states[|states| - 1];
    RunKeepsInv(states, threads);
    RunAwaited(states, threads, c);
    if Finished(Now(s), c) {
      W.NothingForgotten(s.reactor.write, c);
      forall w
        ensures !Owes(s.reactor, w, c)
      {
        assert 0 <= w < |s.reactor.outbox| ==> R.Quiet(s.reactor, w);
      }
      ClosedIsOut(s, c);
    }
  }

  ghost predicate ClosedAt(s: Service, c: nat) {
    && |s.trace| == |s.events| + 1
    && exists i :: 0 <= i < |s.events| && s.events[i] == S.Close(c) && c !in s.trace[i + 1].tables.users
  }

  lemma ClosedIsOut(s: Service, c: nat)
    requires Inv(s) && S.Close(c) in s.events
    ensures ClosedAt(s, c) && c !in Now(s).tables.handlers
  {
    var i :| 0 <= i < |s.events| && s.events[i] == S.Close(c);
    S.CloseReleases(s.trace, s.events, i);
    S.ClosedStaysOut(s.trace, s.events, i, |s.events|);
  }
}
