/**
 `BlockingConnectionHandler.run`: one thread reads one connection and processes
 its frames until the protocol wants to terminate, while other threads work on
 the shared tables.
 */
module Blocking {
  import opened Wrappers
  import opened Wire
  import opened Registry
  import opened Protocol
  import opened StompProtocol
  import opened Serving

  /** Why a connection's thread stops reading. */
  datatype Stop = EndOfStream | Terminated | Exception

  /** No frame is processed once the protocol wanted to terminate. */
  predicate Guarded(turns: seq<Turn>) {
    forall t :: t in turns ==> !t.before.me.terminate
  }

  class BlockingConnectionHandler {
    const encdec: LineMessageEncoderDecoder
    const protocol: StompMessagingProtocolImpl

    /** Bytes written to this connection's socket in answer to its frames. */
    var out: string

    constructor (protocol: StompMessagingProtocolImpl)
      ensures this.protocol == protocol && out == ""
      ensures encdec.Valid() && encdec.input == "" && fresh(encdec) && fresh(encdec.bytes)
    {
      this.protocol := protocol;
      encdec := new LineMessageEncoderDecoder();
      out := "";
    }

    /**
     One byte of the loop: a turn of the protocol if it completes a frame. `ok`
     fails when decoding or `process` threw.
     */
    method ServeByte(b: char, addr: nat) returns (ok: bool, ghost turn: Option<Turn>)
      requires encdec.Valid()
      modifies this, encdec, encdec.bytes, protocol, protocol.serverConnections, protocol.userManagement
      ensures encdec.Valid() && (encdec.bytes == old(encdec.bytes) || fresh(encdec.bytes))
      ensures !ok && turn.None? <==> b != NUL && |Rest(old(encdec.input))| == MAX_FRAME
      ensures ok || turn.Some? ==> encdec.input == old(encdec.input) + [b] && (turn.Some? <==> b == NUL)
      ensures turn.None? ==> protocol.Own() == old(protocol.Own()) && out == old(out)
      ensures turn.None? ==> protocol.serverConnections.outgoing == old(protocol.serverConnections.outgoing)
      ensures turn.Some? ==> TookTurn(turn.value, Rest(old(encdec.input)), old(protocol.Own()),
                                      old(protocol.serverConnections.outgoing))
      ensures turn.Some? ==> out == old(out) + EncodeAll(AnswerOf(turn.value))
      ensures turn.Some? ==> (ok <==> !turn.value.verdict.Crashed?)
    {
      ok, turn := true, None;
      var r := encdec.DecodeNextByte(b);
      if r.Err? {
        ok := false;
      } else if r.value.Some? {
        ghost var t;
        var answer;
        answer, t := TakeTurn(protocol, r.value.value, addr);
        turn := Some(t);
        ok := answer.Ok?;
        if answer.Ok? && answer.value.Some? {
          Write(answer.value.value);
        }
      }
    }

    /** `out.write(encdec.encode(response))` */
    method Write(answer: string)
      modifies this`out
      ensures out == old(out) + EncodeAll([answer])
    {
      assert EncodeAll([answer]) == Encode(answer) + EncodeAll([]);
      out := out + Encode(answer);
    }

    ghost predicate TookTurn(t: Turn, frame: string, me: Me, outgoing: seq<Delivery>)
      reads protocol, protocol.serverConnections
    {
      && IsTurn(protocol.connectionId, t) && t.frame == frame
      && t.before.me == me && t.after.me == protocol.Own()
      && outgoing <= protocol.serverConnections.outgoing && Posted(protocol.serverConnections.outgoing, t)
    }

    /**
     The frames processed are the first ones of the stream: all of them unless
     the protocol terminated or an exception ended the thread, and in any case
     none once the protocol wanted to terminate. The socket gets the answers in
     that order, and other connections the messages. `addr(k)` is where a login
     name found in a frame that ends at byte `k` is allocated.
     */
    method Run(stream: string, addr: nat -> nat) returns (stop: Stop, ghost turns: seq<Turn>)
      requires encdec.Valid() && encdec.input == ""
      modifies this, encdec, encdec.bytes, protocol, protocol.serverConnections, protocol.userManagement
      ensures FramesIn(turns) <= Frames(stream) && Guarded(turns)
      ensures Serves(protocol.connectionId, old(protocol.Own()), turns, protocol.Own())
      ensures out == old(out) + EncodeAll(Answers(turns))
      ensures AllPosted(protocol.serverConnections.outgoing, turns)
      ensures stop.EndOfStream? ==> FramesIn(turns) == Frames(stream)
      ensures !stop.Exception? ==> (stop.Terminated? <==> protocol.shouldTerminate)
    {
      var i := 0;
      ghost var c, out0, me0, answers: seq<string> := protocol.connectionId, out, protocol.Own(), [];
      turns := [];
      while i < |stream| && !protocol.shouldTerminate
        invariant i <= |stream| && encdec.Valid() && encdec.input == stream[..i]
        invariant encdec.bytes == old(encdec.bytes) || fresh(encdec.bytes)
        invariant FramesIn(turns) == Frames(stream[..i]) && Guarded(turns)
        invariant Ran(c, me0, turns, protocol.Own(), answers, protocol.serverConnections.outgoing)
        invariant out == out0 + EncodeAll(answers)
      {
        StreamStep(stream, i);
        ghost var outgoing := protocol.serverConnections.outgoing;
        var ok;
        ghost var turn;
        ok, turn := ServeByte(stream[i], addr(i));
        i := i + 1;
        if turn.Some? {
          ghost var t := turn.value;
          RanMore(c, me0, turns, answers, outgoing, t, protocol.serverConnections.outgoing);
          EncodedMore(out0, answers, AnswerOf(t));
          turns, answers := turns + [t], answers + AnswerOf(t);
        }
        if !ok {
          PrefixFrames(stream, i - 1);
          PrefixFrames(stream, i);
          return Exception, turns;
        }
      }
      PrefixFrames(stream, i);
      stop := if protocol.shouldTerminate then Terminated else EndOfStream;
    }
  }

  lemma EncodedMore(text: string, a: seq<string>, b: seq<string>)
    ensures (text + EncodeAll(a)) + EncodeAll(b) == text + EncodeAll(a + b)
  {
    EncodeAllAppend(a, b);
    AppendAssoc(text, EncodeAll(a), EncodeAll(b));
  }

  lemma StreamStep(stream: string, i: nat)
    requires i < |stream|
    ensures stream[..i + 1] == stream[..i] + [stream[i]]
    ensures Frames(stream[..i + 1])
         == Frames(stream[..i]) + if stream[i] == NUL then [Rest(stream[..i])] else []
  {
    assert stream[..i + 1] == stream[..i] + [stream[i]];
    NextByte(stream[..i], stream[i]);
  }

  lemma PrefixFrames(stream: string, i: nat)
    requires i <= |stream|
    ensures Frames(stream[..i]) <= Frames(stream)
    ensures i == |stream| ==> stream[..i] == stream
  {
    FramesGrow(stream[..i], stream[i..]);
    assert stream[..i] + stream[i..] == stream;
  }
}
