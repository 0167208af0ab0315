/**
 The loops that move bytes: the server handler's read task and `continueWrite`,
 while other threads work on the same write queue, and the client's `getBytes`,
 `sendBytes` and `getFrameAscii`. The socket is a byte string; how many bytes a
 transfer moves is up to the environment.
 */
module Transfers {
  import opened Wrappers
  import opened Wire
  import opened Registry
  import opened Protocol
  import opened StompProtocol
  import opened Serving
  import W = WriteSide

  function Encoded(ms: seq<string>): seq<string> {
    seq(|ms|, i requires 0 <= i < |ms| => Encode(ms[i]))
  }

  lemma {:induction false} ConcatAppend(a: seq<string>, b: seq<string>)
    ensures W.Concat(a + b) == W.Concat(a) + W.Concat(b)
  {
    if a == [] {
      assert a + b == b;
    } else {
      assert (a + b)[1..] == a[1..] + b;
      ConcatAppend(a[1..], b);
    }
  }

  /** Queued replies are the encoded replies, and add just those bytes. */
  lemma QueueGrows(queue: seq<string>, ms: seq<string>)
    ensures W.Concat(queue + Encoded(ms)) == W.Concat(queue) + EncodeAll(ms)
    ensures "" !in queue ==> "" !in queue + Encoded(ms)
  {
    ConcatAppend(queue, Encoded(ms));
    ConcatEncoded(ms);
  }

  lemma DueMore(due: string, a: seq<string>, b: seq<string>)
    ensures (due + EncodeAll(a)) + EncodeAll(b) == due + EncodeAll(a + b)
  {
    EncodeAllAppend(a, b);
    AppendAssoc(due, EncodeAll(a), EncodeAll(b));
  }

  /** What a read task works on: the protocol object, messages handed out, frames processed, bytes for the socket. */
  datatype Desk = Desk(me: Me, outgoing: seq<Delivery>, processed: seq<string>, due: string)

  /** One turn, its frame noted; the bytes due are first what others queued, then its answer. */
  ghost predicate OneTurn(conn: nat, d: Desk, late: seq<string>, t: Turn, q: Desk) {
    && IsTurn(conn, t) && t.before.me == d.me && t.after.me == q.me
    && d.outgoing <= q.outgoing && Posted(q.outgoing, t)
    && q.processed == d.processed + [t.frame] && q.due == d.due + EncodeAll(late + AnswerOf(t))
  }

  /** All that is queued during `turns`: before the i-th answer, what others queued up to then. */
  function Queued(late: seq<seq<string>>, turns: seq<Turn>): seq<string>
    requires |late| == |turns|
  {
    if turns == [] then []
    else
      var n := |turns| - 1;
      Queued(late[..n], turns[..n]) + (late[n] + AnswerOf(turns[n]))
  }

  ghost predicate AllTurns(conn: nat, d: Desk, late: seq<seq<string>>, turns: seq<Turn>, q: Desk) {
    && Serves(conn, d.me, turns, q.me) && AllPosted(q.outgoing, turns)
    && q.processed == d.processed + FramesIn(turns)
    && |late| == |turns| && q.due == d.due + EncodeAll(Queued(late, turns))
  }

  lemma QueuedMore(late: seq<seq<string>>, turns: seq<Turn>, more: seq<string>, t: Turn)
    requires |late| == |turns|
    ensures Queued(late + [more], turns + [t]) == Queued(late, turns) + (more + AnswerOf(t))
  {
    var n := |turns|;
    assert (late + [more])[..n] == late && (turns + [t])[..n] == turns;
    assert (late + [more])[n] == more && (turns + [t])[n] == t;
  }

  lemma OneTurnMore(conn: nat, d: Desk, late: seq<seq<string>>, turns: seq<Turn>, q: Desk,
                    more: seq<string>, t: Turn, r: Desk)
    requires AllTurns(conn, d, late, turns, q) && OneTurn(conn, q, more, t, r)
    ensures AllTurns(conn, d, late + [more], turns + [t], r)
  {
    ServesMore(conn, d.me, turns, t);
    FramesMore(turns, t);
    PostedMore(q.outgoing, r.outgoing, turns);
    AppendAssoc(d.processed, FramesIn(turns), [t.frame]);
    QueuedMore(late, turns, more, t);
    EncodeAllAppend(Queued(late, turns), more + AnswerOf(t));
    AppendAssoc(d.due, EncodeAll(Queued(late, turns)), EncodeAll(more + AnswerOf(t)));
  }

  lemma {:induction false} ConcatEncoded(ms: seq<string>)
    ensures W.Concat(Encoded(ms)) == EncodeAll(ms)
  {
    if ms != [] {
      assert Encoded(ms)[1..] == Encoded(ms[1..]);
      ConcatEncoded(ms[1..]);
    }
  }

  /** The queue after writes that take at most `room[i]` bytes each, the first short one being the last. */
  function StillQueued(queue: seq<string>, room: seq<nat>): seq<string> {
    if queue == [] then []
    else
      var count := if room == [] then 0 else Room(queue[0], room[0]);
      if count < |queue[0]| then W.AfterWrite(queue, count)
      else StillQueued(queue[1..], if room == [] then [] else room[1..])
  }

  /** What the socket takes of the oldest buffer. */
  function Room(top: string, room: nat): nat {
    if room < |top| then room else |top|
  }

  /** `queue` is what the first `i` writes have left of `first`. */
  predicate LeftOf(first: seq<string>, room: seq<nat>, i: nat, queue: seq<string>) {
    i <= |room| && StillQueued(queue, room[i..]) == StillQueued(first, room)
  }

  lemma OneWrite(first: seq<string>, queue: seq<string>, room: seq<nat>, i: nat)
    requires queue != [] && "" !in queue && i <= |room|
    ensures var count := Room(queue[0], if i == |room| then 0 else room[i]);
      if count < |queue[0]| then
        LeftOf(first, room, i, queue) ==> W.AfterWrite(queue, count) == StillQueued(first, room)
      else i < |room| && (LeftOf(first, room, i, queue) ==> LeftOf(first, room, i + 1, W.AfterWrite(queue, count)))
  {
    assert queue[0] in queue;
    if i < |room| {
      assert room[i..][0] == room[i] && room[i..][1..] == room[i + 1..];
    }
  }

  /** A socket that takes every buffer whole empties the queue. */
  lemma {:induction false} RoomForAll(queue: seq<string>, room: seq<nat>)
    requires |queue| <= |room| && forall i :: 0 <= i < |queue| ==> |queue[i]| <= room[i]
    ensures StillQueued(queue, room) == []
  {
    if queue != [] {
      RoomForAll(queue[1..], room[1..]);
    }
  }

  /** How `continueWrite` ends: the socket full, the queue refilled, or emptied. */
  datatype Ending = Short | Refilled | Emptied

  class NonBlockingConnectionHandler {
    const encdec: LineMessageEncoderDecoder
    const protocol: StompMessagingProtocolImpl
    var writeQueue: seq<string>
    var writeInterest: bool
    var closed: bool

    /** What has gone to the socket, and the frames given to the protocol. */
    var sent: string
    var processed: seq<string>

    ghost predicate Valid()
      reads this, encdec, encdec.bytes
    {
      encdec.Valid() && processed == Frames(encdec.input) && "" !in writeQueue
    }

    /** All bytes for the socket so far, gone or not. */
    ghost function Due(): string
      reads this
    {
      sent + W.Concat(writeQueue)
    }

    ghost function Seen(): Desk
      reads this, protocol, protocol.serverConnections
    {
      Desk(protocol.Own(), protocol.serverConnections.outgoing, processed, Due())
    }

    constructor (protocol: StompMessagingProtocolImpl)
      ensures Valid() && this.protocol == protocol && fresh(encdec) && fresh(encdec.bytes)
      ensures encdec.input == "" && writeQueue == [] && sent == "" && !writeInterest && !closed
    {
      this.protocol := protocol;
      encdec := new LineMessageEncoderDecoder();
      writeQueue, writeInterest, closed := [], false, false;
      sent, processed := "", [];
    }

    /**
     The task made by `continueRead`. Every frame that `buf` completes goes to
     the protocol, whether or not it wanted to terminate, and its answers go to
     the queue in the same order, among what other threads queue and the selector
     takes out meanwhile. The task stops early only if `process` throws, or at a
     byte that would make a frame longer than 2^30 bytes.
     */
    method RunReadTask(buf: string, addr: nat -> nat)
        returns (taken: nat, stuck: bool, thrown: bool, ghost late: seq<seq<string>>, ghost turns: seq<Turn>)
      requires Valid()
      modifies `processed, `writeQueue, `writeInterest, `sent
      modifies encdec, encdec.bytes, protocol, protocol.serverConnections, protocol.userManagement
      ensures Valid() && taken <= |buf| && encdec.input == old(encdec.input) + buf[..taken]
      ensures AllTurns(protocol.connectionId, old(Seen()), late, turns, Seen())
      ensures !stuck && !thrown ==> taken == |buf|
      ensures stuck ==> taken < |buf| && buf[taken] != NUL && |Rest(encdec.input)| == MAX_FRAME
      ensures thrown ==> turns != [] && turns[|turns| - 1].verdict.Crashed?
    {
      taken, stuck, thrown, late, turns := 0, false, false, [], [];
      ghost var c, input0, desk := protocol.connectionId, encdec.input, Seen();
      assert desk.due + EncodeAll(Queued([], [])) == desk.due;
      while taken < |buf|
        invariant Valid() && taken <= |buf| && !stuck && !thrown
        invariant encdec.bytes == old(encdec.bytes) || fresh(encdec.bytes)
        invariant encdec.input == input0 + buf[..taken]
        invariant AllTurns(c, desk, late, turns, Seen())
      {
        ghost var before := Seen();
        ghost var more, turn;
        stuck, thrown, more, turn := RunOneByte(buf[taken], addr(taken));
        if stuck {
          break;
        }
        TakeMore(buf, taken);
        AppendAssoc(input0, buf[..taken], [buf[taken]]);
        taken := taken + 1;
        if turn.Some? {
          OneTurnMore(c, desk, late, turns, before, more, turn.value, Seen());
          late, turns := late + [more], turns + [turn.value];
        }
        if thrown {
          break;
        }
      }
    }

    /** One turn of the task's loop. */
    method RunOneByte(b: char, addr: nat)
        returns (stuck: bool, thrown: bool, ghost late: seq<string>, ghost turn: Option<Turn>)
      requires Valid()
      modifies `processed, `writeQueue, `writeInterest, `sent
      modifies encdec, encdec.bytes, protocol, protocol.serverConnections, protocol.userManagement
      ensures Valid() && (encdec.bytes == old(encdec.bytes) || fresh(encdec.bytes))
      ensures stuck <==> b != NUL && |Rest(old(encdec.input))| == MAX_FRAME
      ensures encdec.input == if stuck then old(encdec.input) else old(encdec.input) + [b]
      ensures turn.Some? <==> b == NUL
      ensures turn.None? ==> Seen() == old(Seen())
      ensures turn.Some? ==> OneTurn(protocol.connectionId, old(Seen()), late, turn.value, Seen())
      ensures thrown <==> turn.Some? && turn.value.verdict.Crashed?
    {
      NextByte(encdec.input, b);
      stuck, thrown, late, turn := false, false, [], None;
      var r := encdec.DecodeNextByte(b);
      if r.Err? {
        stuck := true;
      } else if r.value.Some? {
        ghost var t;
        thrown, late, t := TakeFrame(r.value.value, addr);
        turn := Some(t);
      }
    }

    /** `process` on a frame, others at the queue meanwhile, and its answer into the queue. */
    method TakeFrame(frame: string, addr: nat) returns (thrown: bool, ghost late: seq<string>, ghost t: Turn)
      requires "" !in writeQueue
      modifies `processed, `writeQueue, `writeInterest, `sent
      modifies protocol, protocol.serverConnections, protocol.userManagement
      ensures t.frame == frame && OneTurn(protocol.connectionId, old(Seen()), late, t, Seen())
      ensures "" !in writeQueue && (AnswerOf(t) != [] ==> writeInterest)
      ensures thrown <==> t.verdict.Crashed?
    {
      processed := processed + [frame];
      var response;
      response, t := TakeTurn(protocol, frame, addr);
      thrown := response.Err?;
      late := QueueAnswer(if response.Ok? then response.value else None);
    }

    /** `writeQueue.add` of the answer, if there is one, with others at the queue before it. */
    method QueueAnswer(answer: Option<string>) returns (ghost late: seq<string>)
      requires "" !in writeQueue
      modifies `writeQueue, `writeInterest, `sent
      ensures Due() == old(Due()) + EncodeAll(late + if answer.Some? then [answer.value] else [])
      ensures "" !in writeQueue && (answer.Some? ==> writeInterest)
    {
      late := OthersAtQueue();
      assert late + [] == late;
      if answer.Some? {
        DueMore(old(Due()), late, [answer.value]);
        Send(answer.value);
      }
    }

    /** Other threads send to this connection, and the selector writes, or sets interest, meanwhile. */
    method OthersAtQueue() returns (ghost more: seq<string>)
      requires "" !in writeQueue
      modifies `writeQueue, `writeInterest, `sent
      ensures "" !in writeQueue && Due() == old(Due()) + EncodeAll(more)
    {
      more := OthersSend();
      writeInterest := *;
      var i, writes: nat := 0, *;
      while i < writes && writeQueue != []
        invariant "" !in writeQueue && Due() == old(Due()) + EncodeAll(more)
      {
        var room: nat := *;
        var short := WriteTop(room);
        i := i + 1;
      }
    }

    /** Other threads send to this connection. */
    method OthersSend() returns (ghost more: seq<string>)
      modifies `writeQueue
      ensures writeQueue == old(writeQueue) + Encoded(more) && (more == [] ==> writeQueue == old(writeQueue))
      ensures Due() == old(Due()) + EncodeAll(more)
      ensures "" !in old(writeQueue) ==> "" !in writeQueue
    {
      var messages: seq<string> := *;
      more := messages;
      QueueGrows(writeQueue, messages);
      AppendAssoc(sent, W.Concat(writeQueue), EncodeAll(messages));
      writeQueue := writeQueue + Encoded(messages);
    }

    method Send(msg: string)
      modifies `writeQueue, `writeInterest
      ensures writeQueue == old(writeQueue) + Encoded([msg]) && Due() == old(Due()) + EncodeAll([msg])
      ensures "" !in old(writeQueue) ==> "" !in writeQueue
      ensures writeInterest
    {
      QueueGrows(writeQueue, [msg]);
      AppendAssoc(sent, W.Concat(writeQueue), EncodeAll([msg]));
      assert Encoded([msg]) == [Encode(msg)];
      writeQueue := writeQueue + [Encode(msg)];
      writeInterest := true;
    }

    /**
     `continueWrite`: the i-th `chan.write` takes at most `room[i]` bytes, and none
     when `room` runs out; the first short write is the last. Other threads may
     queue more before every emptiness test; `more` is all they queue. No byte is
     lost, repeated or reordered. WRITE interest is dropped exactly when the queue
     is found empty twice, unless the protocol is finished: then the connection is
     closed instead.
     */
    method ContinueWrite(room: seq<nat>) returns (end: Ending, ghost more: seq<string>)
      requires Valid()
      modifies `writeQueue, `writeInterest, `closed, `sent, protocol.serverConnections
      ensures Valid() && Due() == old(Due()) + EncodeAll(more) && old(sent) <= sent
      ensures end.Emptied? ==> writeQueue == [] && sent == old(Due()) + EncodeAll(more)
      ensures !end.Emptied? ==> writeQueue != []
      ensures more == [] ==> !end.Refilled? && writeQueue == StillQueued(old(writeQueue), room)
      ensures var closes := end.Emptied? && protocol.shouldTerminate;
        && closed == (old(closed) || closes)
        && writeInterest == (old(writeInterest) && (!end.Emptied? || closes))
        && protocol.serverConnections.outgoing == old(protocol.serverConnections.outgoing)
        && protocol.serverConnections.State()
           == var t := old(protocol.serverConnections.State());
              if closes then Disconnect(t, protocol.connectionId) else t
    {
      end, more := WriteAll(room);
      if end.Short? {
        return;
      }
      ghost var late;
      late := OthersSend();
      DueMore(old(Due()), more, late);
      more := more + late;
      if writeQueue != [] {
        return Refilled, more;
      }
      if protocol.shouldTerminate {
        Close();
      } else {
        writeInterest := false;
      }
    }

    /** The loop: it ends at a short write, or when it finds the queue empty. */
    method WriteAll(room: seq<nat>) returns (end: Ending, ghost more: seq<string>)
      requires Valid()
      modifies `writeQueue, `sent
      ensures Valid() && Due() == old(Due()) + EncodeAll(more) && old(sent) <= sent
      ensures if writeQueue == [] then end.Emptied? else end.Short?
      ensures more == [] ==> writeQueue == StillQueued(old(writeQueue), room)
    {
      var i := 0;
      more := OthersSend();
      while writeQueue != []
        invariant i <= |room| && Valid()
        invariant more == [] ==> LeftOf(old(writeQueue), room, i, writeQueue)
        invariant Due() == old(Due()) + EncodeAll(more) && old(sent) <= sent
        decreases |room| - i
      {
        OneWrite(old(writeQueue), writeQueue, room, i);
        var short;
        ghost var late;
        short, late := WriteOne(if i == |room| then 0 else room[i]);
        if short {
          return Short, more;
        }
        i := i + 1;
        DueMore(old(Due()), more, late);
        more := more + late;
      }
      end := Emptied;
    }

    /** One turn of the loop, up to the next test. */
    method WriteOne(room: nat) returns (short: bool, ghost late: seq<string>)
      requires writeQueue != [] && "" !in writeQueue
      modifies `writeQueue, `sent
      ensures var count := Room(old(writeQueue[0]), room);
        && short == (count < |old(writeQueue[0])|)
        && (short ==> late == [] && writeQueue != [])
        && (late == [] ==> writeQueue == W.AfterWrite(old(writeQueue), count))
      ensures "" !in writeQueue && Due() == old(Due()) + EncodeAll(late) && old(sent) <= sent
    {
      short := WriteTop(room);
      late := [];
      assert Due() + EncodeAll(late) == Due();
      if !short {
        late := OthersSend();
      }
    }

    /** `close`: the connection leaves the shared tables, then the channel is closed. */
    method Close()
      modifies `closed, protocol.serverConnections
      ensures closed && protocol.serverConnections.outgoing == old(protocol.serverConnections.outgoing)
      ensures protocol.serverConnections.State()
           == Disconnect(old(protocol.serverConnections.State()), protocol.connectionId)
    {
      protocol.serverConnections.DisconnectUser(protocol.connectionId);
      protocol.serverConnections.DisconnectClient(protocol.connectionId);
      closed := true;
    }

    /** One turn of the loop: a write of the oldest buffer, which goes once it is empty. */
    method WriteTop(room: nat) returns (short: bool)
      requires writeQueue != [] && "" !in writeQueue
      modifies `writeQueue, `sent
      ensures var top := old(writeQueue[0]);
        var count := Room(top, room);
        && writeQueue == W.AfterWrite(old(writeQueue), count)
        && sent == old(sent) + top[..count]
        && short == (count < |top|)
      ensures "" !in writeQueue && Due() == old(Due())
    {
      var top := writeQueue[0];
      var count := Room(top, room);
      W.PartialHead(writeQueue, count);
      assert top in writeQueue;
      ghost var s := sent;
      sent := sent + top[..count];
      writeQueue := W.AfterWrite(writeQueue, count);
      assert s + (top[..count] + W.Concat(writeQueue)) == sent + W.Concat(writeQueue);
      short := count < |top|;
    }
  }

  // ---------------------------------------------------------------- client

  /** The client's `ConnectionHandler`, on the byte streams of its socket. */
  class ConnectionHandler {
    var incoming: string
    var outgoing: string

    constructor (incoming: string)
      ensures this.incoming == incoming && outgoing == ""
    {
      this.incoming, outgoing := incoming, "";
    }

    /**
     `getBytes`: the i-th `read_some` yields at most `sizes[i]` bytes, at least
     one while there are any; the end of the stream is an error.
     */
    method GetBytes(count: nat, sizes: seq<nat>) returns (ok: bool, bytes: string)
      modifies `incoming
      ensures ok <==> count <= |old(incoming)|
      ensures bytes + incoming == old(incoming)
      ensures ok ==> |bytes| == count
      ensures !ok ==> incoming == ""
    {
      bytes := "";
      var i := 0;
      while |bytes| < count
        invariant |bytes| <= count && bytes + incoming == old(incoming)
        decreases count - |bytes|
      {
        if incoming == "" {
          return false, bytes;
        }
        var want := if i < |sizes| && sizes[i] > 0 then sizes[i] else 1;
        var room := count - |bytes|;
        var most := if |incoming| < room then |incoming| else room;
        i := i + 1;
        var got := ReadSome(if want < most then want else most);
        AppendAssoc(bytes, got, incoming);
        bytes := bytes + got;
      }
      ok := true;
    }

    /** One `read_some` that yields `count` bytes. */
    method ReadSome(count: nat) returns (got: string)
      requires count <= |incoming|
      modifies `incoming
      ensures |got| == count && got + incoming == old(incoming)
    {
      got := incoming[..count];
      incoming := incoming[count..];
    }

    /** `sendBytes`: write until all is written, or stop at the error after `breaksAfter` writes. */
    method SendBytes(bytes: string, sizes: seq<nat>, breaksAfter: nat) returns (ok: bool)
      modifies `outgoing
      ensures old(outgoing) <= outgoing <= old(outgoing) + bytes
      ensures ok <==> outgoing == old(outgoing) + bytes
      ensures |bytes| <= breaksAfter ==> ok
    {
      var tmp, i := 0, 0;
      while tmp < |bytes|
        invariant i <= tmp && i <= breaksAfter
        invariant tmp <= |bytes| && outgoing == old(outgoing) + bytes[..tmp]
      {
        if i == breaksAfter {
          return false;
        }
        var want := if i < |sizes| && sizes[i] > 0 then sizes[i] else 1;
        var got := if want < |bytes| - tmp then want else |bytes| - tmp;
        i := i + 1;
        outgoing := outgoing + bytes[tmp..tmp + got];
        assert bytes[..tmp + got] == bytes[..tmp] + bytes[tmp..tmp + got];
        tmp := tmp + got;
      }
      assert bytes[..tmp] == bytes;
      ok := true;
    }

    /** `sendFrameAscii`: the frame, then the delimiter. */
    method SendFrameAscii(frame: string, sizes: seq<nat>, breaksAfter: nat) returns (ok: bool)
      modifies `outgoing
      ensures old(outgoing) <= outgoing <= old(outgoing) + Encode(frame)
      ensures ok <==> outgoing == old(outgoing) + Encode(frame)
      ensures |Encode(frame)| <= breaksAfter ==> ok
    {
      ok := SendBytes(frame, sizes, breaksAfter);
      assert old(outgoing) + Encode(frame) == old(outgoing) + frame + [NUL];
      if ok {
        ok := SendBytes([NUL], sizes, breaksAfter);
      }
    }

    /**
     `getFrameAscii`: consumes up to and including the next NUL and appends what
     precedes it. Without one it appends the whole stream and fails.
     */
    method GetFrameAscii(frame: string) returns (ok: bool, result: string)
      modifies `incoming
      ensures ok <==> NUL in old(incoming)
      ensures ok ==> exists m :: NUL !in m && result == frame + m && Encode(m) + incoming == old(incoming)
      ensures !ok ==> incoming == "" && result == frame + old(incoming)
    {
      result := frame;
      ghost var m := "";
      while true
        invariant NUL !in m && result == frame + m && m + incoming == old(incoming)
        decreases |incoming|
      {
        ghost var before := incoming;
        var got, ch := GetBytes(1, []);
        if !got {
          assert before == "";
          return false, result;
        }
        assert before == ch + incoming && ch == [before[0]];
        if ch[0] != NUL {
          result := result + ch;
          m := m + ch;
        } else {
          assert Encode(m) + incoming == old(incoming);
          return true, result;
        }
      }
    }

    /** Reading frame by frame until the stream ends yields exactly its frames. */
    method GetAllFrames() returns (frames: seq<string>)
      modifies `incoming
      ensures frames == Frames(old(incoming)) && incoming == ""
    {
      frames := [];
      while true
        invariant NulFree(frames) && EncodeAll(frames) + incoming == old(incoming)
        decreases |incoming|
      {
        ghost var before := incoming;
        var ok, frame := GetFrameAscii("");
        if !ok {
          FramesUnique(frames, before);
          return;
        }
        ghost var m :| NUL !in m && frame == "" + m && Encode(m) + incoming == before;
        assert frame == m;
        EncodeAllSnoc(frames, m);
        AppendAssoc(EncodeAll(frames), Encode(m), incoming);
        frames := frames + [frame];
      }
    }
  }
}
