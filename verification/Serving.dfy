/**
 One connection's protocol at work: the frames it was given one after another,
 with the shared tables as it found and left them each time. Between two of its
 frames other connections may have changed the tables in any way.
 */
module Serving {
  import opened Wrappers
  import opened StompText
  import opened Registry
  import opened Connections
  import opened Protocol
  import opened StompProtocol

  /** One call of `process`; `at` is where its messages start among all that were handed out. */
  datatype Turn = Turn(
    frame: string, addr: nat, before: World, sent: seq<Delivery>, broken: bool, after: World, verdict: Verdict, at: nat)

  ghost predicate IsTurn(conn: nat, t: Turn) {
    && MaySend(t.before, Cut(t.frame), t.sent, t.broken)
    && (t.after, t.verdict) == Handle(t.before, conn, Cut(t.frame), t.addr, |t.sent|, t.broken)
  }

  /** What `process` returns: nothing also if it throws. */
  function AnswerOf(t: Turn): seq<string> {
    var answer := Answer(Cut(t.frame), t.before.me, t.verdict);
    if answer.Some? then [answer.value] else []
  }

  predicate Posted(outgoing: seq<Delivery>, t: Turn) {
    t.at + |t.sent| <= |outgoing| && outgoing[t.at..t.at + |t.sent|] == t.sent
  }

  /** The protocol object passes from turn to turn unchanged; the tables need not. */
  ghost predicate Serves(conn: nat, first: Me, turns: seq<Turn>, last: Me) {
    if turns == [] then last == first
    else
      var n := |turns| - 1;
      IsTurn(conn, turns[n]) && Serves(conn, first, turns[..n], turns[n].before.me) && last == turns[n].after.me
  }

  function FramesIn(turns: seq<Turn>): seq<string> {
    seq(|turns|, i requires 0 <= i < |turns| => turns[i].frame)
  }

  function Answers(turns: seq<Turn>): seq<string> {
    if turns == [] then [] else Answers(turns[..|turns| - 1]) + AnswerOf(turns[|turns| - 1])
  }

  predicate AllPosted(outgoing: seq<Delivery>, turns: seq<Turn>) {
    forall t :: t in turns ==> Posted(outgoing, t)
  }

  lemma ServesMore(conn: nat, first: Me, turns: seq<Turn>, t: Turn)
    requires IsTurn(conn, t) && Serves(conn, first, turns, t.before.me)
    ensures Serves(conn, first, turns + [t], t.after.me)
  {
    var ts := turns + [t];
    assert ts[..|ts| - 1] == turns && ts[|ts| - 1] == t;
  }

  lemma FramesMore(turns: seq<Turn>, t: Turn)
    ensures FramesIn(turns + [t]) == FramesIn(turns) + [t.frame]
  {
  }

  lemma AnswersMore(turns: seq<Turn>, t: Turn)
    ensures Answers(turns + [t]) == Answers(turns) + AnswerOf(t)
  {
    var ts := turns + [t];
    assert ts[..|ts| - 1] == turns && ts[|ts| - 1] == t;
  }

  lemma PostedMore(outgoing: seq<Delivery>, more: seq<Delivery>, turns: seq<Turn>)
    requires AllPosted(outgoing, turns) && outgoing <= more
    ensures AllPosted(more, turns)
  {
    forall t | t in turns
      ensures Posted(more, t)
    {
      assert Posted(outgoing, t);
      assert more[t.at..t.at + |t.sent|] == outgoing[t.at..t.at + |t.sent|];
    }
  }

  /** Other threads at work on the shared objects: they may do anything but take back a message. */
  method OthersAct(connections: ConnectionsImpl, users: UserManagement)
    modifies connections, users
    ensures old(connections.outgoing) <= connections.outgoing
  {
    var more: seq<Delivery> := *;
    connections.outgoing := connections.outgoing + more;
    connections.connectionIdToHandlerMap, connections.connectionIdToUserMap := *, *;
    connections.channelToUsersMap, connections.userToChannelIdMap := *, *;
    connections.connectionIdCounter, connections.messageIdCounter := *, *;
    users.userMap := *;
  }

  /** One turn of a protocol: others may act, then `process` runs on a frame that has come in. */
  method TakeTurn(protocol: StompMessagingProtocolImpl, frame: string, addr: nat)
      returns (answer: Result<Option<string>, Failure>, ghost t: Turn)
    modifies protocol, protocol.serverConnections, protocol.userManagement
    ensures IsTurn(protocol.connectionId, t) && t.frame == frame
    ensures t.before.me == old(protocol.Own()) && t.after.me == protocol.Own()
    ensures old(protocol.serverConnections.outgoing) <= protocol.serverConnections.outgoing
    ensures Posted(protocol.serverConnections.outgoing, t)
    ensures answer.Err? <==> t.verdict.Crashed?
    ensures AnswerOf(t)
         == if answer.Ok? && answer.value.Some? then [answer.value.value] else []
  {
    OthersAct(protocol.serverConnections, protocol.userManagement);
    ghost var outgoing := protocol.serverConnections.outgoing;
    answer, t := ProcessFrame(protocol, frame, addr);
    Behind(outgoing, t.sent);
  }

  method ProcessFrame(protocol: StompMessagingProtocolImpl, frame: string, addr: nat)
      returns (answer: Result<Option<string>, Failure>, ghost t: Turn)
    modifies protocol, protocol.serverConnections, protocol.userManagement
    ensures IsTurn(protocol.connectionId, t) && t.frame == frame
    ensures t.before == old(protocol.State()) && t.after == protocol.State()
    ensures protocol.serverConnections.outgoing == old(protocol.serverConnections.outgoing) + t.sent
    ensures t.at == |old(protocol.serverConnections.outgoing)|
    ensures Returns(t, answer)
  {
    ghost var w, outgoing := protocol.State(), protocol.serverConnections.outgoing;
    ghost var ds, broken;
    answer, ds, broken := protocol.Process(frame, addr);
    ghost var (q, v) := Handle(w, protocol.connectionId, Cut(frame), addr, |ds|, broken);
    t := Turn(frame, addr, w, ds, broken, q, v, |outgoing|);
  }

  predicate Returns(t: Turn, answer: Result<Option<string>, Failure>) {
    answer == if t.verdict.Crashed? then Err(NullPointerException)
              else Ok(Answer(Cut(t.frame), t.before.me, t.verdict))
  }

  /** After `turns` the protocol object is `me`, has given `answers`, and its messages have gone out. */
  ghost predicate Ran(conn: nat, first: Me, turns: seq<Turn>, me: Me, answers: seq<string>, outgoing: seq<Delivery>) {
    Serves(conn, first, turns, me) && answers == Answers(turns) && AllPosted(outgoing, turns)
  }

  lemma RanMore(conn: nat, first: Me, turns: seq<Turn>, answers: seq<string>, outgoing: seq<Delivery>,
                t: Turn, more: seq<Delivery>)
    requires Ran(conn, first, turns, t.before.me, answers, outgoing)
    requires IsTurn(conn, t) && Posted(more, t) && outgoing <= more
    ensures Ran(conn, first, turns + [t], t.after.me, answers + AnswerOf(t), more)
    ensures FramesIn(turns + [t]) == FramesIn(turns) + [t.frame]
  {
    ServesMore(conn, first, turns, t);
    FramesMore(turns, t);
    AnswersMore(turns, t);
    PostedMore(outgoing, more, turns);
  }
}
