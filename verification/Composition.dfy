/**
 Server and shipped clients together: any number of client processes, each over
 any number of connections one after another, with frames in flight and answers
 read late. The server is the blocking one: it takes no frame once the protocol
 wants to terminate or the connection is over. Its assumption about
 subscription ids is then never violated. `LateFrameBreaks` shows that the
 reactor, which takes such frames, can be led to violate it.
 */
module Composition {
  import opened Wrappers
  import opened Text
  import opened StompText
  import opened Registry
  import opened Consistency
  import opened Protocol
  import opened IdOrigins
  import opened ClientIds
  import opened ClientFrames
  import opened Wire
  import C = Client
  import S = Sessions

  /** A client process, the ids it has asked for, and its latest connection. */
  datatype Actor = Actor(state: C.State, log: set<(string, string)>, conn: Option<nat>)

  /**
   `trace` and `events` are the server's past; `wires` the frames sent on each
   connection and not yet read; `owner` the client that opened it; `over` the
   connections that are read no more.
   */
  datatype System = System(
    trace: seq<S.Server>,
    events: seq<S.Event>,
    clients: map<nat, Actor>,
    owner: map<nat, nat>,
    wires: map<nat, seq<string>>,
    over: set<nat>)

  const BEGIN: System := System([S.START], [], map[], map[], map[], {})

  datatype Step =
    | Launch(client: nat)
    | Dial(client: nat, command: string, file: C.NamesAndEvents, after: C.State)
    | Enter(client: nat, command: string, file: C.NamesAndEvents, after: C.State)
    | Hear(client: nat, answer: string, after: C.State)
    | Serve(conn: nat, addr: nat, sent: seq<Delivery>, broken: bool)
    | HangUp(conn: nat)
    | Leave(conn: nat)

  function Now(s: System): S.Server
    requires s.trace != []
  {
    s.trace[|s.trace| - 1]
  }

  function Read(s: System, step: Step): S.Event
    requires step.Serve? && step.conn in s.wires && s.wires[step.conn] != []
  {
    S.Frame(step.conn, Cut(s.wires[step.conn][0]), step.addr, step.sent, step.broken)
  }

  /** The deed of a typed line, whatever its words mean now. */
  function DeedBy(a: Actor, command: string): C.Deed {
    C.DeedOf(a.state.ready, command)
  }

  /**
   Frames are NUL-free: with a NUL inside one would reach the server as several.
   `HangUp` closes a connection with nothing of it left to run, `Leave` ends its
   thread without closing it, as `run` does.
   */
  ghost predicate CanStep(s: System, step: Step)
    requires s.trace != []
  {
    match step
    case Launch(k) => k !in s.clients
    case Dial(k, command, file, after) =>
      && k in s.clients && NL !in command && DeedBy(s.clients[k], command).Login?
      && Follows(s.clients[k].state, Typed(command, true, file), after)
      && NulFree(C.FramesFor(s.clients[k].state, DeedBy(s.clients[k], command), true, file))
    case Enter(k, command, file, after) =>
      && k in s.clients && NL !in command
      && Follows(s.clients[k].state, Typed(command, false, file), after)
      && NulFree(C.FramesFor(s.clients[k].state, DeedBy(s.clients[k], command), false, file))
    case Hear(k, answer, after) =>
      k in s.clients && Follows(s.clients[k].state, Answered(answer), after)
    case Serve(conn, _, _, _) =>
      && conn in s.wires && s.wires[conn] != [] && S.Can(Now(s), Read(s, step))
      && conn !in s.over && !Now(s).live[conn].terminate
    case HangUp(conn) => S.Can(Now(s), S.Close(conn))
    case Leave(conn) => true
  }

  ghost function ServerDoes(s: System, e: S.Event): System
    requires s.trace != [] && S.Can(Now(s), e)
  {
    s.(trace := s.trace + [S.Do(Now(s), e)], events := s.events + [e])
  }

  /** Puts the frames of a command on the client's connection, if it has one. */
  function Queued(s: System, conn: Option<nat>, frames: seq<string>): System {
    if conn.None? || conn.value !in s.wires then s
    else s.(wires := s.wires[conn.value := s.wires[conn.value] + frames])
  }

  /** The connection that frames go out on: none once an ERROR has closed the socket. */
  function LineOf(a: Actor): Option<nat> {
    if a.state.connected then a.conn else None
  }

  /** Client `k` opens a connection and puts frames on it. */
  ghost function Dialled(s: System, k: nat, after: C.State, frames: seq<string>): System
    requires s.trace != [] && k in s.clients
  {
    var conn := Now(s).tables.nextConn;
    ServerDoes(s, S.Open).(
      clients := s.clients[k := Actor(after, s.clients[k].log, Some(conn))],
      owner := s.owner[conn := k],
      wires := s.wires[conn := frames])
  }

  ghost function DoStep(s: System, step: Step): System
    requires s.trace != [] && CanStep(s, step)
  {
    match step
    case Launch(k) => s.(clients := s.clients[k := Actor(C.NEW_CLIENT, {}, None)])
    case Dial(k, command, file, after) =>
      var a := s.clients[k];
      Dialled(s, k, after, C.FramesFor(a.state, DeedBy(a, command), true, file))
    case Enter(k, command, file, after) =>
      var a := s.clients[k];
      var deed := DeedBy(a, command);
      Queued(s, LineOf(a), C.SendOrder(C.FramesFor(a.state, deed, false, file))).(
        clients := s.clients[k := Actor(after, a.log + AskedBy(a.state, deed), a.conn)])
    case Hear(k, answer, after) => s.(clients := s.clients[k := s.clients[k].(state := after)])
    case Serve(conn, _, _, _) =>
      ServerDoes(s, Read(s, step)).(wires := s.wires[conn := s.wires[conn][1..]])
    case HangUp(conn) => ServerDoes(s, S.Close(conn)).(over := s.over + {conn})
    case Leave(conn) => s.(over := s.over + {conn})
  }

  // ---------------------------------------------------------------- invariant

  /** The ids asked for by the client that opened `conn`. */
  function LogOf(s: System, conn: nat): set<(string, string)> {
    if conn in s.owner && s.owner[conn] in s.clients then s.clients[s.owner[conn]].log else {}
  }

  /** Each id the server has for `user` is for a channel the log binds it to. */
  predicate Bound(log: set<(string, string)>, t: Tables, user: string) {
    forall id :: id in Ids(t, user) ==> BoundTo(log, Ids(t, user)[id], id)
  }

  predicate BoundTo(log: set<(string, string)>, channel: string, id: string) {
    exists p :: p in log && p.1 == id && ChannelOf(JavaTrim(p.0)) == channel
  }

  predicate WireFromLog(log: set<(string, string)>, wire: seq<string>) {
    forall f :: f in wire ==> FromLog(log, Cut(f))
  }

  /** What a served connection's protocol object, tables and wire have to do with its client. */
  predicate Session(log: set<(string, string)>, me: Me, t: Tables, wire: seq<string>) {
    me.terminate || match me.user
      case None => wire != [] && Connects(Cut(wire[0]))
      case Some(u) => Bound(log, t, u.text)
  }

  predicate ConnInv(s: System, conn: nat)
    requires s.trace != []
  {
    && (conn in s.owner ==> conn in s.wires && s.owner[conn] in s.clients && conn < Now(s).tables.nextConn)
    && (conn in s.wires ==> WireFromLog(LogOf(s, conn), s.wires[conn]))
    && (conn in Now(s).live ==>
          && conn in s.owner && conn in s.wires
          && (conn !in s.over ==>
                && Session(LogOf(s, conn), Now(s).live[conn], Now(s).tables, s.wires[conn])
                && (!Now(s).live[conn].terminate ==> conn in Now(s).tables.handlers)))
  }

  predicate ClientInv(s: System, k: nat) {
    k in s.clients ==>
      && IdsBound(s.clients[k].state, s.clients[k].log)
      && (s.clients[k].conn.Some? ==> s.clients[k].conn.value in s.owner && s.owner[s.clients[k].conn.value] == k)
  }

  ghost predicate SystemInv(s: System) {
    && S.IsRun(s.trace, s.events) && Consistent(Now(s).tables) && S.Sound(Now(s))
    && (forall conn: nat :: ConnInv(s, conn))
    && (forall k: nat :: ClientInv(s, k))
  }

  lemma RunGrows(s: System, e: S.Event)
    requires S.IsRun(s.trace, s.events) && Consistent(Now(s).tables) && S.Sound(Now(s))
    requires S.Can(Now(s), e) && S.WellBehaved(Now(s), e)
    ensures var q := ServerDoes(s, e);
      && S.IsRun(q.trace, q.events) && Now(q) == S.Do(Now(s), e)
      && Consistent(Now(q).tables) && S.Sound(Now(q))
  {
    S.StepKeepsConsistent(Now(s), e);
    S.StepKeepsSound(Now(s), e);
    S.AnyRunMore(s.trace, s.events, e);
  }

  // ---------------------------------------------------------------- the server serves a frame

  /** A frame from the wire meets the server's assumption about its clients. */
  lemma WireBehaves(s: System, step: Step)
    requires SystemInv(s) && step.Serve? && CanStep(s, step)
    ensures S.WellBehaved(Now(s), Read(s, step))
  {
    var e := Read(s, step);
    var w, f, conn := Now(s), e.parts, e.conn;
    assert ConnInv(s, conn) && S.KnowsItself(w, conn);
    assert ClientInv(s, s.owner[conn]);
    assert FromLog(LogOf(s, conn), Cut(s.wires[conn][0]));
    if S.Subscribes(f) {
      assert w.live[conn].user.Some?;
      var u := w.live[conn].user.value;
      assert Holds(w.tables, conn, u);
      SubscribeBehaves(w.tables, LogOf(s, conn), f, u.text);
    }
  }

  lemma SubscribeBehaves(t: Tables, log: set<(string, string)>, f: Parts, u: string)
    requires Consistent(t) && OneChannelEach(log) && Bound(log, t, u)
    requires S.Subscribes(f) && FromLog(log, f)
    ensures IsMember(t, Destination(f), u) || HeadersIn(f)["id"] !in Ids(t, u)
  {
    var p :| p in log && SubscribesTo(f, p.0, p.1);
    var id := HeadersIn(f)["id"];
    if id in Ids(t, u) {
      assert BoundTo(log, Ids(t, u)[id], id);
      assert Listed(t, u, Destination(f), id);
      assert Subscribed(t, u, Destination(f), id);
    }
  }

  lemma BoundAfter(log: set<(string, string)>, w: World, conn: nat, f: Parts, addr: nat, sent: nat, broken: bool,
                   v: string)
    requires Bound(log, w.tables, v)
    requires w.me.user.Some? && w.me.user.value.text == v ==> FromLog(log, f)
    ensures Bound(log, Handle(w, conn, f, addr, sent, broken).0.tables, v)
  {
    var q := Handle(w, conn, f, addr, sent, broken).0.tables;
    forall id | id in Ids(q, v)
      ensures BoundTo(log, Ids(q, v)[id], id)
    {
      FrameIds(w, conn, f, addr, sent, broken, v, id);
      if id in Ids(w.tables, v) && Ids(w.tables, v)[id] == Ids(q, v)[id] {
        assert BoundTo(log, Ids(w.tables, v)[id], id);
      } else {
        var p :| p in log && SubscribesTo(f, p.0, p.1);
        assert p.1 == id && ChannelOf(JavaTrim(p.0)) == Ids(q, v)[id];
      }
    }
  }

  /** A login is never exchanged for another, only lost. */
  lemma UserStays(w: World, conn: nat, f: Parts, addr: nat, sent: nat, broken: bool)
    requires S.Member(w, conn) && w.me.user.Some?
    ensures var q := Handle(w, conn, f, addr, sent, broken).0;
      q.me.terminate || q.me.user == w.me.user
  {
  }

  /** A fresh login has no subscriptions, whoever had the name before. */
  lemma ConnectStartsEmpty(w: World, conn: nat, f: Parts, addr: nat, sent: nat, broken: bool)
    requires Consistent(w.tables) && S.Member(w, conn) && w.me.user.None? && Connects(f)
    ensures var q := Handle(w, conn, f, addr, sent, broken).0;
      q.me.terminate || (q.me.user.Some? && Ids(q.tables, q.me.user.value.text) == map[])
  {
    var h := HeadersIn(f);
    if "login" in h && MayLogIn(w.tables, conn, h["login"]) {
      assert h["login"] !in w.tables.subs;
    }
  }

  lemma OwnSession(log: set<(string, string)>, w: World, conn: nat, addr: nat, sent: nat, broken: bool,
                   wire: seq<string>)
    requires Consistent(w.tables) && S.Member(w, conn) && wire != [] && WireFromLog(log, wire)
    requires Session(log, w.me, w.tables, wire)
    ensures var q := Handle(w, conn, Cut(wire[0]), addr, sent, broken).0;
      WireFromLog(log, wire[1..]) && (!w.me.terminate ==> Session(log, q.me, q.tables, wire[1..]))
  {
    var f := Cut(wire[0]);
    assert FromLog(log, Cut(wire[0]));
    if w.me.terminate {
      return;
    }
    if w.me.user.None? {
      ConnectStartsEmpty(w, conn, f, addr, sent, broken);
    } else {
      UserStays(w, conn, f, addr, sent, broken);
      BoundAfter(log, w, conn, f, addr, sent, broken, w.me.user.value.text);
    }
  }

  lemma OtherSession(s: System, step: Step, other: nat)
    requires SystemInv(s) && step.Serve? && CanStep(s, step)
    requires other != step.conn && other in Now(s).live && other !in s.over
    ensures other in s.wires
    ensures Session(LogOf(s, other), Now(s).live[other], S.Do(Now(s), Read(s, step)).tables, s.wires[other])
  {
    var w, e := Now(s), Read(s, step);
    assert ConnInv(s, other) && S.KnowsItself(w, other);
    assert ConnInv(s, step.conn) && S.KnowsItself(w, step.conn);
    var me := w.live[other];
    if !me.terminate && me.user.Some? {
      var v := me.user.value.text;
      BoundAfter(LogOf(s, other), S.View(w, step.conn), step.conn, e.parts, e.addr, |e.sent|, e.broken, v);
    }
  }

  lemma ServedConn(s: System, step: Step)
    requires SystemInv(s) && step.Serve? && CanStep(s, step)
    ensures ConnInv(DoStep(s, step), step.conn)
  {
    var q, e, w := DoStep(s, step), Read(s, step), Now(s);
    var v := S.View(w, step.conn);
    assert Now(q) == S.Do(w, e);
    assert ConnInv(s, step.conn) && S.KnowsItself(w, step.conn);
    S.OwnLogin(v, step.conn, e.parts, e.addr, |e.sent|, e.broken);
    S.HandleCounts(v, step.conn, e.parts, e.addr, |e.sent|, e.broken);
    OwnSession(LogOf(s, step.conn), v, step.conn, step.addr, |step.sent|, step.broken, s.wires[step.conn]);
  }

  lemma UnservedConn(s: System, step: Step, conn: nat)
    requires SystemInv(s) && step.Serve? && CanStep(s, step) && conn != step.conn
    ensures ConnInv(DoStep(s, step), conn)
  {
    assert Now(DoStep(s, step)) == S.Do(Now(s), Read(s, step));
    assert ConnInv(s, conn);
    S.StepSpares(Now(s), Read(s, step), conn);
    if conn in Now(s).live && conn !in s.over {
      OtherSession(s, step, conn);
    }
  }

  lemma ServeKeeps(s: System, step: Step)
    requires SystemInv(s) && step.Serve? && CanStep(s, step)
    ensures SystemInv(DoStep(s, step))
  {
    var q := DoStep(s, step);
    WireBehaves(s, step);
    RunGrows(s, Read(s, step));
    forall conn: nat
      ensures ConnInv(q, conn)
    {
      if conn == step.conn {
        ServedConn(s, step);
      } else {
        UnservedConn(s, step, conn);
      }
    }
    forall k: nat
      ensures ClientInv(q, k)
    {
      assert ClientInv(s, k);
    }
  }

  // ---------------------------------------------------------------- the other steps

  lemma DisconnectBound(log: set<(string, string)>, t: Tables, conn: nat, v: string)
    requires Bound(log, t, v)
    ensures Bound(log, Disconnect(t, conn), v)
  {
    var q := Disconnect(t, conn);
    forall id | id in Ids(q, v)
      ensures BoundTo(log, Ids(q, v)[id], id)
    {
      assert BoundTo(log, Ids(t, v)[id], id);
    }
  }

  lemma HangUpKeeps(s: System, conn: nat)
    requires SystemInv(s) && CanStep(s, HangUp(conn))
    ensures SystemInv(DoStep(s, HangUp(conn)))
  {
    var q, w := DoStep(s, HangUp(conn)), Now(s);
    RunGrows(s, S.Close(conn));
    forall other: nat
      ensures ConnInv(q, other)
    {
      assert ConnInv(s, other);
      if other != conn && other in w.live {
        S.StepSpares(w, S.Close(conn), other);
      }
      if other != conn && other in w.live && other !in s.over && w.live[other].user.Some? && !w.live[other].terminate {
        DisconnectBound(LogOf(s, other), w.tables, conn, w.live[other].user.value.text);
      }
    }
    forall k: nat
      ensures ClientInv(q, k)
    {
      assert ClientInv(s, k);
    }
  }

  lemma LeaveKeeps(s: System, conn: nat)
    requires SystemInv(s)
    ensures SystemInv(DoStep(s, Leave(conn)))
  {
    var q := DoStep(s, Leave(conn));
    forall other: nat
      ensures ConnInv(q, other)
    {
      assert ConnInv(s, other);
    }
    forall k: nat
      ensures ClientInv(q, k)
    {
      assert ClientInv(s, k);
    }
  }

  lemma LogGrows(log: set<(string, string)>, more: set<(string, string)>, me: Me, t: Tables,
                 wire: seq<string>, extra: seq<string>)
    requires log <= more && WireFromLog(log, wire) && WireFromLog(more, extra)
    ensures WireFromLog(more, wire + extra)
    ensures Session(log, me, t, wire) ==> Session(more, me, t, wire + extra)
  {
    forall f | f in wire
      ensures FromLog(more, Cut(f))
    {
      assert FromLog(log, Cut(f));
    }
    if Session(log, me, t, wire) && me.user.Some? && !me.terminate {
      var v := me.user.value.text;
      forall id | id in Ids(t, v)
        ensures BoundTo(more, Ids(t, v)[id], id)
      {
        assert BoundTo(log, Ids(t, v)[id], id);
      }
    }
  }

  lemma LaunchKeeps(s: System, k: nat)
    requires SystemInv(s) && CanStep(s, Launch(k))
    ensures SystemInv(DoStep(s, Launch(k)))
  {
    var q := DoStep(s, Launch(k));
    forall conn: nat
      ensures ConnInv(q, conn)
    {
      assert ConnInv(s, conn);
    }
    forall j: nat
      ensures ClientInv(q, j)
    {
      assert ClientInv(s, j);
    }
  }

  lemma HearKeeps(s: System, k: nat, answer: string, after: C.State)
    requires SystemInv(s) && CanStep(s, Hear(k, answer, after))
    ensures SystemInv(DoStep(s, Hear(k, answer, after)))
  {
    var q := DoStep(s, Hear(k, answer, after));
    assert ClientInv(s, k);
    AnsweredKeeps(s.clients[k].state, answer, after, s.clients[k].log);
    forall conn: nat
      ensures ConnInv(q, conn)
    {
      assert ConnInv(s, conn);
    }
    forall j: nat
      ensures ClientInv(q, j)
    {
      assert ClientInv(s, j);
    }
  }

  lemma OpeningKeepsSession(log: set<(string, string)>, me: Me, t: Tables, wire: seq<string>)
    requires Session(log, me, t, wire)
    ensures Session(log, me, ConnectHandler(t), wire)
  {
    if me.user.Some? && !me.terminate {
      var v := me.user.value.text;
      forall id | id in Ids(ConnectHandler(t), v)
        ensures BoundTo(log, Ids(ConnectHandler(t), v)[id], id)
      {
        assert BoundTo(log, Ids(t, v)[id], id);
      }
    }
  }

  /** A new connection starts with the CONNECT frame of the login that opened it. */
  lemma DialledSession(log: set<(string, string)>, a: C.State, deed: C.Deed, file: C.NamesAndEvents, t: Tables)
    requires deed.Login?
    ensures var wire := C.FramesFor(a, deed, true, file);
      WireFromLog(log, wire) && Session(log, NEW_PROTOCOL, t, wire)
  {
    ConnectConnects(deed.user, deed.password);
  }

  lemma DialledConn(s: System, k: nat, command: string, file: C.NamesAndEvents, after: C.State, conn: nat)
    requires SystemInv(s) && CanStep(s, Dial(k, command, file, after))
    ensures ConnInv(DoStep(s, Dial(k, command, file, after)), conn)
  {
    var q, w, a := DoStep(s, Dial(k, command, file, after)), Now(s), s.clients[k];
    assert Now(q) == S.Do(w, S.Open);
    if conn == w.tables.nextConn {
      assert ConnInv(s, conn) && S.KnowsItself(w, conn);
      DialledSession(a.log, a.state, DeedBy(a, command), file, Now(q).tables);
    } else {
      DialSpares(s, k, after, C.FramesFor(a.state, DeedBy(a, command), true, file), conn);
      SparedConn(s, q, conn);
    }
  }

  /** After a connection was opened, nothing about `conn` is different. */
  predicate Spared(s: System, q: System, conn: nat)
    requires s.trace != [] && q.trace != []
  {
    && Now(q) == S.Do(Now(s), S.Open) && conn != Now(s).tables.nextConn && LogOf(q, conn) == LogOf(s, conn)
    && s.clients.Keys <= q.clients.Keys && q.over == s.over
    && (conn in q.owner <==> conn in s.owner) && (conn in s.owner ==> q.owner[conn] == s.owner[conn])
    && (conn in q.wires <==> conn in s.wires) && (conn in s.wires ==> q.wires[conn] == s.wires[conn])
  }

  lemma DialSpares(s: System, k: nat, after: C.State, frames: seq<string>, conn: nat)
    requires s.trace != [] && k in s.clients && conn != Now(s).tables.nextConn
    ensures Spared(s, Dialled(s, k, after, frames), conn)
  {
  }

  /** A connection that was there before is as it was. */
  lemma SparedConn(s: System, q: System, conn: nat)
    requires SystemInv(s) && q.trace != [] && Spared(s, q, conn)
    ensures ConnInv(q, conn)
  {
    var w := Now(s);
    assert ConnInv(s, conn);
    if conn in w.live && conn !in s.over {
      OpeningKeepsSession(LogOf(s, conn), w.live[conn], w.tables, s.wires[conn]);
    }
  }

  lemma DialKeeps(s: System, k: nat, command: string, file: C.NamesAndEvents, after: C.State)
    requires SystemInv(s) && CanStep(s, Dial(k, command, file, after))
    ensures SystemInv(DoStep(s, Dial(k, command, file, after)))
  {
    var q, a := DoStep(s, Dial(k, command, file, after)), s.clients[k];
    RunGrows(s, S.Open);
    forall conn: nat
      ensures ConnInv(q, conn)
    {
      DialledConn(s, k, command, file, after, conn);
    }
    DialledBound(s, k, command, file, after);
    forall j: nat
      ensures ClientInv(q, j)
    {
      DialledClient(s, k, after, C.FramesFor(a.state, DeedBy(a, command), true, file), j);
    }
  }

  lemma DialledBound(s: System, k: nat, command: string, file: C.NamesAndEvents, after: C.State)
    requires SystemInv(s) && CanStep(s, Dial(k, command, file, after))
    ensures IdsBound(after, s.clients[k].log)
  {
    var a := s.clients[k];
    assert ClientInv(s, k);
    TypedKeeps(a.state, command, true, file, after, a.log);
    assert a.log + {} == a.log;
  }

  lemma DialledClient(s: System, k: nat, after: C.State, frames: seq<string>, j: nat)
    requires SystemInv(s) && k in s.clients && IdsBound(after, s.clients[k].log)
    ensures ClientInv(Dialled(s, k, after, frames), j)
  {
    assert ClientInv(s, j);
    if j in s.clients && s.clients[j].conn.Some? {
      assert ConnInv(s, s.clients[j].conn.value);
    }
  }

  lemma EnteredWire(s: System, k: nat, command: string, file: C.NamesAndEvents)
    requires SystemInv(s) && k in s.clients && NL !in command
    ensures var a := s.clients[k];
      var deed := DeedBy(a, command);
      WireFromLog(a.log + AskedBy(a.state, deed), C.SendOrder(C.FramesFor(a.state, deed, false, file)))
  {
    var a := s.clients[k];
    var deed := DeedBy(a, command);
    assert ClientInv(s, k);
    if deed.Join? {
      JoinedChannelIsLine(a.state.ready, command);
    }
    forall f | f in C.SendOrder(C.FramesFor(a.state, deed, false, file))
      ensures FromLog(a.log + AskedBy(a.state, deed), Cut(f))
    {
      DeedFromLog(a.state, deed, file, a.log, f);
    }
  }

  lemma EnteredOther(s: System, k: nat, command: string, file: C.NamesAndEvents, after: C.State, conn: nat)
    requires SystemInv(s) && CanStep(s, Enter(k, command, file, after))
    requires conn !in s.owner || s.owner[conn] != k
    ensures ConnInv(DoStep(s, Enter(k, command, file, after)), conn)
  {
    var q := DoStep(s, Enter(k, command, file, after));
    assert ClientInv(s, k) && ConnInv(s, conn);
    assert LogOf(q, conn) == LogOf(s, conn);
  }

  lemma GrownConn(s: System, q: System, conn: nat, frames: seq<string>)
    requires SystemInv(s) && conn in s.owner && q.owner == s.owner && q.trace == s.trace && q.over == s.over
    requires s.owner[conn] in q.clients && LogOf(s, conn) <= LogOf(q, conn) && WireFromLog(LogOf(q, conn), frames)
    requires conn in s.wires && conn in q.wires && q.wires[conn] == s.wires[conn] + frames
    ensures ConnInv(q, conn)
  {
    assert ConnInv(s, conn);
    var me := if conn in Now(s).live then Now(s).live[conn] else NEW_PROTOCOL;
    LogGrows(LogOf(s, conn), LogOf(q, conn), me, Now(s).tables, s.wires[conn], frames);
  }

  lemma EnteredOwn(s: System, k: nat, command: string, file: C.NamesAndEvents, after: C.State, conn: nat)
    requires SystemInv(s) && CanStep(s, Enter(k, command, file, after))
    requires conn in s.owner && s.owner[conn] == k
    ensures ConnInv(DoStep(s, Enter(k, command, file, after)), conn)
  {
    var q, a := DoStep(s, Enter(k, command, file, after)), s.clients[k];
    var all := C.SendOrder(C.FramesFor(a.state, DeedBy(a, command), false, file));
    var more := if LineOf(a) == Some(conn) then all else [];
    assert conn in s.wires by {
      assert ConnInv(s, conn);
    }
    EnteredWire(s, k, command, file);
    EnterGrows(s, k, command, file, after, conn);
    GrownConn(s, q, conn, more);
  }

  lemma EnterGrows(s: System, k: nat, command: string, file: C.NamesAndEvents, after: C.State, conn: nat)
    requires s.trace != [] && CanStep(s, Enter(k, command, file, after))
    requires conn in s.owner && s.owner[conn] == k && conn in s.wires
    ensures var q, a := DoStep(s, Enter(k, command, file, after)), s.clients[k];
      var all := C.SendOrder(C.FramesFor(a.state, DeedBy(a, command), false, file));
      && q.owner == s.owner && q.trace == s.trace && q.over == s.over && k in q.clients
      && LogOf(s, conn) == a.log && LogOf(q, conn) == a.log + AskedBy(a.state, DeedBy(a, command))
      && conn in q.wires && q.wires[conn] == s.wires[conn] + if LineOf(a) == Some(conn) then all else []
  {
  }

  lemma EnterKeeps(s: System, k: nat, command: string, file: C.NamesAndEvents, after: C.State)
    requires SystemInv(s) && CanStep(s, Enter(k, command, file, after))
    ensures SystemInv(DoStep(s, Enter(k, command, file, after)))
  {
    var q, a := DoStep(s, Enter(k, command, file, after)), s.clients[k];
    assert ClientInv(s, k);
    TypedKeeps(a.state, command, false, file, after, a.log);
    forall conn: nat
      ensures ConnInv(q, conn)
    {
      if conn in s.owner && s.owner[conn] == k {
        EnteredOwn(s, k, command, file, after, conn);
      } else {
        EnteredOther(s, k, command, file, after, conn);
      }
    }
    forall j: nat
      ensures ClientInv(q, j)
    {
      assert ClientInv(s, j);
    }
  }

  lemma StepKeeps(s: System, step: Step)
    requires SystemInv(s) && CanStep(s, step)
    ensures SystemInv(DoStep(s, step))
  {
    match step
    case Launch(k) => LaunchKeeps(s, k);
    case Dial(k, command, file, after) => DialKeeps(s, k, command, file, after);
    case Enter(k, command, file, after) => EnterKeeps(s, k, command, file, after);
    case Hear(k, answer, after) => HearKeeps(s, k, answer, after);
    case Serve(_, _, _, _) => ServeKeeps(s, step);
    case HangUp(conn) => HangUpKeeps(s, conn);
    case Leave(conn) => LeaveKeeps(s, conn);
  }

  // ---------------------------------------------------------------- the reactor's late frames

  lemma LogoutPrinted(receipt: string)
    ensures C.DisconnectFrame(receipt) == Printed("DISCONNECT", ["receipt" + ":" + receipt], "")
  {
    var h := "receipt" + ":" + receipt;
    assert ["DISCONNECT", h][1..] == [h] && ["DISCONNECT"] + [h] == ["DISCONNECT", h];
    assert Join(["DISCONNECT", h], NL) == "DISCONNECT" + "\n" + h;
  }

  lemma LogoutCut(receipt: string)
    requires NL !in receipt
    ensures Cut(C.DisconnectFrame(receipt)) == Parts("DISCONNECT", Some(["receipt" + ":" + receipt]), Some(""))
  {
    LogoutPrinted(receipt);
    CutOfPrinted("DISCONNECT", ["receipt" + ":" + receipt], "");
  }

  lemma LogoutArrives(receipt: nat)
    ensures var f := Cut(C.DisconnectFrame(NatText(receipt)));
      IsCommand(f) && CommandIn(f) == DISCONNECT && "receipt" in HeadersIn(f)
  {
    DigitsTrimmed(receipt);
    LogoutCut(NatText(receipt));
    EntryAdds([], ("receipt", NatText(receipt)));
    var h := "receipt" + ":" + NatText(receipt);
    assert [] + [h] == [h];
  }

  lemma JoinArrives(channel: string, n: nat, receipt: nat)
    requires NL !in channel
    ensures var f := Cut(SubscribeFrame(channel, NatText(n), NatText(receipt)));
      S.Subscribes(f) && Destination(f) == ChannelOf(JavaTrim(channel))
  {
    DigitsTrimmed(n);
    DigitsTrimmed(receipt);
    SubscribeCut(channel, NatText(n), NatText(receipt));
    SubscribeFromLog({(channel, NatText(n))}, channel, n, receipt);
  }

  lemma LateFrames(s: S.Server, conn: nat, d: Parts, e: Parts)
    requires Consistent(s.tables) && conn in s.live
    requires IsCommand(d) && CommandIn(d) == DISCONNECT && "receipt" in HeadersIn(d)
    requires S.Subscribes(e) && Destination(e) !in Disconnect(s.tables, conn).channels
    ensures var x, y := S.Frame(conn, d, 0, [], false), S.Frame(conn, e, 0, [], false);
      && S.Can(s, x) && S.Can(S.Do(s, x), y)
      && Consistent(S.Do(s, x).tables) && !Consistent(S.Do(S.Do(s, x), y).tables)
  {
    DisconnectKeeps(s.tables, conn);
    S.SubscribeAfterDisconnect(s, S.Frame(conn, d, 0, [], false), S.Frame(conn, e, 0, [], false));
  }

  /**
   A user types `logout` and then `join` before the receipt is in. A server that
   runs the second frame all the same ends up with a channel nobody is in.
   */
  lemma LateFrameBreaks(s: S.Server, conn: nat, receipt: nat, channel: string, n: nat)
    requires Consistent(s.tables) && conn in s.live && NL !in channel
    requires ChannelOf(JavaTrim(channel)) !in Disconnect(s.tables, conn).channels
    ensures var d := S.Frame(conn, Cut(C.DisconnectFrame(NatText(receipt))), 0, [], false);
      var e := S.Frame(conn, Cut(SubscribeFrame(channel, NatText(n), NatText(receipt + 1))), 0, [], false);
      && S.Can(s, d) && S.Can(S.Do(s, d), e)
      && Consistent(S.Do(s, d).tables) && !Consistent(S.Do(S.Do(s, d), e).tables)
  {
    LogoutArrives(receipt);
    JoinArrives(channel, n, receipt + 1);
    LateFrames(s, conn, Cut(C.DisconnectFrame(NatText(receipt))),
      Cut(SubscribeFrame(channel, NatText(n), NatText(receipt + 1))));
  }

  // ---------------------------------------------------------------- whole runs

  ghost predicate IsHistory(states: seq<System>, steps: seq<Step>) {
    && |states| == |steps| + 1 && states[0] == BEGIN
    && forall i :: 0 <= i < |steps| ==>
         states[i].trace != [] && CanStep(states[i], steps[i]) && states[i + 1] == DoStep(states[i], steps[i])
  }

  lemma {:induction false} HistoryKeeps(states: seq<System>, steps: seq<Step>, i: nat)
    requires IsHistory(states, steps) && i < |states|
    ensures SystemInv(states[i])
  {
    if i == 0 {
      assert Now(BEGIN) == S.START;
      S.RunKeepsConsistent([S.START], [], 0);
      S.RunKeepsSound([S.START], [], 0);
    } else {
      HistoryKeeps(states, steps, i - 1);
      StepKeeps(states[i - 1], steps[i - 1]);
    }
  }

  /**
   With the shipped client at the other end of every connection, what the server
   does is always a run of well-behaved clients, and its indexes stay inverse.
   */
  lemma ClientsDischargeAssumption(states: seq<System>, steps: seq<Step>, i: nat, u: string, c: string, id: string)
    requires IsHistory(states, steps) && i < |states|
    ensures var s := states[i];
      && s.trace != [] && S.IsRun(s.trace, s.events)
      && (Subscribed(Now(s).tables, u, c, id) <==> Listed(Now(s).tables, u, c, id))
  {
    HistoryKeeps(states, steps, i);
    var s := states[i];
    S.TablesAgree(s.trace, s.events, |s.trace| - 1, u, c, id);
  }
}
