/**
 The server as a whole: any number of connections open, send frames and close,
 in any order. One frame is one step. The blocking server takes no frame once
 the protocol wants to terminate; the reactor has no such test, and also runs
 the frames it had read when it closed a connection, on the protocol object as
 it was. Frames are therefore possible at any time here, and what they must not
 do is said by `Timely` and `IdsFresh`.
 */
module Sessions {
  import opened Wrappers
  import opened Text
  import opened StompText
  import opened Registry
  import opened Consistency
  import opened Protocol

  /** `live` holds the protocol object of each connection ever opened. */
  datatype Server = Server(tables: Tables, passwords: map<string, string>, live: map<nat, Me>)

  /** `broken`: the frame's `send` threw after the messages in `sent`. */
  datatype Event =
    | Open
    | Frame(conn: nat, parts: Parts, addr: nat, sent: seq<Delivery>, broken: bool)
    | Close(conn: nat)

  const START: Server := Server(NO_TABLES, map[], map[])

  function View(s: Server, conn: nat): World
    requires conn in s.live
  {
    World(s.tables, s.passwords, s.live[conn])
  }

  ghost predicate Can(s: Server, e: Event) {
    match e
    case Open => true
    case Frame(conn, f, _, ds, broken) => conn in s.live && MaySend(View(s, conn), f, ds, broken)
    case Close(conn) => conn in s.live
  }

  function Verdict(s: Server, e: Event): Verdict
    requires e.Frame? && e.conn in s.live
  {
    Handle(View(s, e.conn), e.conn, e.parts, e.addr, |e.sent|, e.broken).1
  }

  /** Closing takes the connection out of the tables; its protocol object stays as it is. */
  function Do(s: Server, e: Event): Server
    requires Can(s, e)
  {
    match e
    case Open =>
      s.(tables := ConnectHandler(s.tables), live := s.live[s.tables.nextConn := NEW_PROTOCOL])
    case Frame(conn, f, addr, ds, broken) =>
      var w := Handle(View(s, conn), conn, f, addr, |ds|, broken).0;
      Server(w.tables, w.passwords, s.live[conn := w.me])
    case Close(conn) =>
      s.(tables := Disconnect(s.tables, conn))
  }

  // ---------------------------------------------------------------- what frames must not do

  predicate Subscribes(f: Parts) {
    HasDestination(f) && CommandIn(f) == SUBSCRIBE && "id" in HeadersIn(f)
  }

  /** A login with these headers would be accepted. */
  predicate Admitted(s: Server, conn: nat, h: map<string, string>) {
    && "login" in h && "passcode" in h
    && Validates(s.passwords, h["login"], h["passcode"]) && MayLogIn(s.tables, conn, h["login"])
  }

  /**
   A frame does not come too late: no login succeeds on a connection without a
   handler, and nobody joins a channel under a login that is gone.
   */
  ghost predicate Timely(s: Server, e: Event) {
    e.Frame? && e.conn in s.live ==>
      && (Connects(e.parts) && Admitted(s, e.conn, HeadersIn(e.parts)) ==> e.conn in s.tables.handlers)
      && (Subscribes(e.parts) && s.live[e.conn].user.Some?
          && !IsMember(s.tables, Destination(e.parts), s.live[e.conn].user.value.text)
          ==> Held(s.tables, s.live[e.conn].user.value))
  }

  /**
   What the code assumes of clients: only a connection that has logged in
   subscribes to a channel nobody is in, and a new subscription carries an id
   that is not one of the user's already.
   */
  predicate IdsFresh(s: Server, e: Event) {
    e.Frame? && e.conn in s.live && Subscribes(e.parts) ==>
      var c, id := Destination(e.parts), HeadersIn(e.parts)["id"];
      match s.live[e.conn].user
      case None => c in s.tables.channels
      case Some(u) => IsMember(s.tables, c, u.text) || id !in Ids(s.tables, u.text)
  }

  ghost predicate WellBehaved(s: Server, e: Event) {
    Timely(s, e) && IdsFresh(s, e)
  }

  // ---------------------------------------------------------------- runs

  ghost predicate StepAt(trace: seq<Server>, events: seq<Event>, i: nat)
    requires i < |events| && |trace| == |events| + 1
  {
    Can(trace[i], events[i]) && trace[i + 1] == Do(trace[i], events[i])
  }

  /** Any run at all: `trace[i + 1]` follows from `trace[i]` by `events[i]`. */
  ghost predicate AnyRun(trace: seq<Server>, events: seq<Event>) {
    && |trace| == |events| + 1 && trace[0] == START
    && forall i :: 0 <= i < |events| ==> StepAt(trace, events, i)
  }

  ghost predicate TimelyRun(trace: seq<Server>, events: seq<Event>) {
    AnyRun(trace, events) && forall i :: 0 <= i < |events| ==> Timely(trace[i], events[i])
  }

  /** A run of well-behaved clients. */
  ghost predicate IsRun(trace: seq<Server>, events: seq<Event>) {
    AnyRun(trace, events) && forall i :: 0 <= i < |events| ==> WellBehaved(trace[i], events[i])
  }

  /** The frames of connection `c` among the events, in order. */
  function FramesFrom(c: nat, events: seq<Event>): seq<Parts> {
    if events == [] then []
    else
      var n := |events| - 1;
      FramesFrom(c, events[..n]) + if events[n].Frame? && events[n].conn == c then [events[n].parts] else []
  }

  lemma AnyRunMore(trace: seq<Server>, events: seq<Event>, e: Event)
    requires AnyRun(trace, events) && Can(trace[|events|], e)
    ensures AnyRun(trace + [Do(trace[|events|], e)], events + [e])
  {
    var t, es := trace + [Do(trace[|events|], e)], events + [e];
    forall i | 0 <= i < |es|
      ensures StepAt(t, es, i)
    {
      if i < |events| {
        assert StepAt(trace, events, i);
      }
    }
  }

  // ---------------------------------------------------------------- other connections

  function LoginOf(t: Tables, conn: nat): Option<Name> {
    if conn in t.users then Some(t.users[conn]) else None
  }

  /** Nothing that another connection's protocol relies on has changed. */
  predicate Spares(t: Tables, q: Tables, other: nat) {
    && LoginOf(q, other) == LoginOf(t, other)
    && (other in q.handlers <==> other in t.handlers)
    && q.nextConn == t.nextConn
  }

  lemma DisconnectSpares(t: Tables, conn: nat, other: nat)
    requires other != conn
    ensures Spares(t, Disconnect(t, conn), other)
  {
    DisconnectEffect(t, conn, "", "", "");
  }

  lemma OnConnectSpares(w: World, conn: nat, h: map<string, string>, addr: nat, other: nat)
    requires other != conn
    ensures Spares(w.tables, OnConnect(w, conn, h, addr).0.tables, other)
  {
  }

  lemma OnSubscribeSpares(w: World, conn: nat, h: map<string, string>, other: nat)
    requires other != conn
    ensures Spares(w.tables, OnSubscribe(w, conn, h).0.tables, other)
  {
    if "destination" in h && "id" in h && w.me.user.Some? {
      DisconnectSpares(Subscribe(w.tables, ChannelOf(h["destination"]), h["id"], w.me.user.value), conn, other);
    }
  }

  lemma OnUnsubscribeSpares(w: World, conn: nat, h: map<string, string>, other: nat)
    requires other != conn
    ensures Spares(w.tables, OnUnsubscribe(w, conn, h).0.tables, other)
  {
    DisconnectSpares(w.tables, conn, other);
  }

  lemma OnSendSpares(w: World, conn: nat, h: map<string, string>, sent: nat, broken: bool, other: nat)
    requires other != conn
    ensures Spares(w.tables, OnSend(w, conn, h, sent, broken).0.tables, other)
  {
    DisconnectSpares(w.tables, conn, other);
  }

  lemma CommandSpares(w: World, conn: nat, command: Command, h: map<string, string>, addr: nat, sent: nat, broken: bool,
                      other: nat)
    requires other != conn
    ensures Spares(w.tables, OnCommand(w, conn, command, h, addr, sent, broken).0.tables, other)
  {
    match command
    case CONNECT => OnConnectSpares(w, conn, h, addr, other);
    case SEND => OnSendSpares(w, conn, h, sent, broken, other);
    case SUBSCRIBE => OnSubscribeSpares(w, conn, h, other);
    case UNSUBSCRIBE => OnUnsubscribeSpares(w, conn, h, other);
    case DISCONNECT => DisconnectSpares(w.tables, conn, other);
  }

  lemma HandleSpares(w: World, conn: nat, f: Parts, addr: nat, sent: nat, broken: bool, other: nat)
    requires other != conn
    ensures Spares(w.tables, Handle(w, conn, f, addr, sent, broken).0.tables, other)
  {
    if IsCommand(f) {
      CommandSpares(w, conn, CommandIn(f), HeadersIn(f), addr, sent, broken, other);
    }
  }

  lemma HandleCounts(w: World, conn: nat, f: Parts, addr: nat, sent: nat, broken: bool)
    ensures Handle(w, conn, f, addr, sent, broken).0.tables.nextConn == w.tables.nextConn
  {
    HandleSpares(w, conn, f, addr, sent, broken, conn + 1);
  }

  /** An event of one connection touches neither login nor handler of another. */
  lemma StepSpares(s: Server, e: Event, other: nat)
    requires Can(s, e) && (e.Open? ==> other != s.tables.nextConn) && (e.Frame? || e.Close? ==> other != e.conn)
    ensures LoginOf(Do(s, e).tables, other) == LoginOf(s.tables, other)
    ensures other in Do(s, e).tables.handlers <==> other in s.tables.handlers
    ensures s.tables.nextConn <= Do(s, e).tables.nextConn
    ensures other in s.live <==> other in Do(s, e).live
    ensures other in s.live ==> Do(s, e).live[other] == s.live[other]
  {
    match e
    case Open =>
    case Frame(conn, f, addr, ds, broken) => HandleSpares(View(s, conn), conn, f, addr, |ds|, broken, other);
    case Close(conn) => DisconnectEffect(s.tables, conn, "", "", "");
  }

  // ---------------------------------------------------------------- one session per name, in any run

  /**
   Numbers of logins, handlers and protocol objects have been given out; and
   while a connection is open its protocol object knows its login.
   */
  predicate KnowsItself(s: Server, conn: nat) {
    && (conn in s.live || conn in s.tables.users || conn in s.tables.handlers ==> conn < s.tables.nextConn)
    && (conn in s.live && !s.live[conn].terminate && conn in s.tables.handlers ==>
          s.live[conn].user == LoginOf(s.tables, conn))
  }

  ghost predicate Sound(s: Server) {
    OneSessionPerUser(s.tables) && forall conn: nat :: KnowsItself(s, conn)
  }

  predicate Member(w: World, conn: nat) {
    conn in w.tables.handlers && w.me.user == LoginOf(w.tables, conn)
  }

  /** No frame brings back a handler or takes back the wish to terminate; login and protocol move together. */
  predicate LoginFollows(w: World, q: World, conn: nat) {
    && (conn in q.tables.handlers ==> conn in w.tables.handlers)
    && (!q.me.terminate && conn in w.tables.handlers ==> conn in q.tables.handlers)
    && (!q.me.terminate ==> !w.me.terminate)
    && (!q.me.terminate && w.me.user == LoginOf(w.tables, conn) ==> q.me.user == LoginOf(q.tables, conn))
  }

  lemma ExpelFollows(w: World, v: World, conn: nat, reason: string)
    requires v.tables.handlers == w.tables.handlers
    ensures LoginFollows(w, Expel(v, conn, reason).0, conn)
  {
    DisconnectEffect(v.tables, conn, "", "", "");
  }

  lemma OnSubscribeFollows(w: World, conn: nat, h: map<string, string>)
    ensures LoginFollows(w, OnSubscribe(w, conn, h).0, conn)
  {
    if "destination" in h && "id" in h && w.me.user.Some? {
      var v := w.(tables := Subscribe(w.tables, ChannelOf(h["destination"]), h["id"], w.me.user.value));
      ExpelFollows(w, v, conn, "user is already subscribed to this channel");
    }
  }

  lemma OnConnectFollows(w: World, conn: nat, h: map<string, string>, addr: nat)
    ensures LoginFollows(w, OnConnect(w, conn, h, addr).0, conn)
  {
  }

  lemma OnUnsubscribeFollows(w: World, conn: nat, h: map<string, string>)
    ensures LoginFollows(w, OnUnsubscribe(w, conn, h).0, conn)
  {
    ExpelFollows(w, w, conn, "user cannot unsubscribe from a channel he's not subscribed to");
  }

  lemma OnSendFollows(w: World, conn: nat, h: map<string, string>, sent: nat, broken: bool)
    ensures LoginFollows(w, OnSend(w, conn, h, sent, broken).0, conn)
  {
    ExpelFollows(w, w, conn, "user is not subscribed to channel");
  }

  lemma OnDisconnectFollows(w: World, conn: nat, h: map<string, string>)
    ensures LoginFollows(w, OnDisconnect(w, conn, h).0, conn)
  {
    DisconnectEffect(w.tables, conn, "", "", "");
  }

  lemma OwnLogin(w: World, conn: nat, f: Parts, addr: nat, sent: nat, broken: bool)
    ensures LoginFollows(w, Handle(w, conn, f, addr, sent, broken).0, conn)
  {
    if IsCommand(f) {
      var h := HeadersIn(f);
      match CommandIn(f) {
        case CONNECT => OnConnectFollows(w, conn, h, addr);
        case SEND => OnSendFollows(w, conn, h, sent, broken);
        case SUBSCRIBE => OnSubscribeFollows(w, conn, h);
        case UNSUBSCRIBE => OnUnsubscribeFollows(w, conn, h);
        case DISCONNECT => OnDisconnectFollows(w, conn, h);
      }
    }
  }

  lemma OwnLoginKept(s: Server, e: Event, conn: nat)
    requires Sound(s) && Can(s, e) && conn in s.live && e.Frame? && e.conn == conn
    ensures KnowsItself(Do(s, e), conn)
  {
    var w := View(s, conn);
    assert KnowsItself(s, conn);
    OwnLogin(w, conn, e.parts, e.addr, |e.sent|, e.broken);
    HandleCounts(w, conn, e.parts, e.addr, |e.sent|, e.broken);
  }

  lemma CommandKeepsSessions(w: World, conn: nat, command: Command, h: map<string, string>, addr: nat,
                             sent: nat, broken: bool)
    requires OneSessionPerUser(w.tables)
    ensures OneSessionPerUser(OnCommand(w, conn, command, h, addr, sent, broken).0.tables)
  {
  }

  lemma StepKeepsSound(s: Server, e: Event)
    requires Sound(s) && Can(s, e)
    ensures Sound(Do(s, e))
  {
    forall conn: nat
      ensures KnowsItself(Do(s, e), conn)
    {
      assert KnowsItself(s, conn);
      if e.Frame? && e.conn == conn {
        OwnLoginKept(s, e, conn);
      } else if e.Close? && e.conn == conn {
        DisconnectEffect(s.tables, conn, "", "", "");
      } else if e.Open? && conn == s.tables.nextConn {
      } else {
        StepSpares(s, e, conn);
      }
    }
    match e
    case Open =>
    case Frame(conn, f, addr, ds, broken) =>
      if IsCommand(f) {
        CommandKeepsSessions(View(s, conn), conn, CommandIn(f), HeadersIn(f), addr, |ds|, broken);
      }
    case Close(conn) => DisconnectEffect(s.tables, conn, "", "", "");
  }

  lemma {:induction false} RunKeepsSound(trace: seq<Server>, events: seq<Event>, i: nat)
    requires AnyRun(trace, events) && i < |trace|
    ensures Sound(trace[i])
  {
    if i > 0 {
      RunKeepsSound(trace, events, i - 1);
      assert StepAt(trace, events, i - 1);
      StepKeepsSound(trace[i - 1], events[i - 1]);
    }
  }

  /** Whatever clients send, a name is held by at most one connection. */
  lemma OneConnectionPerName(trace: seq<Server>, events: seq<Event>, i: nat, a: nat, b: nat)
    requires AnyRun(trace, events) && i < |trace|
    requires a in trace[i].tables.users && b in trace[i].tables.users
    ensures trace[i].tables.users[a].text == trace[i].tables.users[b].text ==> a == b
  {
    RunKeepsSound(trace, events, i);
  }

  // ---------------------------------------------------------------- logins that outlive their protocol

  /**
   A connection told to terminate has left the tables, with one exception: a
   CONNECT refused on a connection that is logged in leaves the login behind.
   */
  lemma LoginOutlives(s: Server, e: Event)
    requires Sound(s) && Can(s, e) && e.Frame? && !s.live[e.conn].terminate && e.conn in s.tables.handlers
    requires Do(s, e).live[e.conn].terminate
    ensures e.conn in Do(s, e).tables.users <==> Connects(e.parts) && s.live[e.conn].user.Some?
  {
    assert KnowsItself(s, e.conn);
    var w, h := View(s, e.conn), HeadersIn(e.parts);
    match CommandIn(e.parts)
    case CONNECT => RefusedConnect(w, e.conn, h, e.addr);
    case SUBSCRIBE =>
    case UNSUBSCRIBE =>
    case SEND =>
    case DISCONNECT => DisconnectEffect(s.tables, e.conn, "", "", "");
  }

  lemma RefusedConnect(w: World, conn: nat, h: map<string, string>, addr: nat)
    requires !w.me.terminate && OnConnect(w, conn, h, addr).0.me.terminate
    ensures OnConnect(w, conn, h, addr).0.tables == w.tables
  {
  }

  /** The name then stays taken until that connection does something more, or is closed. */
  lemma {:induction false} NameStaysTaken(trace: seq<Server>, events: seq<Event>, i: nat, j: nat, conn: nat)
    requires AnyRun(trace, events) && i <= j < |trace| && conn in trace[i].tables.users
    requires forall k :: i <= k < j ==> !((events[k].Frame? || events[k].Close?) && events[k].conn == conn)
    ensures conn in trace[j].tables.users && trace[j].tables.users[conn] == trace[i].tables.users[conn]
    ensures forall other: nat :: !MayLogIn(trace[j].tables, other, trace[i].tables.users[conn].text)
    decreases j - i
  {
    if i < j {
      NameStaysTaken(trace, events, i, j - 1, conn);
      RunKeepsSound(trace, events, j - 1);
      assert KnowsItself(trace[j - 1], conn);
      assert StepAt(trace, events, j - 1);
      StepSpares(trace[j - 1], events[j - 1], conn);
    }
  }

  /** Closing that connection frees the name: whoever is not logged in may take it. */
  lemma CloseReleases(trace: seq<Server>, events: seq<Event>, i: nat)
    requires AnyRun(trace, events) && i < |events| && events[i].Close?
    ensures var conn, before, after := events[i].conn, trace[i].tables, trace[i + 1].tables;
      && conn !in after.users && conn !in after.handlers
      && (conn in before.users ==>
            forall other: nat :: other !in after.users ==> MayLogIn(after, other, before.users[conn].text))
  {
    RunKeepsSound(trace, events, i);
    assert StepAt(trace, events, i);
    DisconnectEffect(trace[i].tables, events[i].conn, "", "", "");
  }

  /** A handler once removed does not come back, whatever frames are still processed. */
  lemma {:induction false} ClosedStaysOut(trace: seq<Server>, events: seq<Event>, i: nat, j: nat)
    requires AnyRun(trace, events) && i < j <= |events| && events[i].Close?
    ensures events[i].conn in trace[j].live && events[i].conn !in trace[j].tables.handlers
    decreases j - i
  {
    var conn, s, e := events[i].conn, trace[j - 1], events[j - 1];
    assert StepAt(trace, events, j - 1);
    if i == j - 1 {
      CloseReleases(trace, events, i);
    } else {
      ClosedStaysOut(trace, events, i, j - 1);
      RunKeepsSound(trace, events, j - 1);
      assert KnowsItself(s, conn);
      StaysOut(s, e, conn);
    }
  }

  lemma StaysOut(s: Server, e: Event, conn: nat)
    requires Sound(s) && Can(s, e) && conn in s.live && conn !in s.tables.handlers
    ensures conn in Do(s, e).live && conn !in Do(s, e).tables.handlers
  {
    assert KnowsItself(s, conn);
    if e.Frame? && e.conn == conn {
      OwnLogin(View(s, conn), conn, e.parts, e.addr, |e.sent|, e.broken);
    } else if e.Close? && e.conn == conn {
      DisconnectEffect(s.tables, conn, "", "", "");
    } else {
      StepSpares(s, e, conn);
    }
  }

  // ---------------------------------------------------------------- passcodes

  lemma PasswordsKept(s: Server, e: Event)
    requires Can(s, e)
    ensures Extends(s.passwords, Do(s, e).passwords)
  {
  }

  lemma {:induction false} PasswordsNeverChange(trace: seq<Server>, events: seq<Event>, i: nat, j: nat, name: string)
    requires AnyRun(trace, events) && i <= j < |trace| && name in trace[i].passwords
    ensures name in trace[j].passwords && trace[j].passwords[name] == trace[i].passwords[name]
    decreases j - i
  {
    if i < j {
      PasswordsNeverChange(trace, events, i, j - 1, name);
      assert StepAt(trace, events, j - 1);
      PasswordsKept(trace[j - 1], events[j - 1]);
    }
  }

  /** A CONNECT that was accepted, for `name` with `passcode`. */
  predicate LogsIn(s: Server, e: Event, name: string, passcode: string) {
    && e.Frame? && e.conn in s.live && Connects(e.parts)
    && Verdict(s, e).Accepted?
    && var h := HeadersIn(e.parts);
      "login" in h && "passcode" in h && h["login"] == name && h["passcode"] == passcode
  }

  /** Over a whole run, all logins for a name carried one passcode. */
  lemma OnePasscodePerName(trace: seq<Server>, events: seq<Event>, i: nat, j: nat, name: string, p: string, q: string)
    requires AnyRun(trace, events) && i <= j < |events|
    requires LogsIn(trace[i], events[i], name, p) && LogsIn(trace[j], events[j], name, q)
    ensures p == q
  {
    assert StepAt(trace, events, i) && StepAt(trace, events, j);
    if i < j {
      PasswordsNeverChange(trace, events, i + 1, j, name);
    }
  }

  // ---------------------------------------------------------------- message ids

  lemma {:induction false} FanOutIds(t: Tables, c: string, sender: string, body: Option<string>,
                                     order: seq<string>, ds: seq<Delivery>)
    requires FansOut(t, c, sender, body, order, ds)
    ensures forall k :: 0 <= k < |ds| ==> ds[k].messageId == t.nextMessage + k
  {
    if order != [] {
      var before := order[..|order| - 1];
      if Skipped(t, c, sender, order[|order| - 1]) {
        FanOutIds(t, c, sender, body, before, ds);
      } else {
        FanOutIds(t, c, sender, body, before, ds[..|ds| - 1]);
        assert forall k :: 0 <= k < |ds| - 1 ==> ds[k] == ds[..|ds| - 1][k];
      }
    }
  }

  function SentIn(e: Event): seq<Delivery> {
    if e.Frame? then e.sent else []
  }

  lemma SentNumbers(w: World, f: Parts, ds: seq<Delivery>, broken: bool)
    requires MaySend(w, f, ds, broken)
    ensures forall k :: 0 <= k < |ds| ==> ds[k].messageId == w.tables.nextMessage + k
  {
    if Publishes(w, f) {
      var order :| SendsInOrder(w, f, order, ds, broken);
      FanOutIds(w.tables, Destination(f), w.me.user.value.text, f.body, order, ds);
    }
  }

  lemma StepNumbers(s: Server, e: Event)
    requires Can(s, e)
    ensures Do(s, e).tables.nextMessage == s.tables.nextMessage + Numbers(|SentIn(e)|, e.Frame? && e.broken)
    ensures forall k :: 0 <= k < |SentIn(e)| ==> SentIn(e)[k].messageId == s.tables.nextMessage + k
  {
    if e.Frame? {
      SentNumbers(View(s, e.conn), e.parts, e.sent, e.broken);
    }
  }

  lemma {:induction false} NumbersGrow(trace: seq<Server>, events: seq<Event>, i: nat, j: nat)
    requires AnyRun(trace, events) && i <= j < |trace|
    ensures trace[i].tables.nextMessage <= trace[j].tables.nextMessage
    decreases j - i
  {
    if i < j {
      NumbersGrow(trace, events, i, j - 1);
      assert StepAt(trace, events, j - 1);
      StepNumbers(trace[j - 1], events[j - 1]);
    }
  }

  lemma NumberedWithin(trace: seq<Server>, events: seq<Event>, i: nat, k: nat)
    requires AnyRun(trace, events) && i < |events| && k < |SentIn(events[i])|
    ensures SentIn(events[i])[k].messageId == trace[i].tables.nextMessage + k
    ensures SentIn(events[i])[k].messageId < trace[i + 1].tables.nextMessage
  {
    assert StepAt(trace, events, i);
    StepNumbers(trace[i], events[i]);
  }

  /** No two messages of a run have the same message-id. */
  lemma MessageIdsDistinct(trace: seq<Server>, events: seq<Event>, i: nat, k: nat, j: nat, l: nat)
    requires AnyRun(trace, events) && i <= j < |events|
    requires k < |SentIn(events[i])| && l < |SentIn(events[j])| && (i, k) != (j, l)
    ensures SentIn(events[i])[k].messageId != SentIn(events[j])[l].messageId
  {
    NumberedWithin(trace, events, i, k);
    NumberedWithin(trace, events, j, l);
    if i < j {
      NumbersGrow(trace, events, i + 1, j);
    }
  }

  /** Connections opened by these events. */
  function Opened(events: seq<Event>): nat {
    if events == [] then 0
    else Opened(events[..|events| - 1]) + if events[|events| - 1].Open? then 1 else 0
  }

  /** Message numbers used up: one for each message, and one for each `send` that threw. */
  function Numbered(events: seq<Event>): nat {
    if events == [] then 0
    else
      var e := events[|events| - 1];
      Numbered(events[..|events| - 1]) + |SentIn(e)| + if e.Frame? && e.broken then 1 else 0
  }

  /** Connections and messages are numbered from 0 on, without a gap but where `send` throws. */
  lemma {:induction false} NumberedFromZero(trace: seq<Server>, events: seq<Event>, i: nat)
    requires AnyRun(trace, events) && i <= |events|
    ensures trace[i].tables.nextConn == Opened(events[..i]) && trace[i].tables.nextMessage == Numbered(events[..i])
    ensures i < |events| && events[i].Open? ==> trace[i + 1].live.Keys == trace[i].live.Keys + {Opened(events[..i])}
    ensures i < |events| ==> forall k :: 0 <= k < |SentIn(events[i])| ==>
      SentIn(events[i])[k].messageId == Numbered(events[..i]) + k
  {
    if i > 0 {
      NumberedFromZero(trace, events, i - 1);
      assert events[..i][..i - 1] == events[..i - 1];
      assert StepAt(trace, events, i - 1);
      StepCounts(trace[i - 1], events[i - 1]);
    }
    if i < |events| {
      assert StepAt(trace, events, i);
      StepNumbers(trace[i], events[i]);
    }
  }

  lemma StepCounts(s: Server, e: Event)
    requires Can(s, e)
    ensures Do(s, e).tables.nextConn == s.tables.nextConn + if e.Open? then 1 else 0
    ensures Do(s, e).tables.nextMessage
         == s.tables.nextMessage + |SentIn(e)| + if e.Frame? && e.broken then 1 else 0
  {
    StepNumbers(s, e);
    match e
    case Open =>
    case Frame(conn, f, addr, ds, broken) => HandleCounts(View(s, conn), conn, f, addr, |ds|, broken);
    case Close(conn) => DisconnectEffect(s.tables, conn, "", "", "");
  }

  // ---------------------------------------------------------------- a send that throws

  /** `u` is a member other than the sender, found at a connection that has lost its handler. */
  ghost predicate Stray(t: Tables, c: string, sender: string, u: string) {
    && c in t.channels && u in t.channels[c] && u != sender
    && exists k :: k in t.users && t.users[k] == t.channels[c][u].key && k !in t.handlers
  }

  /** Members to whom the messages went, in order: no two the same, none the sender. */
  predicate Served(t: Tables, c: string, sender: string, body: Option<string>, us: seq<string>, ds: seq<Delivery>) {
    && |us| == |ds| && (forall i, j :: 0 <= i < j < |us| ==> us[i] != us[j])
    && forall i :: 0 <= i < |us| ==> us[i] != sender && IsMessageFor(t, c, body, us[i], i, ds[i])
  }

  lemma {:induction false} FanOutServes(t: Tables, c: string, sender: string, body: Option<string>,
                                        order: seq<string>, ds: seq<Delivery>) returns (us: seq<string>)
    requires FansOut(t, c, sender, body, order, ds)
    requires forall i, j :: 0 <= i < j < |order| ==> order[i] != order[j]
    ensures Served(t, c, sender, body, us, ds) && forall u :: u in us ==> u in order
  {
    if order == [] {
      us := [];
    } else {
      var before, u := order[..|order| - 1], order[|order| - 1];
      if Skipped(t, c, sender, u) {
        us := FanOutServes(t, c, sender, body, before, ds);
      } else {
        var them := FanOutServes(t, c, sender, body, before, ds[..|ds| - 1]);
        forall i | 0 <= i < |them|
          ensures them[i] != u
        {
          assert them[i] in before;
          var j :| 0 <= j < |before| && before[j] == them[i];
          assert before[j] == order[j];
        }
        us := them + [u];
        assert forall i :: 0 <= i < |them| ==> us[i] == them[i] && ds[i] == ds[..|ds| - 1][i];
      }
    }
  }

  /** `send` throws only at a stray member, after one message each to other members. */
  lemma BrokenSend(w: World, f: Parts, ds: seq<Delivery>) returns (us: seq<string>, u: string)
    requires MaySend(w, f, ds, true)
    ensures Publishes(w, f) && u !in us
    ensures var c, sender := Destination(f), w.me.user.value.text;
      Stray(w.tables, c, sender, u) && Served(w.tables, c, sender, f.body, us, ds)
  {
    var c, sender := Destination(f), w.me.user.value.text;
    var order :| SendsInOrder(w, f, order, ds, true);
    us := FanOutServes(w.tables, c, sender, f.body, order, ds);
    u :| u !in order && Unserved(w.tables, c, sender, u);
  }

  /** And where there is one, it may throw at once. */
  lemma StrayMayBreak(w: World, f: Parts, u: string)
    requires Publishes(w, f) && Stray(w.tables, Destination(f), w.me.user.value.text, u)
    ensures MaySend(w, f, [], true)
  {
    var c, sender := Destination(f), w.me.user.value.text;
    var k :| k in w.tables.users && w.tables.users[k] == w.tables.channels[c][u].key && k !in w.tables.handlers;
    assert ScanFinds(w.tables.users, Channel(w.tables, c)[u].key, Some(k));
    assert Unserved(w.tables, c, sender, u);
    assert SendsInOrder(w, f, [], [], true);
  }

  // ---------------------------------------------------------------- keys, while frames come in time

  lemma ConnectKeyed(w: World, conn: nat, h: map<string, string>, addr: nat)
    requires Keyed(w.tables)
    ensures var (q, v) := OnConnect(w, conn, h, addr);
      Keyed(q.tables) <==> (v.Accepted? ==> conn in w.tables.handlers)
  {
    if "login" in h && MayLogIn(w.tables, conn, h["login"]) {
      ConnectUserKeyed(w.tables, conn, Name(h["login"], addr));
    }
  }

  lemma OnSubscribeKeyed(w: World, conn: nat, h: map<string, string>)
    requires Keyed(w.tables) && "destination" in h && "id" in h
    ensures var c := ChannelOf(h["destination"]);
      Keyed(OnSubscribe(w, conn, h).0.tables) <==>
        (w.me.user.Some? && !IsMember(w.tables, c, w.me.user.value.text) ==> Held(w.tables, w.me.user.value))
  {
    var c := ChannelOf(h["destination"]);
    if w.me.user.None? {
      SameMembers(w.tables, w.tables.(channels := w.tables.channels[c := Channel(w.tables, c)]));
    } else {
      var u := w.me.user.value;
      if IsMember(w.tables, c, u.text) {
        SameMembers(w.tables, Subscribe(w.tables, c, h["id"], u));
        DisconnectKeyed(Subscribe(w.tables, c, h["id"], u), conn);
      } else {
        SubscribeKeyed(w.tables, c, h["id"], u);
      }
    }
  }

  lemma SameMembers(t: Tables, q: Tables)
    requires Keyed(t) && q.users == t.users && q.handlers == t.handlers && q.nextConn == t.nextConn
    requires forall c :: Channel(q, c) == Channel(t, c)
    ensures Keyed(q)
  {
    forall c, u | IsMember(q, c, u)
      ensures Stays(t, q, c, u)
    {
    }
    FewerMembers(t, q);
  }

  lemma OnSendKeyed(w: World, conn: nat, h: map<string, string>, sent: nat, broken: bool)
    requires Keyed(w.tables)
    ensures Keyed(OnSend(w, conn, h, sent, broken).0.tables)
  {
    DisconnectKeyed(w.tables, conn);
    SameMembers(w.tables, w.tables.(nextMessage := w.tables.nextMessage + Numbers(sent, broken)));
  }

  lemma OnUnsubscribeKeyed(w: World, conn: nat, h: map<string, string>)
    requires Keyed(w.tables)
    ensures Keyed(OnUnsubscribe(w, conn, h).0.tables)
  {
    if "id" in h && w.me.user.Some? {
      UnsubscribeKeyed(w.tables, h["id"], w.me.user.value.text);
      DisconnectKeyed(w.tables, conn);
    }
  }

  lemma FrameKeyed(s: Server, e: Event)
    requires Keyed(s.tables) && Can(s, e) && e.Frame?
    ensures Keyed(Do(s, e).tables) <==> Timely(s, e)
  {
    var w, f := View(s, e.conn), e.parts;
    if IsCommand(f) {
      var h := HeadersIn(f);
      match CommandIn(f) {
        case CONNECT => ConnectKeyed(w, e.conn, h, e.addr);
        case SEND => OnSendKeyed(w, e.conn, h, |e.sent|, e.broken);
        case UNSUBSCRIBE => OnUnsubscribeKeyed(w, e.conn, h);
        case DISCONNECT => DisconnectKeyed(w.tables, e.conn);
        case SUBSCRIBE =>
          if Subscribes(f) {
            OnSubscribeKeyed(w, e.conn, h);
          }
      }
    }
  }

  /** Members' key objects stay those of logged-in connections exactly while frames come in time. */
  lemma StepKeepsKeyed(s: Server, e: Event)
    requires Keyed(s.tables) && Can(s, e)
    ensures Keyed(Do(s, e).tables) <==> Timely(s, e)
  {
    match e
    case Open => ConnectHandlerKeyed(s.tables);
    case Frame(_, _, _, _, _) => FrameKeyed(s, e);
    case Close(conn) => DisconnectKeyed(s.tables, conn);
  }

  lemma {:induction false} RunKeepsKeyed(trace: seq<Server>, events: seq<Event>, i: nat)
    requires TimelyRun(trace, events) && i < |trace|
    ensures Keyed(trace[i].tables)
  {
    if i > 0 {
      RunKeepsKeyed(trace, events, i - 1);
      assert StepAt(trace, events, i - 1);
      StepKeepsKeyed(trace[i - 1], events[i - 1]);
    }
  }

  /**
   Whatever ids clients choose, and whether or not they log in first: each member
   is located, by reference and by name, at the same one connection, which has a
   handler, so no `send` throws.
   */
  lemma LookupsAgree(trace: seq<Server>, events: seq<Event>, i: nat, c: string, u: string) returns (conn: nat)
    requires TimelyRun(trace, events) && i < |trace| && IsMember(trace[i].tables, c, u)
    ensures var t := trace[i].tables;
      && (forall q: Option<nat> :: ScanFinds(t.users, t.channels[c][u].key, q) <==> q == Some(conn))
      && (forall k :: k in t.users && t.users[k].text == u <==> k == conn)
      && conn in t.handlers
      && forall sender :: !Unserved(t, c, sender, u)
  {
    RunKeepsKeyed(trace, events, i);
    conn := IdentityLookupAgrees(trace[i].tables, c, u);
  }

  lemma NothingBreaks(w: World, f: Parts, ds: seq<Delivery>, broken: bool)
    requires UsersHaveHandlers(w.tables) && MaySend(w, f, ds, broken)
    ensures !broken
  {
    if Publishes(w, f) {
      var order :| SendsInOrder(w, f, order, ds, broken);
      forall u
        ensures !Unserved(w.tables, Destination(f), w.me.user.value.text, u)
      {
      }
    }
  }

  // ---------------------------------------------------------------- servers that stop in time

  ghost predicate ClosedBefore(events: seq<Event>, conn: nat, i: nat)
    requires i <= |events|
  {
    exists j :: 0 <= j < i && events[j] == Close(conn)
  }

  /** The blocking loop's test, and no frame of a connection that has been closed. */
  ghost predicate StopsInTime(trace: seq<Server>, events: seq<Event>) {
    && AnyRun(trace, events)
    && forall i :: 0 <= i < |events| && events[i].Frame? ==>
         && events[i].conn in trace[i].live && !trace[i].live[events[i].conn].terminate
         && !ClosedBefore(events, events[i].conn, i)
  }

  lemma KeepsHandler(s: Server, e: Event, conn: nat)
    requires Sound(s) && Can(s, e) && e != Close(conn)
    requires conn in s.live && !s.live[conn].terminate ==> conn in s.tables.handlers
    requires conn in Do(s, e).live && !Do(s, e).live[conn].terminate
    ensures conn in Do(s, e).tables.handlers
  {
    assert KnowsItself(s, conn);
    if e.Frame? && e.conn == conn {
      OwnLogin(View(s, conn), conn, e.parts, e.addr, |e.sent|, e.broken);
    } else if !(e.Open? && conn == s.tables.nextConn) {
      StepSpares(s, e, conn);
    }
  }

  lemma {:induction false} OpenHasHandler(trace: seq<Server>, events: seq<Event>, i: nat, conn: nat)
    requires AnyRun(trace, events) && i < |trace| && conn in trace[i].live && !trace[i].live[conn].terminate
    requires !ClosedBefore(events, conn, i)
    ensures conn in trace[i].tables.handlers
  {
    if i > 0 {
      assert StepAt(trace, events, i - 1);
      assert events[i - 1] != Close(conn);
      assert !ClosedBefore(events, conn, i - 1);
      RunKeepsSound(trace, events, i - 1);
      if conn in trace[i - 1].live && !trace[i - 1].live[conn].terminate {
        OpenHasHandler(trace, events, i - 1, conn);
      }
      KeepsHandler(trace[i - 1], events[i - 1], conn);
    }
  }

  /** Whatever its clients send, such a server takes no frame too late. */
  lemma StoppingIsTimely(trace: seq<Server>, events: seq<Event>)
    requires StopsInTime(trace, events)
    ensures TimelyRun(trace, events)
  {
    forall i | 0 <= i < |events|
      ensures Timely(trace[i], events[i])
    {
      if events[i].Frame? {
        var conn := events[i].conn;
        RunKeepsSound(trace, events, i);
        OpenHasHandler(trace, events, i, conn);
        assert KnowsItself(trace[i], conn);
        if trace[i].live[conn].user.Some? {
          assert Holds(trace[i].tables, conn, trace[i].live[conn].user.value);
        }
      }
    }
  }

  // ---------------------------------------------------------------- frames that come too late

  /**
   The reactor closes a connection with a SUBSCRIBE of its still to be processed:
   its user becomes a member of the channel without being logged in.
   */
  lemma SubscribeAfterClose(s: Server, e: Event)
    requires Keyed(s.tables) && e.Frame? && Can(s, Close(e.conn)) && Subscribes(e.parts)
    requires s.live[e.conn].user == LoginOf(s.tables, e.conn) && e.conn in s.tables.users
    requires Can(Do(s, Close(e.conn)), e)
    ensures var q, u := Do(Do(s, Close(e.conn)), e), s.tables.users[e.conn].text;
      IsMember(q.tables, Destination(e.parts), u) && !LoggedIn(q.tables, u) && !Timely(Do(s, Close(e.conn)), e)
  {
    var u := s.tables.users[e.conn].text;
    DisconnectEffect(s.tables, e.conn, "", "", "");
    LeftEffect(s.tables.channels, u, Destination(e.parts), u);
  }

  /**
   The reactor runs a SUBSCRIBE sent after a DISCONNECT: to a channel nobody is
   in, it throws and leaves the channel behind.
   */
  lemma SubscribeAfterDisconnect(s: Server, d: Event, e: Event)
    requires Consistent(s.tables) && Can(s, d) && d.Frame? && Do(s, d).live[d.conn] == Me(None, true)
    requires Consistent(Do(s, d).tables) && Can(Do(s, d), e) && e.Frame? && e.conn == d.conn && Subscribes(e.parts)
    ensures Consistent(Do(Do(s, d), e).tables) <==> Destination(e.parts) in Do(s, d).tables.channels
  {
    StepKeepsConsistent(Do(s, d), e);
  }

  /** Likewise a CONNECT: a login that no handler belongs to. */
  lemma ConnectAfterClose(s: Server, e: Event)
    requires e.Frame? && Can(s, Close(e.conn)) && Can(Do(s, Close(e.conn)), e)
    requires Connects(e.parts) && Verdict(Do(s, Close(e.conn)), e).Accepted?
    ensures var q := Do(Do(s, Close(e.conn)), e);
      e.conn in q.tables.users && e.conn !in q.tables.handlers
  {
  }

  // ---------------------------------------------------------------- the whole invariant

  lemma ExpelKeeps(w: World, conn: nat, reason: string)
    requires Consistent(w.tables)
    ensures Consistent(Expel(w, conn, reason).0.tables)
  {
    DisconnectKeeps(w.tables, conn);
  }

  lemma ConnectKeeps(w: World, conn: nat, h: map<string, string>, addr: nat)
    requires Consistent(w.tables)
    ensures var (q, v) := OnConnect(w, conn, h, addr);
      Consistent(q.tables) <==> (v.Accepted? ==> conn in w.tables.handlers)
  {
    if "login" in h && MayLogIn(w.tables, conn, h["login"]) {
      ConnectUserKeeps(w.tables, conn, Name(h["login"], addr));
    }
  }

  lemma NullSubscribe(t: Tables, c: string)
    requires Consistent(t)
    ensures var q := t.(channels := t.channels[c := Channel(t, c)]);
      Consistent(q) <==> c in t.channels
  {
    var q := t.(channels := t.channels[c := Channel(t, c)]);
    if c in t.channels {
      assert q == t;
    } else {
      assert q.channels[c] == map[];
    }
  }

  /** SUBSCRIBE as the first frame: an exception, and a channel with nobody in it. */
  lemma SubscribeBeforeConnect()
    ensures var w := World(ConnectHandler(NO_TABLES), map[], NEW_PROTOCOL);
      var (q, v) := OnSubscribe(w, 0, map["destination" := "x", "id" := "0"]);
      v.Crashed? && "x" in q.tables.channels && !NoEmptyChannel(q.tables)
  {
    var h: map<string, string> := map["destination" := "x", "id" := "0"];
    assert "destination"[0] == 'd' && "id"[0] == 'i';
    assert SlashesToBlanks("x") == "x";
    TrimOfTrimmed("x", JavaSpace);
    var w := World(ConnectHandler(NO_TABLES), map[], NEW_PROTOCOL);
    var q := OnSubscribe(w, 0, h).0;
    assert ChannelOf(h["destination"]) == "x";
    assert q.tables.channels["x"] == map[];
  }

  lemma OnSubscribeKeeps(w: World, conn: nat, h: map<string, string>)
    requires Consistent(w.tables) && "destination" in h && "id" in h
    ensures var c := ChannelOf(h["destination"]);
      Consistent(OnSubscribe(w, conn, h).0.tables) <==> match w.me.user
        case None => c in w.tables.channels
        case Some(u) => IsMember(w.tables, c, u.text) || (Held(w.tables, u) && h["id"] !in Ids(w.tables, u.text))
  {
    var c := ChannelOf(h["destination"]);
    if w.me.user.None? {
      NullSubscribe(w.tables, c);
    } else {
      var u := w.me.user.value;
      if IsMember(w.tables, c, u.text) {
        SubscribeAgain(w.tables, c, h["id"], u);
        ExpelKeeps(w, conn, "user is already subscribed to this channel");
      } else {
        SubscribeKeeps(w.tables, c, h["id"], u);
      }
    }
  }

  lemma OnUnsubscribeKeeps(w: World, conn: nat, h: map<string, string>)
    requires Consistent(w.tables)
    ensures Consistent(OnUnsubscribe(w, conn, h).0.tables)
  {
    if "id" in h && w.me.user.Some? {
      if MayUnsubscribe(w.tables, h["id"], w.me.user.value.text) {
        UnsubscribeKeeps(w.tables, h["id"], w.me.user.value.text);
      } else {
        ExpelKeeps(w, conn, "user cannot unsubscribe from a channel he's not subscribed to");
      }
    }
  }

  lemma OnSendKeeps(w: World, conn: nat, h: map<string, string>, sent: nat, broken: bool)
    requires Consistent(w.tables)
    ensures Consistent(OnSend(w, conn, h, sent, broken).0.tables)
  {
    ExpelKeeps(w, conn, "user is not subscribed to channel");
    NumberingKeeps(w.tables, w.tables.nextMessage + Numbers(sent, broken));
  }

  lemma NumberingKeeps(t: Tables, n: nat)
    requires Consistent(t)
    ensures Consistent(t.(nextMessage := n))
  {
    var q := t.(nextMessage := n);
    SameMembers(t, q);
    assert forall u, c, s :: Subscribed(q, u, c, s) <==> Subscribed(t, u, c, s);
    assert forall u, c, s :: Listed(q, u, c, s) <==> Listed(t, u, c, s);
    assert forall u :: LoggedIn(q, u) <==> LoggedIn(t, u);
  }

  lemma FrameKeeps(s: Server, e: Event)
    requires Consistent(s.tables) && Can(s, e) && e.Frame?
    ensures Consistent(Do(s, e).tables) <==> WellBehaved(s, e)
  {
    var w, f := View(s, e.conn), e.parts;
    if IsCommand(f) {
      var h := HeadersIn(f);
      match CommandIn(f) {
        case CONNECT => ConnectKeeps(w, e.conn, h, e.addr);
        case SEND => OnSendKeeps(w, e.conn, h, |e.sent|, e.broken);
        case UNSUBSCRIBE => OnUnsubscribeKeeps(w, e.conn, h);
        case DISCONNECT => DisconnectKeeps(w.tables, e.conn);
        case SUBSCRIBE =>
          if Subscribes(f) {
            OnSubscribeKeeps(w, e.conn, h);
          }
      }
    }
  }

  /**
   Every step of the server keeps its tables consistent exactly when it is
   well-behaved, so neither the assumption about clients nor the one about
   late frames can be weakened.
   */
  lemma StepKeepsConsistent(s: Server, e: Event)
    requires Consistent(s.tables) && Can(s, e)
    ensures Consistent(Do(s, e).tables) <==> WellBehaved(s, e)
  {
    match e
    case Open => ConnectHandlerKeeps(s.tables);
    case Frame(_, _, _, _, _) => FrameKeeps(s, e);
    case Close(conn) => DisconnectKeeps(s.tables, conn);
  }

  lemma {:induction false} RunKeepsConsistent(trace: seq<Server>, events: seq<Event>, i: nat)
    requires IsRun(trace, events) && i < |trace|
    ensures Consistent(trace[i].tables)
  {
    if i > 0 {
      RunKeepsConsistent(trace, events, i - 1);
      assert StepAt(trace, events, i - 1);
      StepKeepsConsistent(trace[i - 1], events[i - 1]);
    }
  }

  /** The four tables agree after any run of well-behaved clients. */
  lemma TablesAgree(trace: seq<Server>, events: seq<Event>, i: nat, u: string, c: string, s: string)
    requires IsRun(trace, events) && i < |trace|
    ensures var t := trace[i].tables;
      && (Subscribed(t, u, c, s) <==> Listed(t, u, c, s))
      && (c in t.channels ==> t.channels[c] != map[])
      && (IsMember(t, c, u) ==> LoggedIn(t, u))
      && (forall conn :: conn in t.users ==> conn in t.handlers)
  {
    RunKeepsConsistent(trace, events, i);
    var t := trace[i].tables;
    assert KeyShared(t, c, u);
    if IsMember(t, c, u) {
      var k :| Holds(t, k, t.channels[c][u].key);
    }
  }
}
