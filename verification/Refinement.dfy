/**
 The four tables against the plain notion they implement: who is logged in where,
 and a set of subscriptions. Every frame has the outcome, the effect and the
 recipients that the plain notion gives it.
 */
module Refinement {
  import opened Wrappers
  import opened StompText
  import opened Registry
  import opened Consistency
  import opened Protocol
  import opened Sessions

  datatype Sub = Sub(user: string, channel: string, id: string)

  datatype Plain = Plain(login: map<nat, string>, subs: set<Sub>, passwords: map<string, string>)

  /** The plain server, and the name each connection's protocol remembers, current or not. */
  datatype PlainServer = PlainServer(base: Plain, known: map<nat, string>)

  // ---------------------------------------------------------------- the plain server

  ghost predicate InChannel(p: Plain, user: string, channel: string) {
    exists s :: Sub(user, channel, s) in p.subs
  }

  ghost predicate HasId(p: Plain, user: string, id: string) {
    exists c :: Sub(user, c, id) in p.subs
  }

  ghost predicate HasMembers(p: Plain, channel: string) {
    exists u, s :: Sub(u, channel, s) in p.subs
  }

  ghost function Logout(p: Plain, conn: nat): Plain {
    if conn !in p.login then p
    else p.(login := p.login - {conn}, subs := set x | x in p.subs && x.user != p.login[conn])
  }

  ghost function PlainConnect(p: Plain, conn: nat, h: map<string, string>): (Plain, Verdict) {
    if "login" !in h || "passcode" !in h || !Validates(p.passwords, h["login"], h["passcode"]) then
      (p, Refused("Wrong password"))
    else
      var q := p.(passwords := Register(p.passwords, h["login"], h["passcode"]));
      if conn in p.login || h["login"] in p.login.Values then (q, Refused("User already logged in"))
      else (q.(login := p.login[conn := h["login"]]), Accepted)
  }

  ghost function PlainSubscribe(p: Plain, conn: nat, me: Option<string>, h: map<string, string>): (Plain, Verdict) {
    if "destination" !in h || "id" !in h then (p, Ignored)
    else if me.None? then (p, Crashed)
    else if InChannel(p, me.value, ChannelOf(h["destination"])) then
      (Logout(p, conn), Refused("user is already subscribed to this channel"))
    else
      (p.(subs := p.subs + {Sub(me.value, ChannelOf(h["destination"]), h["id"])}), Accepted)
  }

  ghost function PlainUnsubscribe(p: Plain, conn: nat, me: Option<string>, h: map<string, string>): (Plain, Verdict) {
    if "id" !in h then (p, Ignored)
    else if me.None? then (p, Crashed)
    else if HasId(p, me.value, h["id"]) then
      (p.(subs := set x | x in p.subs && !(x.user == me.value && x.id == h["id"])), Accepted)
    else
      (Logout(p, conn), Refused("user cannot unsubscribe from a channel he's not subscribed to"))
  }

  ghost function PlainDisconnect(p: Plain, conn: nat, h: map<string, string>): (Plain, Verdict) {
    if "receipt" in h then (Logout(p, conn), Accepted) else (p, Ignored)
  }

  ghost function PlainSend(p: Plain, conn: nat, me: Option<string>, h: map<string, string>): (Plain, Verdict) {
    if "destination" !in h then (p, Ignored)
    else
      var c := ChannelOf(h["destination"]);
      if me.Some? && InChannel(p, me.value, c) then (p, Accepted)
      else if me.None? && HasMembers(p, c) then (p, Crashed)
      else (Logout(p, conn), Refused("user is not subscribed to channel"))
  }

  ghost function PlainCommand(p: Plain, conn: nat, me: Option<string>, command: Command, h: map<string, string>)
    : (Plain, Verdict)
  {
    match command
    case CONNECT => PlainConnect(p, conn, h)
    case SEND => PlainSend(p, conn, me, h)
    case SUBSCRIBE => PlainSubscribe(p, conn, me, h)
    case UNSUBSCRIBE => PlainUnsubscribe(p, conn, me, h)
    case DISCONNECT => PlainDisconnect(p, conn, h)
  }

  ghost function PlainFrame(p: Plain, conn: nat, me: Option<string>, f: Parts): (Plain, Verdict) {
    if CommandOf(f.command).None? then (p, Ignored)
    else if f.headers.None? then (p, Crashed)
    else PlainCommand(p, conn, me, CommandIn(f), HeadersIn(f))
  }

  /** The name remembered after a frame: that of the last login accepted and not taken back by DISCONNECT. */
  function NameAfter(me: Option<string>, f: Parts, v: Verdict): Option<string> {
    if !IsCommand(f) || !v.Accepted? then me
    else if CommandIn(f) == CONNECT && "login" in HeadersIn(f) then Some(HeadersIn(f)["login"])
    else if CommandIn(f) == DISCONNECT then None
    else me
  }

  /** Who should get a message published by `sender`, and under which subscription id. */
  ghost function Recipients(p: Plain, sender: string, channel: string): set<(nat, string)> {
    set x, k | x in p.subs && k in p.login && x.channel == channel && x.user != sender && p.login[k] == x.user
      :: (k, x.id)
  }

  // ---------------------------------------------------------------- abstraction

  ghost function Subs(t: Tables): set<Sub> {
    set c, u | c in t.channels && u in t.channels[c] :: Sub(u, c, t.channels[c][u].id)
  }

  ghost function Abs(t: Tables, passwords: map<string, string>): Plain {
    Plain(map k | k in t.users :: t.users[k].text, Subs(t), passwords)
  }

  function NameOf(me: Me): Option<string> {
    if me.user.Some? then Some(me.user.value.text) else None
  }

  ghost function AbsServer(s: Server): PlainServer {
    PlainServer(Abs(s.tables, s.passwords), map k | k in s.live && s.live[k].user.Some? :: s.live[k].user.value.text)
  }

  lemma SubsHolds(t: Tables, u: string, c: string, s: string)
    ensures Sub(u, c, s) in Subs(t) <==> Subscribed(t, u, c, s)
  {
  }

  lemma MemberHolds(t: Tables, passwords: map<string, string>, u: string, c: string)
    ensures InChannel(Abs(t, passwords), u, c) <==> IsMember(t, c, u)
  {
    if IsMember(t, c, u) {
      SubsHolds(t, u, c, t.channels[c][u].id);
    }
  }

  /** With both indexes inverse, a lookup by id is a lookup in the relation. */
  lemma HasIdHolds(t: Tables, passwords: map<string, string>, u: string, s: string)
    requires Consistent(t)
    ensures HasId(Abs(t, passwords), u, s) <==> MayUnsubscribe(t, s, u)
  {
    if MayUnsubscribe(t, s, u) {
      var c := Ids(t, u)[s];
      assert Listed(t, u, c, s);
      assert Subscribed(t, u, c, s);
      SubsHolds(t, u, c, s);
    }
    if c :| Sub(u, c, s) in Subs(t) {
      SubsHolds(t, u, c, s);
      assert Listed(t, u, c, s);
    }
  }

  lemma HasMembersHolds(t: Tables, passwords: map<string, string>, c: string)
    requires Consistent(t)
    ensures HasMembers(Abs(t, passwords), c) <==> c in t.channels
  {
    if c in t.channels {
      var u :| u in t.channels[c];
      SubsHolds(t, u, c, t.channels[c][u].id);
    }
  }

  lemma DisconnectSubs(t: Tables, conn: nat, x: Sub)
    ensures x in Subs(Disconnect(t, conn)) <==> x in Subs(t) && !(conn in t.users && t.users[conn].text == x.user)
  {
    SubsHolds(Disconnect(t, conn), x.user, x.channel, x.id);
    SubsHolds(t, x.user, x.channel, x.id);
    DisconnectEffect(t, conn, x.user, x.channel, x.id);
  }

  lemma DisconnectSubsRefine(t: Tables, passwords: map<string, string>, conn: nat)
    ensures Subs(Disconnect(t, conn)) == Logout(Abs(t, passwords), conn).subs
  {
    var q := Disconnect(t, conn);
    forall x: Sub
      ensures x in Subs(q) <==> x in Logout(Abs(t, passwords), conn).subs
    {
      DisconnectSubs(t, conn, x);
    }
  }

  lemma DisconnectRefines(t: Tables, passwords: map<string, string>, conn: nat)
    ensures Abs(Disconnect(t, conn), passwords) == Logout(Abs(t, passwords), conn)
  {
    DisconnectSubsRefine(t, passwords, conn);
  }

  lemma LoggedInHolds(t: Tables, passwords: map<string, string>, u: string)
    ensures LoggedIn(t, u) <==> u in Abs(t, passwords).login.Values
  {
    var p := Abs(t, passwords);
    if LoggedIn(t, u) {
      var k :| k in t.users && t.users[k].text == u;
      assert p.login[k] == u;
    }
    if u in p.login.Values {
      var k :| k in p.login && p.login[k] == u;
      assert t.users[k].text == u;
    }
  }

  lemma ConnectRefines(w: World, conn: nat, h: map<string, string>, addr: nat)
    ensures var (q, v) := OnConnect(w, conn, h, addr);
      (Abs(q.tables, q.passwords), v) == PlainConnect(Abs(w.tables, w.passwords), conn, h)
  {
    if "login" in h && "passcode" in h {
      var name := Name(h["login"], addr);
      LoggedInHolds(w.tables, w.passwords, h["login"]);
      if MayLogIn(w.tables, conn, h["login"]) {
        var t := ConnectUser(w.tables, conn, name);
        assert Subs(t) == Subs(w.tables);
        assert Abs(t, w.passwords).login == Abs(w.tables, w.passwords).login[conn := h["login"]];
      }
    }
  }

  lemma SubscribeAdds(t: Tables, c: string, s: string, name: Name)
    requires !IsMember(t, c, name.text)
    ensures Subs(Subscribe(t, c, s, name)) == Subs(t) + {Sub(name.text, c, s)}
  {
    var q := Subscribe(t, c, s, name);
    forall x: Sub
      ensures x in Subs(q) <==> x in Subs(t) || x == Sub(name.text, c, s)
    {
      SubsHolds(q, x.user, x.channel, x.id);
      SubsHolds(t, x.user, x.channel, x.id);
      SubscribeEffect(t, c, s, name, x.user, x.channel, x.id);
    }
  }

  lemma SubscribeRefines(w: World, conn: nat, h: map<string, string>)
    requires Consistent(w.tables)
    requires "destination" in h && w.me.user.None? ==> ChannelOf(h["destination"]) in w.tables.channels
    ensures var (q, v) := OnSubscribe(w, conn, h);
      (Abs(q.tables, q.passwords), v) == PlainSubscribe(Abs(w.tables, w.passwords), conn, NameOf(w.me), h)
  {
    if "destination" in h && "id" in h {
      var c := ChannelOf(h["destination"]);
      if w.me.user.None? {
        assert w.tables.channels[c := Channel(w.tables, c)] == w.tables.channels;
      } else {
        var u := w.me.user.value;
        MemberHolds(w.tables, w.passwords, u.text, c);
        if IsMember(w.tables, c, u.text) {
          SubscribeAgain(w.tables, c, h["id"], u);
          DisconnectRefines(w.tables, w.passwords, conn);
        } else {
          SubscribeAdds(w.tables, c, h["id"], u);
        }
      }
    }
  }

  lemma UnsubscribeRemoves(t: Tables, s: string, u: string)
    requires Consistent(t) && MayUnsubscribe(t, s, u)
    ensures Subs(UnsubscribeById(t, s, u)) == set x | x in Subs(t) && !(x.user == u && x.id == s)
  {
    var q := UnsubscribeById(t, s, u);
    forall x: Sub
      ensures x in Subs(q) <==> x in Subs(t) && !(x.user == u && x.id == s)
    {
      SubsHolds(q, x.user, x.channel, x.id);
      SubsHolds(t, x.user, x.channel, x.id);
      UnsubscribeEffect(t, s, u, x.user, x.channel, x.id);
    }
  }

  lemma UnsubscribeRefines(w: World, conn: nat, h: map<string, string>)
    requires Consistent(w.tables)
    ensures var (q, v) := OnUnsubscribe(w, conn, h);
      (Abs(q.tables, q.passwords), v) == PlainUnsubscribe(Abs(w.tables, w.passwords), conn, NameOf(w.me), h)
  {
    if "id" in h && w.me.user.Some? {
      var u := w.me.user.value.text;
      HasIdHolds(w.tables, w.passwords, u, h["id"]);
      if MayUnsubscribe(w.tables, h["id"], u) {
        UnsubscribeRemoves(w.tables, h["id"], u);
      } else {
        DisconnectRefines(w.tables, w.passwords, conn);
      }
    }
  }

  lemma SendRefines(w: World, conn: nat, h: map<string, string>, sent: nat)
    requires Consistent(w.tables)
    ensures var (q, v) := OnSend(w, conn, h, sent, false);
      (Abs(q.tables, q.passwords), v) == PlainSend(Abs(w.tables, w.passwords), conn, NameOf(w.me), h)
  {
    if "destination" in h {
      var c := ChannelOf(h["destination"]);
      HasMembersHolds(w.tables, w.passwords, c);
      DisconnectRefines(w.tables, w.passwords, conn);
      if w.me.user.Some? {
        MemberHolds(w.tables, w.passwords, w.me.user.value.text, c);
      }
    }
  }

  lemma CommandRefines(w: World, conn: nat, command: Command, h: map<string, string>, addr: nat, sent: nat)
    requires Consistent(w.tables)
    requires command.SUBSCRIBE? && "destination" in h && w.me.user.None? ==>
      ChannelOf(h["destination"]) in w.tables.channels
    ensures var (q, v) := OnCommand(w, conn, command, h, addr, sent, false);
      (Abs(q.tables, q.passwords), v) == PlainCommand(Abs(w.tables, w.passwords), conn, NameOf(w.me), command, h)
  {
    match command
    case CONNECT => ConnectRefines(w, conn, h, addr);
    case SEND => SendRefines(w, conn, h, sent);
    case SUBSCRIBE => SubscribeRefines(w, conn, h);
    case UNSUBSCRIBE => UnsubscribeRefines(w, conn, h);
    case DISCONNECT => DisconnectRefines(w.tables, w.passwords, conn);
  }

  // ---------------------------------------------------------------- fan-out

  predicate Reached(ds: seq<Delivery>, k: nat, s: string) {
    exists i :: 0 <= i < |ds| && ds[i].conn == k && ds[i].subscription == s
  }

  /** Member `u` other than the sender is at connection `k`, subscribed under `s`. */
  predicate Due(t: Tables, c: string, sender: string, u: string, k: nat, s: string) {
    && u != sender && IsMember(t, c, u) && k in t.users && t.users[k].text == u
    && t.channels[c][u].id == s
  }

  lemma ReachedSnoc(ds: seq<Delivery>, d: Delivery, k: nat, s: string)
    ensures Reached(ds + [d], k, s) <==> Reached(ds, k, s) || (d.conn == k && d.subscription == s)
  {
    if Reached(ds, k, s) {
      var i :| 0 <= i < |ds| && ds[i].conn == k && ds[i].subscription == s;
      assert (ds + [d])[i] == ds[i];
    }
    assert (ds + [d])[|ds|] == d;
  }

  lemma {:induction false} FanOutReaches(t: Tables, c: string, sender: string, body: Option<string>,
                                         order: seq<string>, ds: seq<Delivery>, k: nat, s: string)
    requires Consistent(t) && FansOut(t, c, sender, body, order, ds)
    ensures Reached(ds, k, s) <==> exists u :: u in order && Due(t, c, sender, u, k, s)
  {
    if order != [] {
      var before, u := order[..|order| - 1], order[|order| - 1];
      assert forall v :: v in order <==> v in before || v == u;
      if u != sender && IsMember(t, c, u) {
        var conn := IdentityLookupAgrees(t, c, u);
        assert ScanFinds(t.users, t.channels[c][u].key, Some(conn));
        var init, d := ds[..|ds| - 1], ds[|ds| - 1];
        FanOutReaches(t, c, sender, body, before, init, k, s);
        assert ds == init + [d];
        ReachedSnoc(init, d, k, s);
        SubscriptionIdAgrees(t, c, u, d.subscription);
        assert d.conn == conn;
        assert Due(t, c, sender, u, k, s) <==> d.conn == k && d.subscription == s;
      } else {
        FanOutReaches(t, c, sender, body, before, ds, k, s);
      }
    }
  }

  lemma {:induction false} FanOutOnce(t: Tables, c: string, sender: string, body: Option<string>,
                                      order: seq<string>, ds: seq<Delivery>)
    requires Consistent(t) && FansOut(t, c, sender, body, order, ds)
    requires forall i, j :: 0 <= i < j < |order| ==> order[i] != order[j]
    ensures forall i, j :: 0 <= i < j < |ds| ==> ds[i].conn != ds[j].conn
    ensures forall i :: 0 <= i < |ds| ==> ds[i].channel == c && ds[i].body == body
  {
    if order != [] {
      var before, u := order[..|order| - 1], order[|order| - 1];
      if u != sender && IsMember(t, c, u) {
        var conn := IdentityLookupAgrees(t, c, u);
        assert ScanFinds(t.users, t.channels[c][u].key, Some(conn));
        var init, d := ds[..|ds| - 1], ds[|ds| - 1];
        FanOutOnce(t, c, sender, body, before, init);
        forall i | 0 <= i < |init|
          ensures init[i].conn != d.conn
        {
          FanOutReaches(t, c, sender, body, before, init, init[i].conn, init[i].subscription);
          assert Reached(init, init[i].conn, init[i].subscription);
          var v :| v in before && Due(t, c, sender, v, init[i].conn, init[i].subscription);
          assert v != u;
        }
        assert ds == init + [d];
      } else {
        FanOutOnce(t, c, sender, body, before, ds);
      }
    }
  }

  /**
   A published frame reaches each subscriber of the channel other than its sender
   exactly once, under that subscriber's own id, and nobody else.
   */
  lemma FanOutExact(s: Server, e: Event)
    requires Consistent(s.tables) && Can(s, e) && e.Frame? && Publishes(View(s, e.conn), e.parts)
    ensures var p, sender := Abs(s.tables, s.passwords), s.live[e.conn].user.value.text;
      && (forall k: nat, id :: Reached(e.sent, k, id) <==> (k, id) in Recipients(p, sender, Destination(e.parts)))
      && (forall i, j :: 0 <= i < j < |e.sent| ==> e.sent[i].conn != e.sent[j].conn)
      && (forall i :: 0 <= i < |e.sent| ==>
            e.sent[i].channel == Destination(e.parts) && e.sent[i].body == e.parts.body)
  {
    var w, t, f := View(s, e.conn), s.tables, e.parts;
    var p, c, sender := Abs(t, s.passwords), Destination(f), w.me.user.value.text;
    NothingBreaks(w, f, e.sent, e.broken);
    var order :| SendsInOrder(w, f, order, e.sent, e.broken);
    FanOutOnce(t, c, sender, f.body, order, e.sent);
    forall k: nat, id
      ensures Reached(e.sent, k, id) <==> (k, id) in Recipients(p, sender, c)
    {
      FanOutReaches(t, c, sender, f.body, order, e.sent, k, id);
      DueIsRecipient(t, s.passwords, sender, c, k, id);
    }
  }

  lemma DueIsRecipient(t: Tables, passwords: map<string, string>, sender: string, c: string, k: nat, id: string)
    ensures (k, id) in Recipients(Abs(t, passwords), sender, c)
       <==> exists u :: u in Channel(t, c).Keys && Due(t, c, sender, u, k, id)
  {
    var p := Abs(t, passwords);
    if u :| u in Channel(t, c).Keys && Due(t, c, sender, u, k, id) {
      SubsHolds(t, u, c, id);
      var x := Sub(u, c, id);
      assert x in p.subs && k in p.login && x.channel == c && x.user != sender && p.login[k] == x.user;
      assert (k, x.id) in Recipients(p, sender, c);
    }
    if (k, id) in Recipients(p, sender, c) {
      var x :| x in p.subs && k in p.login && x.channel == c && x.user != sender
        && p.login[k] == x.user && x.id == id;
      SubsHolds(t, x.user, c, id);
      assert x.user in Channel(t, c).Keys && Due(t, c, sender, x.user, k, id);
    }
  }

  // ---------------------------------------------------------------- simulation

  function KnownAs(known: map<nat, string>, conn: nat): Option<string> {
    if conn in known then Some(known[conn]) else None
  }

  function Remember(known: map<nat, string>, conn: nat, name: Option<string>): map<nat, string> {
    if name.Some? then known[conn := name.value] else known - {conn}
  }

  /** The plain server's step for the same event. */
  ghost function PlainStep(p: PlainServer, e: Event): PlainServer {
    match e
    case Open => p
    case Frame(conn, f, _, _, _) =>
      var me := KnownAs(p.known, conn);
      var (q, v) := PlainFrame(p.base, conn, me, f);
      PlainServer(q, Remember(p.known, conn, NameAfter(me, f, v)))
    case Close(conn) => p.(base := Logout(p.base, conn))
  }

  lemma FrameRefines(w: World, conn: nat, f: Parts, addr: nat, sent: nat)
    requires Consistent(w.tables)
    requires Subscribes(f) && w.me.user.None? ==> Destination(f) in w.tables.channels
    ensures var (q, v) := Handle(w, conn, f, addr, sent, false);
      (Abs(q.tables, q.passwords), v) == PlainFrame(Abs(w.tables, w.passwords), conn, NameOf(w.me), f)
  {
    if IsCommand(f) {
      if CommandIn(f).SUBSCRIBE? ==> Subscribes(f) {
        CommandRefines(w, conn, CommandIn(f), HeadersIn(f), addr, sent);
      }
    }
  }

  lemma NameFollows(w: World, conn: nat, f: Parts, addr: nat, sent: nat, broken: bool)
    ensures var (q, v) := Handle(w, conn, f, addr, sent, broken);
      NameOf(q.me) == NameAfter(NameOf(w.me), f, v)
  {
    if IsCommand(f) {
      var h := HeadersIn(f);
      match CommandIn(f) {
        case CONNECT =>
        case SEND =>
        case SUBSCRIBE => SubscribeKeepsName(w, conn, h);
        case UNSUBSCRIBE => UnsubscribeKeepsName(w, conn, h);
        case DISCONNECT =>
      }
    }
  }

  lemma SubscribeKeepsName(w: World, conn: nat, h: map<string, string>)
    ensures OnSubscribe(w, conn, h).0.me.user == w.me.user
  {
  }

  lemma UnsubscribeKeepsName(w: World, conn: nat, h: map<string, string>)
    ensures OnUnsubscribe(w, conn, h).0.me.user == w.me.user
  {
  }

  lemma FrameStepRefines(s: Server, e: Event)
    requires Consistent(s.tables) && Can(s, e) && WellBehaved(s, e) && e.Frame?
    ensures AbsServer(Do(s, e)) == PlainStep(AbsServer(s), e) && VerdictRefines(s, e)
  {
    var conn, w := e.conn, View(s, e.conn);
    NothingBreaks(w, e.parts, e.sent, e.broken);
    FrameRefines(w, conn, e.parts, e.addr, |e.sent|);
    NameFollows(w, conn, e.parts, e.addr, |e.sent|, false);
    assert KnownAs(AbsServer(s).known, conn) == NameOf(w.me);
    KnownFollows(s, conn, Do(s, e));
  }

  lemma KnownFollows(s: Server, conn: nat, q: Server)
    requires conn in q.live && q.live == s.live[conn := q.live[conn]]
    ensures AbsServer(q).known == Remember(AbsServer(s).known, conn, NameOf(q.live[conn]))
  {
  }

  ghost predicate VerdictRefines(s: Server, e: Event)
    requires e.Frame? && e.conn in s.live
  {
    var p := AbsServer(s);
    Sessions.Verdict(s, e) == PlainFrame(p.base, e.conn, KnownAs(p.known, e.conn), e.parts).1
  }

  lemma StepRefines(s: Server, e: Event)
    requires Consistent(s.tables) && Can(s, e) && WellBehaved(s, e)
    requires e.Open? ==> s.tables.nextConn !in s.live
    ensures AbsServer(Do(s, e)) == PlainStep(AbsServer(s), e)
    ensures e.Frame? ==> VerdictRefines(s, e)
  {
    match e
    case Open =>
    case Close(conn) => DisconnectRefines(s.tables, s.passwords, conn);
    case Frame(_, _, _, _, _) => FrameStepRefines(s, e);
  }

  /** The plain server's states for a sequence of events. */
  ghost function PlainAfter(events: seq<Event>): PlainServer {
    if events == [] then PlainServer(Plain(map[], {}, map[]), map[])
    else PlainStep(PlainAfter(events[..|events| - 1]), events[|events| - 1])
  }

  lemma {:induction false} StatesAgree(trace: seq<Server>, events: seq<Event>, i: nat)
    requires IsRun(trace, events) && i < |trace|
    ensures AbsServer(trace[i]) == PlainAfter(events[..i])
  {
    if i > 0 {
      StatesAgree(trace, events, i - 1);
      RunKeepsConsistent(trace, events, i - 1);
      RunKeepsSound(trace, events, i - 1);
      assert KnowsItself(trace[i - 1], trace[i - 1].tables.nextConn);
      assert StepAt(trace, events, i - 1);
      StepRefines(trace[i - 1], events[i - 1]);
      assert events[..i][..i - 1] == events[..i - 1];
    }
  }

  /**
   Over any run of well-behaved clients, the tables are at all times those of the
   plain server, and every frame is accepted, refused with the same reason,
   ignored or crashes exactly as there.
   */
  lemma RunRefines(trace: seq<Server>, events: seq<Event>, i: nat)
    requires IsRun(trace, events) && i < |events|
    ensures AbsServer(trace[i]) == PlainAfter(events[..i])
    ensures events[i].Frame? ==> events[i].conn in trace[i].live
    ensures var e, p := events[i], PlainAfter(events[..i]);
      e.Frame? ==>
        Sessions.Verdict(trace[i], e) == PlainFrame(p.base, e.conn, KnownAs(p.known, e.conn), e.parts).1
  {
    StatesAgree(trace, events, i);
    RunKeepsConsistent(trace, events, i);
    RunKeepsSound(trace, events, i);
    assert KnowsItself(trace[i], trace[i].tables.nextConn);
    assert StepAt(trace, events, i);
    StepRefines(trace[i], events[i]);
  }
}
