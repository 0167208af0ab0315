/**
 What each command of the client does at the server, from the text of its frame
 to the shared tables: `login`, `join`, `exit`, `logout` and `report`.
 */
module Commands {
  import opened Wrappers
  import opened Text
  import opened StompText
  import opened Registry
  import opened Consistency
  import opened Protocol
  import opened Reports
  import C = Client
  import E = Events

  // ---------------------------------------------------------------- the frames, as the server reads them

  lemma OneHeader(a: (string, string))
    requires ':' !in a.0 && Trimmed(a.0, JavaSpace)
    ensures HeaderMap([a.0 + ":" + a.1]) == map[a.0 := JavaTrim(a.1)]
  {
    var x := a.0 + ":" + a.1;
    assert [] + [x] == [x];
    EntryAdds([], a);
  }

  lemma TwoHeaders(a: (string, string), b: (string, string))
    requires ':' !in a.0 && ':' !in b.0 && Trimmed(a.0, JavaSpace) && Trimmed(b.0, JavaSpace)
    ensures HeaderMap([a.0 + ":" + a.1, b.0 + ":" + b.1]) == map[][a.0 := JavaTrim(a.1)][b.0 := JavaTrim(b.1)]
  {
    var x, y := a.0 + ":" + a.1, b.0 + ":" + b.1;
    assert [x, y] == [x] + [y];
    OneHeader(a);
    EntryAdds([x], b);
  }

  lemma JoinTwo(a: string, b: string)
    ensures Join([a, b], NL) == a + "\n" + b
  {
  }

  lemma JoinThree(a: string, b: string, c: string)
    ensures Join([a, b, c], NL) == a + "\n" + b + "\n" + c
  {
    assert [a, b, c][1..] == [b, c];
    JoinTwo(b, c);
    assert a + "\n" + (b + "\n" + c) == a + "\n" + b + "\n" + c;
  }

  /** The server reads the client's UNSUBSCRIBE as the client meant it. */
  lemma ExitArrives(id: string, receipt: string)
    requires NL !in id && NL !in receipt
    ensures var f := Cut(C.UnsubscribeFrame(id, receipt));
      && f.command == "UNSUBSCRIBE" && f.headers.Some?
      && HeaderMap(f.headers.value) == map["id" := JavaTrim(id), "receipt" := JavaTrim(receipt)]
  {
    var a, b := "id:" + id, "receipt:" + receipt;
    JoinThree("UNSUBSCRIBE", a, b);
    assert ["UNSUBSCRIBE"] + [a, b] == ["UNSUBSCRIBE", a, b];
    assert C.UnsubscribeFrame(id, receipt) == Printed("UNSUBSCRIBE", [a, b], "") by {
      assert "UNSUBSCRIBE\n" == "UNSUBSCRIBE" + "\n" && "\nreceipt:" + receipt == "\n" + b;
      assert "id:" + id + "\nreceipt:" + receipt + "\n\n" == a + ("\n" + b) + "\n\n";
    }
    CutOfPrinted("UNSUBSCRIBE", [a, b], "");
    assert a == "id" + ":" + id && b == "receipt" + ":" + receipt;
    TwoHeaders(("id", id), ("receipt", receipt));
  }

  lemma LogoutArrives(receipt: string)
    requires NL !in receipt
    ensures var f := Cut(C.DisconnectFrame(receipt));
      && f.command == "DISCONNECT" && f.headers.Some?
      && HeaderMap(f.headers.value) == map["receipt" := JavaTrim(receipt)]
  {
    var a := "receipt:" + receipt;
    JoinTwo("DISCONNECT", a);
    assert ["DISCONNECT"] + [a] == ["DISCONNECT", a];
    assert C.DisconnectFrame(receipt) == Printed("DISCONNECT", [a], "") by {
      assert "DISCONNECT\n" == "DISCONNECT" + "\n";
    }
    CutOfPrinted("DISCONNECT", [a], "");
    assert a == "receipt" + ":" + receipt;
    OneHeader(("receipt", receipt));
  }

  lemma LoginIsPrinted(user: string, password: string)
    ensures C.ConnectFrame(user, password)
         == Printed("CONNECT",
              ["accept-version:1.2", "host:stomp.cs.bgu.ac.il", "login:" + user, "passcode:" + password], "")
  {
    var a, b, c, d := "accept-version:1.2", "host:stomp.cs.bgu.ac.il", "login:" + user, "passcode:" + password;
    JoinFour(a, b, c, d);
    assert ([("CONNECT")] + [a, b, c, d])[1..] == [a, b, c, d];
    assert Join(["CONNECT"] + [a, b, c, d], NL) == "CONNECT" + "\n" + Join([a, b, c, d], NL);
    assert "accept-version:1.2\n" == a + "\n" && "host:stomp.cs.bgu.ac.il\nlogin:" + user == b + ("\n" + c);
    assert "\npasscode:" + password == "\n" + d;
    var text := a + "\n" + b + "\n" + c + "\n" + d;
    assert a + "\n" + (b + ("\n" + c) + ("\n" + d) + "\n\n") == text + "\n\n";
    assert "CONNECT\n" + (text + "\n\n") == "CONNECT" + "\n" + text + "\n\n";
  }

  lemma LoginCut(user: string, password: string)
    requires NL !in user && NL !in password
    ensures Cut(C.ConnectFrame(user, password))
         == Parts("CONNECT",
              Some(["accept-version:1.2", "host:stomp.cs.bgu.ac.il", "login:" + user, "passcode:" + password]),
              Some(""))
  {
    LoginIsPrinted(user, password);
    var hs := ["accept-version:1.2", "host:stomp.cs.bgu.ac.il", "login:" + user, "passcode:" + password];
    assert forall h :: h in hs ==> Line(h);
    CutOfPrinted("CONNECT", hs, "");
  }

  lemma LastTwoOfFour(a: (string, string), b: (string, string), c: (string, string), d: (string, string), other: string)
    requires ':' !in a.0 && ':' !in b.0 && ':' !in c.0 && ':' !in d.0 && c.0 != d.0
    requires Trimmed(a.0, JavaSpace) && Trimmed(b.0, JavaSpace) && Trimmed(c.0, JavaSpace) && Trimmed(d.0, JavaSpace)
    requires other !in {a.0, b.0, c.0, d.0}
    ensures var h := HeaderMap([a.0 + ":" + a.1, b.0 + ":" + b.1, c.0 + ":" + c.1, d.0 + ":" + d.1]);
      && c.0 in h && h[c.0] == JavaTrim(c.1) && d.0 in h && h[d.0] == JavaTrim(d.1) && other !in h
  {
    var w, x, y, z := a.0 + ":" + a.1, b.0 + ":" + b.1, c.0 + ":" + c.1, d.0 + ":" + d.1;
    ThreeHeaders(a, b, c);
    assert [w, x, y, z] == [w, x, y] + [z];
    EntryAdds([w, x, y], d);
  }

  lemma LoginHeaders(user: string, password: string)
    ensures var h :=
        HeaderMap(["accept-version:1.2", "host:stomp.cs.bgu.ac.il", "login:" + user, "passcode:" + password]);
      && "login" in h && h["login"] == JavaTrim(user) && "passcode" in h && h["passcode"] == JavaTrim(password)
      && "receipt" !in h
  {
    assert "accept-version:1.2" == "accept-version" + ":" + "1.2";
    assert "host:stomp.cs.bgu.ac.il" == "host" + ":" + "stomp.cs.bgu.ac.il";
    assert "login:" + user == "login" + ":" + user && "passcode:" + password == "passcode" + ":" + password;
    assert "receipt"[0] == 'r' && "accept-version"[0] == 'a' && "host"[0] == 'h' && "login"[0] == 'l';
    assert "passcode"[0] == 'p';
    LastTwoOfFour(("accept-version", "1.2"), ("host", "stomp.cs.bgu.ac.il"), ("login", user), ("passcode", password),
                  "receipt");
  }

  lemma LoginArrives(user: string, password: string)
    requires NL !in user && NL !in password
    ensures var f := Cut(C.ConnectFrame(user, password));
      && f.command == "CONNECT" && f.headers.Some?
      && var h := HeaderMap(f.headers.value);
        && "login" in h && h["login"] == JavaTrim(user) && "passcode" in h && h["passcode"] == JavaTrim(password)
        && "receipt" !in h
  {
    LoginCut(user, password);
    LoginHeaders(user, password);
  }

  // ---------------------------------------------------------------- what they do

  /** The connection is told to go: neither handler nor login of it is left, and its user is in no channel. */
  ghost predicate Expelled(w: World, q: World, conn: nat) {
    && q.me == w.me.(terminate := true) && Gone(w.tables, q.tables, conn)
  }

  ghost predicate Gone(t: Tables, q: Tables, conn: nat) {
    && q.users == t.users - {conn} && q.handlers == t.handlers - {conn}
    && forall u, c, s :: Subscribed(q, u, c, s)
                    <==> Subscribed(t, u, c, s) && !(conn in t.users && t.users[conn].text == u)
  }

  lemma DisconnectIsGone(t: Tables, conn: nat)
    ensures Gone(t, Disconnect(t, conn), conn)
  {
    forall u, c, s
      ensures Subscribed(Disconnect(t, conn), u, c, s)
         <==> Subscribed(t, u, c, s) && !(conn in t.users && t.users[conn].text == u)
    {
      DisconnectEffect(t, conn, u, c, s);
    }
  }

  /** The frame of `login user password`: who is let in, and as whom. */
  lemma LoginTakesEffect(w: World, conn: nat, user: string, password: string, addr: nat)
    requires NL !in user && NL !in password
    ensures var name, passcode := JavaTrim(user), JavaTrim(password);
      var (q, v) := Handle(w, conn, Cut(C.ConnectFrame(user, password)), addr, 0, false);
      && (v.Accepted? <==>
            && (name in w.passwords ==> w.passwords[name] == passcode)
            && conn !in w.tables.users && forall k :: k in w.tables.users ==> w.tables.users[k].text != name)
      && (v.Accepted? ==>
            && q.tables == w.tables.(users := w.tables.users[conn := Name(name, addr)])
            && q.me == Me(Some(Name(name, addr)), w.me.terminate))
      && (!v.Accepted? ==>
            && q.tables == w.tables && q.me == w.me.(terminate := true)
            && v == Refused(if name in w.passwords && w.passwords[name] != passcode then "Wrong password"
                            else "User already logged in"))
      && q.passwords == if name in w.passwords then w.passwords else w.passwords[name := passcode]
  {
    LoginArrives(user, password);
  }

  /** `u` is subscribed to `c` under `s`, in both indexes, and everything else is as it was. */
  ghost predicate Joins(t: Tables, q: Tables, u: string, c: string, s: string) {
    && q.users == t.users && q.handlers == t.handlers && Listed(q, u, c, s)
    && forall x, d, r :: Subscribed(q, x, d, r) <==> Subscribed(t, x, d, r) || (x, d, r) == (u, c, s)
  }

  /** The subscription of `u` under `s` has ended, in both indexes, and no other. */
  ghost predicate Leaves(t: Tables, q: Tables, u: string, s: string)
    requires u in t.subs && s in t.subs[u]
  {
    && q.users == t.users && q.handlers == t.handlers
    && (forall x, d, r :: Subscribed(q, x, d, r) <==> Subscribed(t, x, d, r) && !(x == u && d == t.subs[u][s]))
    && (forall x, d, r :: Listed(q, x, d, r) <==> Listed(t, x, d, r) && !(x == u && r == s))
  }

  lemma SubscribeJoins(t: Tables, c: string, s: string, name: Name)
    requires !IsMember(t, c, name.text)
    ensures Joins(t, Subscribe(t, c, s, name), name.text, c, s)
  {
  }

  lemma UnsubscribeLeaves(t: Tables, s: string, u: string)
    requires u in t.subs && s in t.subs[u] && IsMember(t, t.subs[u][s], u)
    ensures Leaves(t, UnsubscribeById(t, s, u), u, s)
  {
    var c, q := t.subs[u][s], UnsubscribeById(t, s, u);
    forall x, d, r
      ensures Subscribed(q, x, d, r) <==> Subscribed(t, x, d, r) && !(x == u && d == c)
    {
      WithoutEffect(t, c, u, x, d);
    }
  }

  /** The frame of `join channel`: a subscription more, or the connection is told to go. */
  lemma JoinTakesEffect(w: World, conn: nat, channel: string, id: string, receipt: string, addr: nat)
    requires NL !in channel && NL !in id && NL !in receipt && w.me.user.Some?
    ensures var u, c := w.me.user.value.text, ChannelOf(JavaTrim(channel));
      var (q, v) := Handle(w, conn, Cut(SubscribeFrame(channel, id, receipt)), addr, 0, false);
      if IsMember(w.tables, c, u) then
        v == Refused("user is already subscribed to this channel") && Expelled(w, q, conn)
      else
        v.Accepted? && q.me == w.me && Joins(w.tables, q.tables, u, c, JavaTrim(id))
  {
    SubscribeArrives(channel, id, receipt);
    var f, h := Cut(SubscribeFrame(channel, id, receipt)),
      map["destination" := JavaTrim(channel), "id" := JavaTrim(id), "receipt" := JavaTrim(receipt)];
    assert Handle(w, conn, f, addr, 0, false) == OnSubscribe(w, conn, h);
    SubscribeTakesEffect(w, conn, h);
  }

  lemma SubscribeTakesEffect(w: World, conn: nat, h: map<string, string>)
    requires w.me.user.Some? && "destination" in h && "id" in h
    ensures var u, c := w.me.user.value.text, ChannelOf(h["destination"]);
      var (q, v) := OnSubscribe(w, conn, h);
      if IsMember(w.tables, c, u) then
        v == Refused("user is already subscribed to this channel") && Expelled(w, q, conn)
      else
        v.Accepted? && q.me == w.me && Joins(w.tables, q.tables, u, c, h["id"])
  {
    var u, c, s := w.me.user.value, ChannelOf(h["destination"]), h["id"];
    if IsMember(w.tables, c, u.text) {
      assert Channel(Subscribe(w.tables, c, s, u), c) == Channel(w.tables, c);
      DisconnectIsGone(Subscribe(w.tables, c, s, u), conn);
    } else {
      SubscribeJoins(w.tables, c, s, u);
    }
  }

  /** The frame of `exit`: the membership under that id of the sender's ends, or the connection is told to go. */
  lemma ExitTakesEffect(w: World, conn: nat, id: string, receipt: string, addr: nat)
    requires NL !in id && NL !in receipt && w.me.user.Some?
    ensures var t, u, s := w.tables, w.me.user.value.text, JavaTrim(id);
      var (q, v) := Handle(w, conn, Cut(C.UnsubscribeFrame(id, receipt)), addr, 0, false);
      if u in t.subs && s in t.subs[u] && IsMember(t, t.subs[u][s], u) then
        v.Accepted? && q.me == w.me && Leaves(t, q.tables, u, s)
      else
        v == Refused("user cannot unsubscribe from a channel he's not subscribed to") && Expelled(w, q, conn)
  {
    ExitArrives(id, receipt);
    var f, h := Cut(C.UnsubscribeFrame(id, receipt)), map["id" := JavaTrim(id), "receipt" := JavaTrim(receipt)];
    assert Handle(w, conn, f, addr, 0, false) == OnUnsubscribe(w, conn, h);
    UnsubscribeTakesEffect(w, conn, h);
  }

  lemma UnsubscribeTakesEffect(w: World, conn: nat, h: map<string, string>)
    requires w.me.user.Some? && "id" in h
    ensures var t, u, s := w.tables, w.me.user.value.text, h["id"];
      var (q, v) := OnUnsubscribe(w, conn, h);
      if u in t.subs && s in t.subs[u] && IsMember(t, t.subs[u][s], u) then
        v.Accepted? && q.me == w.me && Leaves(t, q.tables, u, s)
      else
        v == Refused("user cannot unsubscribe from a channel he's not subscribed to") && Expelled(w, q, conn)
  {
    var t, u, s := w.tables, w.me.user.value.text, h["id"];
    if u in t.subs && s in t.subs[u] && IsMember(t, t.subs[u][s], u) {
      UnsubscribeLeaves(t, s, u);
    } else {
      DisconnectIsGone(t, conn);
    }
  }

  /** The frame of `logout`: nothing of the connection is left. */
  lemma LogoutTakesEffect(w: World, conn: nat, receipt: string, addr: nat)
    requires NL !in receipt
    ensures var (q, v) := Handle(w, conn, Cut(C.DisconnectFrame(receipt)), addr, 0, false);
      v.Accepted? && q.me == Me(None, true) && Gone(w.tables, q.tables, conn)
  {
    LogoutArrives(receipt);
    DisconnectIsGone(w.tables, conn);
  }

  /** A frame of `report`: published exactly by a member, whose login it otherwise costs. */
  lemma ReportTakesEffect(w: World, conn: nat, channel: string, e: E.Event, addr: nat, sent: nat, broken: bool)
    requires NL !in Trim(channel) && w.me.user.Some?
    ensures var t, u, c, f := w.tables, w.me.user.value.text, Landing(channel), Cut(ReportFrame(channel, e));
      var (q, v) := Handle(w, conn, f, addr, sent, broken);
      && (Publishes(w, f) <==> IsMember(t, c, u))
      && if IsMember(t, c, u) then
           q.me == w.me && q.tables == t.(nextMessage := q.tables.nextMessage) && (v.Accepted? <==> !broken)
         else
           v == Refused("user is not subscribed to channel") && Expelled(w, q, conn)
  {
    CutOfReport(channel, e);
    DisconnectIsGone(w.tables, conn);
  }

  /** Any other command is ignored; one of the five without a header line throws. */
  lemma OtherCommands(w: World, conn: nat, f: Parts, addr: nat, sent: nat, broken: bool)
    ensures f.command !in {"CONNECT", "SEND", "SUBSCRIBE", "UNSUBSCRIBE", "DISCONNECT"} ==>
      Handle(w, conn, f, addr, sent, broken) == (w, Ignored) && Answer(f, w.me, Ignored).None?
    ensures f.command in {"CONNECT", "SEND", "SUBSCRIBE", "UNSUBSCRIBE", "DISCONNECT"} && f.headers.None? ==>
      Handle(w, conn, f, addr, sent, broken) == (w, Crashed)
  {
  }
}
