/**
 The invariant of the shared tables, and exactly which operations keep it.
 */
module Consistency {
  import opened Wrappers
  import opened Registry

  /** The subscription relation as the channel index has it ... */
  predicate Subscribed(t: Tables, u: string, c: string, s: string) {
    c in t.channels && u in t.channels[c] && t.channels[c][u].id == s
  }

  /** ... and as the user index has it. */
  predicate Listed(t: Tables, u: string, c: string, s: string) {
    u in t.subs && s in t.subs[u] && t.subs[u][s] == c
  }

  ghost predicate Inverse(t: Tables) {
    forall u, c, s :: Subscribed(t, u, c, s) <==> Listed(t, u, c, s)
  }

  ghost predicate NoEmptyChannel(t: Tables) {
    forall c :: c in t.channels ==> t.channels[c] != map[]
  }

  /** `conn` is logged in under this very string object. */
  predicate Holds(t: Tables, conn: nat, name: Name) {
    conn in t.users && t.users[conn] == name
  }

  /** The key object a channel keeps for a member is the one it logged in with. */
  ghost predicate KeyShared(t: Tables, c: string, u: string) {
    c in t.channels && u in t.channels[c] ==>
      t.channels[c][u].key.text == u && exists conn :: Holds(t, conn, t.channels[c][u].key)
  }

  ghost predicate KeysShared(t: Tables) {
    forall c, u :: KeyShared(t, c, u)
  }

  ghost predicate SubscribersLoggedIn(t: Tables) {
    forall u :: u in t.subs ==> LoggedIn(t, u)
  }

  predicate OneSessionPerUser(t: Tables) {
    forall a, b :: a in t.users && b in t.users && t.users[a].text == t.users[b].text ==> a == b
  }

  predicate UsersHaveHandlers(t: Tables) {
    && t.users.Keys <= t.handlers
    && forall h :: h in t.handlers ==> h < t.nextConn
  }

  /** What looking members up by reference rests on. */
  ghost predicate Keyed(t: Tables) {
    KeysShared(t) && OneSessionPerUser(t) && UsersHaveHandlers(t)
  }

  ghost predicate Consistent(t: Tables) {
    Keyed(t) && Inverse(t) && NoEmptyChannel(t) && SubscribersLoggedIn(t)
  }

  /** Some connection is logged in under this very string object. */
  ghost predicate Held(t: Tables, name: Name) {
    exists k :: Holds(t, k, name)
  }

  // ---------------------------------------------------------------- members and their key objects

  /** Members and logins that only grow on the login side keep their keys shared. */
  lemma MoreLogins(t: Tables, q: Tables)
    requires KeysShared(t) && q.channels == t.channels
    requires forall k, name :: Holds(t, k, name) ==> Holds(q, k, name)
    ensures KeysShared(q)
  {
    forall c, u
      ensures KeyShared(q, c, u)
    {
      assert KeyShared(t, c, u);
      if c in t.channels && u in t.channels[c] {
        var k :| Holds(t, k, t.channels[c][u].key);
        assert Holds(q, k, t.channels[c][u].key);
      }
    }
  }

  /** A login that the handler's connection no longer backs is the one way to lose a handler. */
  lemma ConnectUserKeyed(t: Tables, conn: nat, name: Name)
    requires Keyed(t) && MayLogIn(t, conn, name.text)
    ensures Keyed(ConnectUser(t, conn, name)) <==> conn in t.handlers
  {
    var q := ConnectUser(t, conn, name);
    assert forall k, n :: Holds(t, k, n) ==> Holds(q, k, n);
    MoreLogins(t, q);
    assert conn in q.users;
  }

  lemma ConnectHandlerKeyed(t: Tables)
    requires Keyed(t)
    ensures Keyed(ConnectHandler(t))
  {
    assert forall k, n :: Holds(t, k, n) ==> Holds(ConnectHandler(t), k, n);
    MoreLogins(t, ConnectHandler(t));
  }

  /** A new member's key is shared exactly if someone is logged in under that object. */
  lemma SubscribeKeyed(t: Tables, c: string, s: string, name: Name)
    requires Keyed(t) && !IsMember(t, c, name.text)
    ensures Keyed(Subscribe(t, c, s, name)) <==> Held(t, name)
  {
    var q := Subscribe(t, c, s, name);
    assert q.channels[c][name.text].key == name;
    assert forall k, n :: Holds(q, k, n) <==> Holds(t, k, n);
    assert KeysShared(q) ==> KeyShared(q, c, name.text);
    if Held(t, name) {
      forall d, u
        ensures KeyShared(q, d, u)
      {
        assert KeyShared(t, d, u);
        if d in q.channels && u in q.channels[d] && !(d == c && u == name.text) {
          var k :| Holds(t, k, t.channels[d][u].key);
          assert Holds(q, k, q.channels[d][u].key);
        }
      }
    }
  }

  /** The member, its entry and its login are as before. */
  ghost predicate Stays(t: Tables, q: Tables, c: string, u: string) {
    && IsMember(t, c, u) && IsMember(q, c, u) && Channel(q, c)[u] == Channel(t, c)[u]
    && forall k :: Holds(t, k, Channel(t, c)[u].key) ==> Holds(q, k, Channel(t, c)[u].key)
  }

  /** Leaving channels and logging out others does no harm to the members that stay. */
  lemma FewerMembers(t: Tables, q: Tables)
    requires KeysShared(t) && forall c, u :: IsMember(q, c, u) ==> Stays(t, q, c, u)
    ensures KeysShared(q)
  {
    forall c, u
      ensures KeyShared(q, c, u)
    {
      if IsMember(q, c, u) {
        assert Stays(t, q, c, u) && KeyShared(t, c, u);
        var k :| Holds(t, k, t.channels[c][u].key);
        assert Holds(q, k, q.channels[c][u].key);
      }
    }
  }

  lemma UnsubscribeKeyed(t: Tables, s: string, u: string)
    requires Keyed(t)
    ensures Keyed(UnsubscribeById(t, s, u))
  {
    if MayUnsubscribe(t, s, u) {
      var c, q := t.subs[u][s], UnsubscribeById(t, s, u);
      forall d, v | IsMember(q, d, v)
        ensures Stays(t, q, d, v)
      {
        WithoutEffect(t, c, u, v, d);
      }
      FewerMembers(t, q);
    }
  }

  lemma DisconnectKeyed(t: Tables, conn: nat)
    requires Keyed(t)
    ensures Keyed(Disconnect(t, conn))
  {
    var q := Disconnect(t, conn);
    DisconnectEffect(t, conn, "", "", "");
    forall d, v | IsMember(q, d, v)
      ensures Stays(t, q, d, v)
    {
      MemberStays(t, conn, d, v);
    }
    FewerMembers(t, q);
  }

  lemma MemberStays(t: Tables, conn: nat, d: string, v: string)
    requires KeysShared(t) && IsMember(Disconnect(t, conn), d, v)
    ensures Stays(t, Disconnect(t, conn), d, v)
  {
    DisconnectEffect(t, conn, "", "", "");
    if conn in t.users {
      LeftEffect(t.channels, t.users[conn].text, d, v);
    }
    assert KeyShared(t, d, v);
  }

  // ---------------------------------------------------------------- logging in

  lemma ConnectUserKeeps(t: Tables, conn: nat, name: Name)
    requires Consistent(t) && MayLogIn(t, conn, name.text)
    ensures Consistent(ConnectUser(t, conn, name)) <==> conn in t.handlers
  {
    var q := ConnectUser(t, conn, name);
    ConnectUserKeyed(t, conn, name);
    forall u | u in q.subs
      ensures LoggedIn(q, u)
    {
      var k :| k in t.users && t.users[k].text == u;
      assert k in q.users && q.users[k].text == u;
    }
    assert forall u, c, s :: Subscribed(q, u, c, s) <==> Subscribed(t, u, c, s);
    assert forall u, c, s :: Listed(q, u, c, s) <==> Listed(t, u, c, s);
  }

  lemma ConnectHandlerKeeps(t: Tables)
    requires Consistent(t)
    ensures Consistent(ConnectHandler(t))
  {
    var q := ConnectHandler(t);
    ConnectHandlerKeyed(t);
    assert forall u :: LoggedIn(q, u) <==> LoggedIn(t, u);
    assert forall u, c, s :: Subscribed(q, u, c, s) <==> Subscribed(t, u, c, s);
    assert forall u, c, s :: Listed(q, u, c, s) <==> Listed(t, u, c, s);
  }

  // ---------------------------------------------------------------- subscribing

  lemma SubscribeEffect(t: Tables, c: string, s: string, name: Name, u: string, d: string, r: string)
    requires !IsMember(t, c, name.text)
    ensures Subscribed(Subscribe(t, c, s, name), u, d, r)
       <==> Subscribed(t, u, d, r) || (u == name.text && d == c && r == s)
    ensures Listed(Subscribe(t, c, s, name), u, d, r)
       <==> (Listed(t, u, d, r) && !(u == name.text && r == s)) || (u == name.text && d == c && r == s)
  {
  }

  /**
   A new subscription keeps the two indexes inverse exactly when its id is not
   already one of the user's: the assumption about clients that the code states.
   */
  lemma SubscribeKeepsInverse(t: Tables, c: string, s: string, name: Name)
    requires Consistent(t) && !IsMember(t, c, name.text)
    ensures Inverse(Subscribe(t, c, s, name)) <==> s !in Ids(t, name.text)
  {
    var q := Subscribe(t, c, s, name);
    if s in Ids(t, name.text) {
      var d := Ids(t, name.text)[s];
      assert Listed(t, name.text, d, s);
      assert Subscribed(t, name.text, d, s);
      SubscribeEffect(t, c, s, name, name.text, d, s);
      assert Subscribed(q, name.text, d, s) && !Listed(q, name.text, d, s);
    } else {
      forall u, d, r
        ensures Subscribed(q, u, d, r) <==> Listed(q, u, d, r)
      {
        SubscribeEffect(t, c, s, name, u, d, r);
        assert Subscribed(t, u, d, r) <==> Listed(t, u, d, r);
      }
    }
  }

  /** An id used again for another channel: the first subscription loses its way back. */
  lemma ReusedIdBreaksIndex()
    ensures var n := Name("a", 0);
      var t := Subscribe(ConnectUser(ConnectHandler(NO_TABLES), 0, n), "x", "0", n);
      var q := Subscribe(t, "y", "0", n);
      && Subscribed(t, "a", "x", "0") && Listed(t, "a", "x", "0")
      && Subscribed(q, "a", "x", "0") && !Listed(q, "a", "x", "0")
  {
    assert "x"[0] != "y"[0];
  }

  lemma SubscribeKeeps(t: Tables, c: string, s: string, name: Name)
    requires Consistent(t) && !IsMember(t, c, name.text)
    ensures Consistent(Subscribe(t, c, s, name)) <==> Held(t, name) && s !in Ids(t, name.text)
  {
    var q := Subscribe(t, c, s, name);
    SubscribeKeyed(t, c, s, name);
    SubscribeKeepsInverse(t, c, s, name);
    if Held(t, name) {
      var k :| Holds(t, k, name);
      assert k in t.users && t.users[k].text == name.text;
    }
    assert forall u :: LoggedIn(q, u) <==> LoggedIn(t, u);
    assert name.text in q.channels[c];
  }

  /** A member that subscribes again changes nothing. */
  lemma SubscribeAgain(t: Tables, c: string, s: string, name: Name)
    requires Consistent(t) && IsMember(t, c, name.text)
    ensures Subscribe(t, c, s, name) == t
  {
    assert Subscribed(t, name.text, c, t.channels[c][name.text].id);
    assert Listed(t, name.text, c, t.channels[c][name.text].id);
  }

  // ---------------------------------------------------------------- unsubscribing

  lemma WithoutEffect(t: Tables, c: string, u: string, v: string, d: string)
    ensures IsMember(UnsubscribeByName(t, c, u), d, v) <==> IsMember(t, d, v) && !(d == c && v == u)
    ensures IsMember(UnsubscribeByName(t, c, u), d, v) ==>
      Channel(UnsubscribeByName(t, c, u), d)[v] == Channel(t, d)[v]
  {
    if c in t.channels && u in t.channels[c] {
      var members := t.channels[c] - {u};
      assert members == map[] || exists k :: k in members;
    }
  }

  lemma UnsubscribeEffect(t: Tables, s: string, u: string, v: string, d: string, r: string)
    requires Consistent(t) && MayUnsubscribe(t, s, u)
    ensures var q := UnsubscribeById(t, s, u);
      && (Subscribed(q, v, d, r) <==> Subscribed(t, v, d, r) && !(v == u && r == s))
      && (Listed(q, v, d, r) <==> Listed(t, v, d, r) && !(v == u && r == s))
  {
    var c := t.subs[u][s];
    assert Listed(t, u, c, s);
    assert Subscribed(t, u, c, s);
    WithoutEffect(t, c, u, v, d);
    if v == u && r == s && Subscribed(t, v, d, r) {
      assert Listed(t, v, d, r);
    }
  }

  lemma UnsubscribeKeeps(t: Tables, s: string, u: string)
    requires Consistent(t) && MayUnsubscribe(t, s, u)
    ensures Consistent(UnsubscribeById(t, s, u))
  {
    var q := UnsubscribeById(t, s, u);
    forall v, d, r
      ensures Subscribed(q, v, d, r) <==> Listed(q, v, d, r)
    {
      UnsubscribeEffect(t, s, u, v, d, r);
      assert Subscribed(t, v, d, r) <==> Listed(t, v, d, r);
    }
    UnsubscribeKeyed(t, s, u);
    assert forall v :: LoggedIn(q, v) <==> LoggedIn(t, v);
  }

  // ---------------------------------------------------------------- leaving

  lemma LeftEffect(channels: map<string, map<string, Entry>>, u: string, d: string, v: string)
    ensures var left := Left(channels, u, channels.Keys);
      && (d in left && v in left[d] <==> d in channels && v in channels[d] && v != u)
      && (d in left && v in left[d] ==> left[d][v] == channels[d][v])
  {
    var left := Left(channels, u, channels.Keys);
    if d in channels && v in channels[d] && v != u {
      assert v in channels[d] - {u};
    }
  }

  lemma DisconnectEffect(t: Tables, conn: nat, v: string, d: string, r: string)
    ensures var q := Disconnect(t, conn);
      && q.users == t.users - {conn} && q.handlers == t.handlers - {conn}
      && (Subscribed(q, v, d, r) <==> Subscribed(t, v, d, r) && !(conn in t.users && t.users[conn].text == v))
      && (Listed(q, v, d, r) <==> Listed(t, v, d, r) && !(conn in t.users && t.users[conn].text == v))
  {
    var q := Disconnect(t, conn);
    if conn in t.users {
      LeftEffect(t.channels, t.users[conn].text, d, v);
      assert q.users == t.users - {conn};
    } else {
      assert t.users - {conn} == t.users;
    }
  }

  lemma DisconnectKeeps(t: Tables, conn: nat)
    requires Consistent(t)
    ensures Consistent(Disconnect(t, conn))
  {
    var q := Disconnect(t, conn);
    DisconnectKeyed(t, conn);
    forall v, d, r
      ensures Subscribed(q, v, d, r) <==> Listed(q, v, d, r)
    {
      DisconnectEffect(t, conn, v, d, r);
      assert Subscribed(t, v, d, r) <==> Listed(t, v, d, r);
    }
    DisconnectEffect(t, conn, "", "", "");
    forall v | v in q.subs
      ensures LoggedIn(q, v)
    {
      var k :| k in t.users && t.users[k].text == v;
      assert k in q.users;
    }
  }

  // ---------------------------------------------------------------- lookups

  /**
   The scan by reference finds what a scan by value would: for every member of
   every channel, the one connection logged in under that name.
   */
  lemma IdentityLookupAgrees(t: Tables, c: string, u: string) returns (conn: nat)
    requires KeysShared(t) && OneSessionPerUser(t) && IsMember(t, c, u)
    ensures forall q: Option<nat> :: ScanFinds(t.users, t.channels[c][u].key, q) <==> q == Some(conn)
    ensures forall k :: k in t.users && t.users[k].text == u <==> k == conn
  {
    assert KeyShared(t, c, u);
    conn :| Holds(t, conn, t.channels[c][u].key);
  }

  /** The reverse scan of the user's ids finds the id the channel has for the user. */
  lemma SubscriptionIdAgrees(t: Tables, c: string, u: string, r: string)
    requires Consistent(t) && IsMember(t, c, u)
    ensures IdFound(Ids(t, u), c, r) <==> r == t.channels[c][u].id
  {
    var s := t.channels[c][u].id;
    assert Subscribed(t, u, c, s);
    assert Listed(t, u, c, s);
    if r in Ids(t, u) && Ids(t, u)[r] == c {
      assert Listed(t, u, c, r);
      assert Subscribed(t, u, c, r);
    }
  }
}
