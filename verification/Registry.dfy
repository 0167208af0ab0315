/**
 The server's shared tables: who is connected, who is logged in, and the
 subscription relation kept twice, by channel and by user. Each call is one step.
 */
module Registry {
  import opened Wrappers

  /**
   A Java string object. Two references to it agree on text and address, so `==`
   on references is equality here, and `equals` compares the texts.
   */
  datatype Name = Name(text: string, addr: nat)

  /** What a channel keeps for a user: the key object first stored, and the id. */
  datatype Entry = Entry(key: Name, id: string)

  /** One MESSAGE handed to a connection handler. */
  datatype Delivery = Delivery(conn: nat, subscription: string, messageId: nat, channel: string, body: Option<string>)

  datatype Tables = Tables(
    handlers: set<nat>,
    users: map<nat, Name>,
    channels: map<string, map<string, Entry>>,
    subs: map<string, map<string, string>>,
    nextConn: nat,
    nextMessage: nat)

  const NO_TABLES: Tables := Tables({}, map[], map[], map[], 0, 0)

  // ---------------------------------------------------------------- login

  predicate LoggedIn(t: Tables, user: string) {
    exists c :: c in t.users && t.users[c].text == user
  }

  predicate MayLogIn(t: Tables, conn: nat, user: string) {
    conn !in t.users && !LoggedIn(t, user)
  }

  function ConnectUser(t: Tables, conn: nat, user: Name): Tables {
    if MayLogIn(t, conn, user.text) then t.(users := t.users[conn := user]) else t
  }

  function ConnectHandler(t: Tables): Tables {
    t.(handlers := t.handlers + {t.nextConn}, nextConn := t.nextConn + 1)
  }

  // ---------------------------------------------------------------- subscriptions

  function Channel(t: Tables, channel: string): map<string, Entry> {
    if channel in t.channels then t.channels[channel] else map[]
  }

  function Ids(t: Tables, user: string): map<string, string> {
    if user in t.subs then t.subs[user] else map[]
  }

  /** The two `putIfAbsent` calls come first, whatever happens after. */
  function Subscribe(t: Tables, channel: string, id: string, user: Name): Tables {
    var members, ids := Channel(t, channel), Ids(t, user.text);
    if user.text in members then
      t.(channels := t.channels[channel := members], subs := t.subs[user.text := ids])
    else
      t.(channels := t.channels[channel := members[user.text := Entry(user, id)]],
         subs := t.subs[user.text := ids[id := channel]])
  }

  predicate IsMember(t: Tables, channel: string, user: string) {
    user in Channel(t, channel)
  }

  /** Removes the user from the channel only; the last one out removes the channel. */
  function Without(channels: map<string, map<string, Entry>>, channel: string, user: string)
    : map<string, map<string, Entry>>
  {
    if channel !in channels || user !in channels[channel] then channels
    else
      var members := channels[channel] - {user};
      if members == map[] then channels - {channel} else channels[channel := members]
  }

  function UnsubscribeByName(t: Tables, channel: string, user: string): Tables {
    t.(channels := Without(t.channels, channel, user))
  }

  predicate MayUnsubscribe(t: Tables, id: string, user: string) {
    id in Ids(t, user) && IsMember(t, Ids(t, user)[id], user)
  }

  function UnsubscribeById(t: Tables, id: string, user: string): Tables {
    if !MayUnsubscribe(t, id, user) then t
    else
      var r := UnsubscribeByName(t, t.subs[user][id], user);
      r.(subs := r.subs[user := r.subs[user] - {id}])
  }

  /** All channels after `user` has left those in `done`. */
  function Left(channels: map<string, map<string, Entry>>, user: string, done: set<string>)
    : map<string, map<string, Entry>>
  {
    map c | c in channels && (c in done && user in channels[c] ==> channels[c] - {user} != map[])
      :: if c in done then channels[c] - {user} else channels[c]
  }

  function DisconnectUser(t: Tables, conn: nat): Tables {
    if conn !in t.users then t
    else
      var user := t.users[conn].text;
      t.(users := t.users - {conn}, channels := Left(t.channels, user, t.channels.Keys), subs := t.subs - {user})
  }

  function DisconnectClient(t: Tables, conn: nat): Tables {
    t.(handlers := t.handlers - {conn}, users := t.users - {conn})
  }

  /** The pair of calls that follows every fatal error. */
  function Disconnect(t: Tables, conn: nat): Tables {
    DisconnectClient(DisconnectUser(t, conn), conn)
  }

  // ---------------------------------------------------------------- fan-out

  /** A result of `getConnectionIdForUser`: the scan compares with `==`. */
  predicate ScanFinds(users: map<nat, Name>, user: Name, r: Option<nat>) {
    match r
    case Some(c) => c in users && users[c] == user
    case None => forall c :: c in users ==> users[c] != user
  }

  /** A result of `getSubscriptionId`: some id of the user for the channel, or "". */
  predicate IdFound(ids: map<string, string>, channel: string, r: string) {
    || (r in ids && ids[r] == channel)
    || (r == "" && forall s :: s in ids ==> ids[s] != channel)
  }

  /** An iteration over a key set, as far as it got. */
  ghost predicate Visits(order: seq<string>, keys: set<string>) {
    && (forall u :: u in order ==> u in keys)
    && (forall i, j :: 0 <= i < j < |order| ==> order[i] != order[j])
  }

  /** A whole iteration. */
  ghost predicate Enumerates(order: seq<string>, keys: set<string>) {
    Visits(order, keys) && forall u :: u in keys ==> u in order
  }

  /** The loop of `send` passes over the sender and over members it cannot locate. */
  predicate Skipped(t: Tables, channel: string, sender: string, u: string) {
    u == sender || !IsMember(t, channel, u) || ScanFinds(t.users, Channel(t, channel)[u].key, None)
  }

  /** `send` locates member `u` at a connection that has no handler, and throws. */
  ghost predicate Unserved(t: Tables, channel: string, sender: string, u: string) {
    && u != sender && IsMember(t, channel, u)
    && exists k :: k in t.users && k !in t.handlers && ScanFinds(t.users, Channel(t, channel)[u].key, Some(k))
  }

  /** The loop of `send` got through `order` and threw at the next member. */
  ghost predicate Breaks(t: Tables, channel: string, sender: string, order: seq<string>) {
    && Visits(order, Channel(t, channel).Keys)
    && exists u :: u !in order && Unserved(t, channel, sender, u)
  }

  /** `d` is the `k`-th message of a `send`, made for member `u`. */
  predicate IsMessageFor(t: Tables, channel: string, body: Option<string>, u: string, k: nat, d: Delivery) {
    && IsMember(t, channel, u)
    && ScanFinds(t.users, Channel(t, channel)[u].key, Some(d.conn)) && d.conn in t.handlers
    && IdFound(Ids(t, u), channel, d.subscription)
    && d.messageId == t.nextMessage + k && d.channel == channel && d.body == body
  }

  /** `ds` are the messages that the loop of `send` makes, visiting members in `order`. */
  predicate FansOut(t: Tables, channel: string, sender: string, body: Option<string>,
                    order: seq<string>, ds: seq<Delivery>)
  {
    if order == [] then ds == []
    else
      var before, u := order[..|order| - 1], order[|order| - 1];
      if Skipped(t, channel, sender, u) then FansOut(t, channel, sender, body, before, ds)
      else
        && ds != [] && FansOut(t, channel, sender, body, before, ds[..|ds| - 1])
        && IsMessageFor(t, channel, body, u, |ds| - 1, ds[|ds| - 1])
  }

  lemma FansOutMore(t: Tables, channel: string, sender: string, body: Option<string>,
                    order: seq<string>, ds: seq<Delivery>, u: string, more: seq<Delivery>)
    requires FansOut(t, channel, sender, body, order, ds)
    requires if Skipped(t, channel, sender, u) then more == []
             else |more| == 1 && IsMessageFor(t, channel, body, u, |ds|, more[0])
    ensures FansOut(t, channel, sender, body, order + [u], ds + more)
  {
    assert (order + [u])[..|order + [u]| - 1] == order;
    if more != [] {
      assert (ds + more)[..|ds + more| - 1] == ds;
    } else {
      assert ds + more == ds;
    }
  }

  lemma LeaveOneMore(channels: map<string, map<string, Entry>>, user: string, done: set<string>, c: string)
    requires c !in done && c in channels
    ensures Left(channels, user, done + {c}) == Without(Left(channels, user, done), c, user)
  {
    if user !in channels[c] {
      assert channels[c] - {user} == channels[c];
    }
  }
}
