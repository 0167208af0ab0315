/**
 What one `process(frame)` call does to the shared tables, the password table
 and the connection's own protocol object, and what it answers.
 */
module Protocol {
  import opened Wrappers
  import opened StompText
  import opened Registry

  /** `connectedUserName` and `shouldTerminate` of one connection. */
  datatype Me = Me(user: Option<Name>, terminate: bool)

  datatype World = World(tables: Tables, passwords: map<string, string>, me: Me)

  /**
   `Refused` answers ERROR, `Ignored` answers nothing, `Crashed` is a
   NullPointerException out of `process`.
   */
  datatype Verdict = Accepted | Refused(reason: string) | Ignored | Crashed

  const NEW_PROTOCOL: Me := Me(None, false)

  // ---------------------------------------------------------------- the five commands

  /** `validateUser`: the first passcode given for a name becomes its passcode. */
  function Register(passwords: map<string, string>, login: string, passcode: string): map<string, string> {
    if login in passwords then passwords else passwords[login := passcode]
  }

  predicate Validates(passwords: map<string, string>, login: string, passcode: string) {
    login in passwords ==> passwords[login] == passcode
  }

  /** Passcodes are only ever added. */
  predicate Extends(p: map<string, string>, q: map<string, string>) {
    forall n :: n in p ==> n in q && q[n] == p[n]
  }

  /** Passcodes and message numbers are as before. */
  predicate SameCounts(w: World, q: World) {
    q.passwords == w.passwords && q.tables.nextMessage == w.tables.nextMessage
  }

  /** ERROR, and the connection is to be closed. */
  function Refuse(w: World, reason: string): (World, Verdict) {
    (w.(me := w.me.(terminate := true)), Refused(reason))
  }

  /** ERROR, and the connection loses its login and subscriptions at once. */
  function Expel(w: World, conn: nat, reason: string): (r: (World, Verdict))
    ensures SameCounts(w, r.0)
  {
    Refuse(w.(tables := Disconnect(w.tables, conn)), reason)
  }

  function OnConnect(w: World, conn: nat, h: map<string, string>, addr: nat): (r: (World, Verdict))
    ensures Extends(w.passwords, r.0.passwords) && r.0.tables.nextMessage == w.tables.nextMessage
  {
    if "login" !in h || "passcode" !in h || !Validates(w.passwords, h["login"], h["passcode"]) then
      Refuse(w, "Wrong password")
    else
      var name := Name(h["login"], addr);
      var q := w.(passwords := Register(w.passwords, h["login"], h["passcode"]));
      if !MayLogIn(w.tables, conn, name.text) then Refuse(q, "User already logged in")
      else (q.(tables := ConnectUser(w.tables, conn, name), me := w.me.(user := Some(name))), Accepted)
  }

  function OnSubscribe(w: World, conn: nat, h: map<string, string>): (r: (World, Verdict))
    ensures SameCounts(w, r.0)
  {
    if "destination" !in h || "id" !in h then (w, Ignored)
    else
      var c := ChannelOf(h["destination"]);
      if w.me.user.None? then
        (w.(tables := w.tables.(channels := w.tables.channels[c := Channel(w.tables, c)])), Crashed)
      else
        var u := w.me.user.value;
        var q := w.(tables := Subscribe(w.tables, c, h["id"], u));
        if IsMember(w.tables, c, u.text) then Expel(q, conn, "user is already subscribed to this channel")
        else (q, Accepted)
  }

  function OnUnsubscribe(w: World, conn: nat, h: map<string, string>): (r: (World, Verdict))
    ensures SameCounts(w, r.0)
  {
    if "id" !in h then (w, Ignored)
    else if w.me.user.None? then (w, Crashed)
    else
      var u := w.me.user.value.text;
      if MayUnsubscribe(w.tables, h["id"], u) then
        (w.(tables := UnsubscribeById(w.tables, h["id"], u)), Accepted)
      else
        Expel(w, conn, "user cannot unsubscribe from a channel he's not subscribed to")
  }

  function OnDisconnect(w: World, conn: nat, h: map<string, string>): (r: (World, Verdict))
    ensures SameCounts(w, r.0)
  {
    if "receipt" !in h then (w, Ignored)
    else (w.(tables := Disconnect(w.tables, conn), me := Me(None, true)), Accepted)
  }

  /** Message numbers used up by `sent` messages, and by the one at which `send` threw. */
  function Numbers(sent: nat, broken: bool): nat {
    if broken then sent + 1 else sent
  }

  /** `sent` messages go out if the sender is a member; `broken` if `send` threw then. */
  function OnSend(w: World, conn: nat, h: map<string, string>, sent: nat, broken: bool): (r: (World, Verdict))
    ensures r.0.passwords == w.passwords
    ensures r.0.tables.nextMessage == w.tables.nextMessage
         || r.0.tables.nextMessage == w.tables.nextMessage + Numbers(sent, broken)
  {
    if "destination" !in h then (w, Ignored)
    else
      var c := ChannelOf(h["destination"]);
      if w.me.user.None? && c in w.tables.channels then (w, Crashed)
      else if w.me.user.Some? && IsMember(w.tables, c, w.me.user.value.text) then
        (w.(tables := w.tables.(nextMessage := w.tables.nextMessage + Numbers(sent, broken))),
         if broken then Crashed else Accepted)
      else
        Expel(w, conn, "user is not subscribed to channel")
  }

  datatype Command = CONNECT | SEND | SUBSCRIBE | UNSUBSCRIBE | DISCONNECT

  function CommandOf(text: string): Option<Command> {
    if text == "CONNECT" then Some(CONNECT)
    else if text == "SEND" then Some(SEND)
    else if text == "SUBSCRIBE" then Some(SUBSCRIBE)
    else if text == "UNSUBSCRIBE" then Some(UNSUBSCRIBE)
    else if text == "DISCONNECT" then Some(DISCONNECT)
    else None
  }

  function OnCommand(w: World, conn: nat, command: Command, h: map<string, string>, addr: nat, sent: nat, broken: bool)
    : (World, Verdict)
  {
    match command
    case CONNECT => OnConnect(w, conn, h, addr)
    case SEND => OnSend(w, conn, h, sent, broken)
    case SUBSCRIBE => OnSubscribe(w, conn, h)
    case UNSUBSCRIBE => OnUnsubscribe(w, conn, h)
    case DISCONNECT => OnDisconnect(w, conn, h)
  }

  /** A command with a header array; the only frames that reach a handler in one piece. */
  predicate IsCommand(f: Parts) {
    CommandOf(f.command).Some? && f.headers.Some?
  }

  function CommandIn(f: Parts): Command
    requires IsCommand(f)
  {
    CommandOf(f.command).value
  }

  predicate Connects(f: Parts) {
    IsCommand(f) && CommandIn(f) == CONNECT
  }

  function HeadersIn(f: Parts): map<string, string>
    requires IsCommand(f)
  {
    HeaderMap(f.headers.value)
  }

  /** One frame. `addr` is where a login name parsed from it is allocated. */
  function Handle(w: World, conn: nat, f: Parts, addr: nat, sent: nat, broken: bool): (World, Verdict) {
    if CommandOf(f.command).None? then (w, Ignored)
    else if f.headers.None? then (w, Crashed)
    else OnCommand(w, conn, CommandIn(f), HeadersIn(f), addr, sent, broken)
  }

  predicate HasDestination(f: Parts) {
    IsCommand(f) && "destination" in HeadersIn(f)
  }

  function Destination(f: Parts): string
    requires HasDestination(f)
  {
    ChannelOf(HeadersIn(f)["destination"])
  }

  /** Does the frame publish to a channel its sender is a member of? */
  predicate Publishes(w: World, f: Parts) {
    && HasDestination(f) && CommandIn(f) == SEND && w.me.user.Some?
    && IsMember(w.tables, Destination(f), w.me.user.value.text)
  }

  /** The messages a frame may send out, for some order of visiting the members, and whether `send` then throws. */
  ghost predicate MaySend(w: World, f: Parts, ds: seq<Delivery>, broken: bool) {
    if Publishes(w, f) then exists order :: SendsInOrder(w, f, order, ds, broken) else ds == [] && !broken
  }

  ghost predicate SendsInOrder(w: World, f: Parts, order: seq<string>, ds: seq<Delivery>, broken: bool)
    requires Publishes(w, f)
  {
    && (if broken then Breaks(w.tables, Destination(f), w.me.user.value.text, order)
        else Enumerates(order, Channel(w.tables, Destination(f)).Keys))
    && FansOut(w.tables, Destination(f), w.me.user.value.text, f.body, order, ds)
  }

  // ---------------------------------------------------------------- answers

  function ReceiptHeader(h: map<string, string>): seq<string> {
    if "receipt" in h then ["receipt-id:" + h["receipt"]] else []
  }

  function UserText(me: Me): string {
    if me.user.Some? then me.user.value.text else "null"
  }

  function ErrorText(f: Parts, reason: string): string {
    Response("ERROR", ["message:" + reason], Some(ErrorBody(f.command, f.headers, f.body)))
  }

  /** First header of the answer to an accepted command. */
  function AcceptedHeader(command: Command, h: map<string, string>, me: Me): string {
    match command
    case CONNECT => "version:1.2"
    case SUBSCRIBE => "message:user " + UserText(me) + " was successfully subscribed to channel"
    case UNSUBSCRIBE => "message:user " + UserText(me) + " was succefully unsubscribed from channel"
    case DISCONNECT => "message:user " + UserText(me) + " was successfully disconnected"
    case SEND =>
      "message:message was send successfully to channel " + if "destination" in h then h["destination"] else ""
  }

  /** `me` is the protocol object before the call. */
  function Answer(f: Parts, me: Me, v: Verdict): Option<string> {
    match v
    case Accepted =>
      if !IsCommand(f) then None
      else
        Some(Response(
          if CommandIn(f) == CONNECT then "CONNECTED" else "RECEIPT",
          [AcceptedHeader(CommandIn(f), HeadersIn(f), me)] + ReceiptHeader(HeadersIn(f)), None))
    case Refused(reason) => Some(ErrorText(f, reason))
    case Ignored => None
    case Crashed => None
  }
}
