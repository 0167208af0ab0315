/** `UserManagement` and `StompMessagingProtocolImpl`, as the objects they are. */
module StompProtocol {
  import opened Wrappers
  import opened StompText
  import opened Registry
  import opened Connections
  import opened P = Protocol

  class UserManagement {
    var userMap: map<string, string>

    constructor ()
      ensures userMap == map[]
    {
      userMap := map[];
    }

    method ValidateUser(userName: string, password: string) returns (result: bool)
      modifies this
      ensures result == Validates(old(userMap), userName, password)
      ensures userMap == Register(old(userMap), userName, password)
    {
      result := false;
      if userName in userMap {
        if userMap[userName] == password {
          result := true;
        }
      } else {
        userMap := userMap[userName := password];
        result := true;
      }
    }
  }

  datatype Failure = NullPointerException

  class StompMessagingProtocolImpl {
    const connectionId: nat
    const serverConnections: ConnectionsImpl
    const userManagement: UserManagement
    var shouldTerminate: bool
    var connectedUserName: Option<Name>

    ghost function State(): World
      reads this, serverConnections, userManagement
    {
      World(serverConnections.State(), userManagement.userMap, Me(connectedUserName, shouldTerminate))
    }

    /** The fields of this object alone. */
    ghost function Own(): Me
      reads this
    {
      Me(connectedUserName, shouldTerminate)
    }

    constructor (connectionId: nat, connections: ConnectionsImpl, users: UserManagement)
      ensures this.connectionId == connectionId && serverConnections == connections && userManagement == users
      ensures State().me == NEW_PROTOCOL
    {
      this.connectionId, serverConnections, userManagement := connectionId, connections, users;
      shouldTerminate, connectedUserName := false, None;
    }

    /**
     One frame, from its text. The new state and the answer are those of
     `Handle` on the frame's parts; `ds` are the messages sent to other
     connections on the way.
     */
    method Process(message: string, addr: nat)
        returns (r: Result<Option<string>, Failure>, ghost ds: seq<Delivery>, ghost broken: bool)
      modifies this, serverConnections, userManagement
      ensures var f := Cut(message);
        && MaySend(old(State()), f, ds, broken)
        && serverConnections.outgoing == old(serverConnections.outgoing) + ds
        && var (w, v) := Handle(old(State()), connectionId, f, addr, |ds|, broken);
          && State() == w
          && r == if v.Crashed? then Err(NullPointerException) else Ok(Answer(f, old(State()).me, v))
    {
      var f := Cut(message);
      ds, broken := [], false;
      var command := CommandOf(f.command);
      if command.None? {
        return Ok(None), [], false;
      }
      if f.headers.None? {
        return Err(NullPointerException), [], false;
      }
      var h := ParseHeaders(f.headers.value);
      match command.value {
        case CONNECT => r := HandleConnect(f, h, addr);
        case SEND => r, ds, broken := HandleSend(f, h);
        case SUBSCRIBE => r := HandleSubscribe(f, h);
        case UNSUBSCRIBE => r := HandleUnsubscribe(f, h);
        case DISCONNECT => r := HandleDisconnect(f, h);
      }
    }

    method HandleConnect(f: Parts, h: map<string, string>, addr: nat) returns (r: Result<Option<string>, Failure>)
      requires IsCommand(f) && CommandIn(f) == CONNECT && h == HeadersIn(f)
      modifies this, serverConnections, userManagement
      ensures serverConnections.outgoing == old(serverConnections.outgoing)
      ensures var (w, v) := OnConnect(old(State()), connectionId, h, addr);
        State() == w && !v.Crashed? && r == Ok(Answer(f, old(State()).me, v))
    {
      var toConnect := false;
      if "login" in h && "passcode" in h {
        toConnect := userManagement.ValidateUser(h["login"], h["passcode"]);
      }
      if toConnect {
        var name := Name(h["login"], addr);
        var succeed := serverConnections.ConnectUser(connectionId, name);
        if succeed {
          connectedUserName := Some(name);
          var response := BuildResponse("CONNECTED", ["version:1.2"] + ReceiptHeader(h), None);
          return Ok(Some(response));
        }
        var response := RefusalText(f, "User already logged in");
        shouldTerminate := true;
        return Ok(Some(response));
      }
      var response := RefusalText(f, "Wrong password");
      shouldTerminate := true;
      return Ok(Some(response));
    }

    method HandleSubscribe(f: Parts, h: map<string, string>) returns (r: Result<Option<string>, Failure>)
      requires IsCommand(f) && CommandIn(f) == SUBSCRIBE && h == HeadersIn(f)
      modifies this, serverConnections
      ensures serverConnections.outgoing == old(serverConnections.outgoing)
      ensures var (w, v) := OnSubscribe(old(State()), connectionId, h);
        State() == w && r == if v.Crashed? then Err(NullPointerException) else Ok(Answer(f, old(State()).me, v))
    {
      if "destination" !in h || "id" !in h {
        return Ok(None);
      }
      if connectedUserName.None? {
        // ConcurrentHashMap refuses the null user name, after the channel was added
        var members := serverConnections.PutChannelIfAbsent(ChannelOf(h["destination"]));
        return Err(NullPointerException);
      }
      var toSubscribe :=
        serverConnections.SubscribeChannel(ChannelOf(h["destination"]), h["id"], connectedUserName.value);
      if toSubscribe {
        var response := ReceiptText(f, h);
        return Ok(Some(response));
      }
      r := Expelled(f, "user is already subscribed to this channel");
    }

    method HandleUnsubscribe(f: Parts, h: map<string, string>) returns (r: Result<Option<string>, Failure>)
      requires IsCommand(f) && CommandIn(f) == UNSUBSCRIBE && h == HeadersIn(f)
      modifies this, serverConnections
      ensures serverConnections.outgoing == old(serverConnections.outgoing)
      ensures var (w, v) := OnUnsubscribe(old(State()), connectionId, h);
        State() == w && r == if v.Crashed? then Err(NullPointerException) else Ok(Answer(f, old(State()).me, v))
    {
      if "id" !in h {
        return Ok(None);
      }
      if connectedUserName.None? {
        return Err(NullPointerException);
      }
      var toUnsubscribe := serverConnections.UnsubscribeChannelById(h["id"], connectedUserName.value.text);
      if toUnsubscribe {
        var response := ReceiptText(f, h);
        return Ok(Some(response));
      }
      r := Expelled(f, "user cannot unsubscribe from a channel he's not subscribed to");
    }

    method HandleDisconnect(f: Parts, h: map<string, string>) returns (r: Result<Option<string>, Failure>)
      requires IsCommand(f) && CommandIn(f) == DISCONNECT && h == HeadersIn(f)
      modifies this, serverConnections
      ensures serverConnections.outgoing == old(serverConnections.outgoing)
      ensures var (w, v) := OnDisconnect(old(State()), connectionId, h);
        State() == w && !v.Crashed? && r == Ok(Answer(f, old(State()).me, v))
    {
      if "receipt" !in h {
        return Ok(None);
      }
      serverConnections.DisconnectUser(connectionId);
      serverConnections.DisconnectClient(connectionId);
      var response := ReceiptText(f, h);
      connectedUserName := None;
      shouldTerminate := true;
      return Ok(Some(response));
    }

    method HandleSend(f: Parts, h: map<string, string>)
        returns (r: Result<Option<string>, Failure>, ghost ds: seq<Delivery>, ghost broken: bool)
      requires IsCommand(f) && CommandIn(f) == SEND && h == HeadersIn(f)
      modifies this, serverConnections
      ensures serverConnections.outgoing == old(serverConnections.outgoing) + ds
      ensures MaySend(old(State()), f, ds, broken)
      ensures var (w, v) := OnSend(old(State()), connectionId, h, |ds|, broken);
        State() == w && r == if v.Crashed? then Err(NullPointerException) else Ok(Answer(f, old(State()).me, v))
    {
      ds, broken := [], false;
      if "destination" !in h {
        return Ok(None), [], false;
      }
      var channel := ChannelOf(h["destination"]);
      if connectedUserName.None? {
        if channel in serverConnections.channelToUsersMap {
          return Err(NullPointerException), [], false;
        }
        r := Expelled(f, "user is not subscribed to channel");
      } else {
        r, ds, broken := SendAs(f, h, connectedUserName.value.text);
      }
    }

    /** `handleSend` once there is a destination and a name. */
    method SendAs(f: Parts, h: map<string, string>, user: string)
        returns (r: Result<Option<string>, Failure>, ghost ds: seq<Delivery>, ghost broken: bool)
      requires IsCommand(f) && CommandIn(f) == SEND && h == HeadersIn(f) && "destination" in h
      requires connectedUserName.Some? && user == connectedUserName.value.text
      modifies this`shouldTerminate, serverConnections
      ensures serverConnections.outgoing == old(serverConnections.outgoing) + ds
      ensures MaySend(old(State()), f, ds, broken)
      ensures var (w, v) := OnSend(old(State()), connectionId, h, |ds|, broken);
        State() == w && r == if v.Crashed? then Err(NullPointerException) else Ok(Answer(f, old(State()).me, v))
    {
      var toSend, thrown;
      ghost var order;
      ghost var w := State();
      toSend, thrown, order, ds := serverConnections.Send(ChannelOf(h["destination"]), user, f.body);
      broken := thrown;
      if !toSend {
        r := Expelled(f, "user is not subscribed to channel");
      } else {
        assert SendsInOrder(w, f, order, ds, broken);
        if thrown {
          r := Err(NullPointerException);
        } else {
          var response := ReceiptText(f, h);
          r := Ok(Some(response));
        }
      }
    }

    method ReceiptText(f: Parts, h: map<string, string>) returns (response: string)
      requires IsCommand(f) && CommandIn(f) != CONNECT && h == HeadersIn(f)
      ensures Some(response) == Answer(f, State().me, Accepted)
    {
      response := BuildResponse("RECEIPT",
        [AcceptedHeader(CommandIn(f), h, Me(connectedUserName, shouldTerminate))] + ReceiptHeader(h), None);
    }

    method RefusalText(f: Parts, reason: string) returns (response: string)
      ensures Some(response) == Answer(f, State().me, Refused(reason))
    {
      response := BuildResponse("ERROR", ["message:" + reason], Some(ErrorBody(f.command, f.headers, f.body)));
    }

    /** A fatal error: answer ERROR, forget the user and the connection. */
    method Expelled(f: Parts, reason: string) returns (r: Result<Option<string>, Failure>)
      modifies this`shouldTerminate, serverConnections
      ensures serverConnections.outgoing == old(serverConnections.outgoing)
      ensures State() == Expel(old(State()), connectionId, reason).0
      ensures r == Ok(Answer(f, old(State()).me, Refused(reason)))
    {
      var response := RefusalText(f, reason);
      serverConnections.DisconnectUser(connectionId);
      serverConnections.DisconnectClient(connectionId);
      shouldTerminate := true;
      r := Ok(Some(response));
    }
  }
}
