/** `ConnectionsImpl`: the tables as one shared object, updated in place. */
module Connections {
  import opened Wrappers
  import opened R = Registry

  class ConnectionsImpl {
    var connectionIdToHandlerMap: set<nat>
    var connectionIdToUserMap: map<nat, Name>
    var channelToUsersMap: map<string, map<string, Entry>>
    var userToChannelIdMap: map<string, map<string, string>>
    var connectionIdCounter: nat
    var messageIdCounter: nat

    /** Messages handed to connection handlers. */
    var outgoing: seq<Delivery>

    ghost function State(): Tables
      reads this
    {
      Tables(connectionIdToHandlerMap, connectionIdToUserMap, channelToUsersMap, userToChannelIdMap,
             connectionIdCounter, messageIdCounter)
    }

    constructor ()
      ensures State() == NO_TABLES && outgoing == []
    {
      connectionIdToHandlerMap, connectionIdToUserMap := {}, map[];
      channelToUsersMap, userToChannelIdMap := map[], map[];
      connectionIdCounter, messageIdCounter := 0, 0;
      outgoing := [];
    }

    method ConnectUser(connectionId: nat, userName: Name) returns (result: bool)
      modifies this`connectionIdToUserMap
      ensures State() == R.ConnectUser(old(State()), connectionId, userName)
      ensures result == MayLogIn(old(State()), connectionId, userName.text)
    {
      result := false;
      if connectionId !in connectionIdToUserMap {
        var userIsLoggedIn := false;
        var keys := connectionIdToUserMap.Keys;
        while keys != {}
          invariant keys <= connectionIdToUserMap.Keys
          invariant userIsLoggedIn
               <==> exists c ::
                      c in connectionIdToUserMap && c !in keys && connectionIdToUserMap[c].text == userName.text
          decreases |keys|
        {
          var key :| key in keys;
          if connectionIdToUserMap[key].text == userName.text {
            userIsLoggedIn := true;
          }
          keys := keys - {key};
        }
        if !userIsLoggedIn {
          connectionIdToUserMap := connectionIdToUserMap[connectionId := userName];
          result := true;
        }
      }
    }

    method ConnectHandler() returns (id: nat)
      modifies this`connectionIdToHandlerMap, this`connectionIdCounter
      ensures State() == R.ConnectHandler(old(State())) && id == old(connectionIdCounter)
    {
      id := connectionIdCounter;
      connectionIdCounter := connectionIdCounter + 1;
      connectionIdToHandlerMap := connectionIdToHandlerMap + {id};
    }

    method GenerateMessageId() returns (id: nat)
      modifies this`messageIdCounter
      ensures id == old(messageIdCounter) && messageIdCounter == id + 1
    {
      id := messageIdCounter;
      messageIdCounter := messageIdCounter + 1;
    }

    method SubscribeChannel(channel: string, subscriptionId: string, userName: Name) returns (result: bool)
      modifies this`channelToUsersMap, this`userToChannelIdMap
      ensures State() == Subscribe(old(State()), channel, subscriptionId, userName)
      ensures result == !IsMember(old(State()), channel, userName.text)
    {
      var members := PutChannelIfAbsent(channel);
      var ids := PutUserIfAbsent(userName.text);
      result := userName.text !in members;
      if result {
        ghost var t := old(State());
        Overwrite(t.channels, channel, members, members[userName.text := Entry(userName, subscriptionId)]);
        Overwrite(t.subs, userName.text, ids, ids[subscriptionId := channel]);
        channelToUsersMap := channelToUsersMap[channel := members[userName.text := Entry(userName, subscriptionId)]];
        userToChannelIdMap := userToChannelIdMap[userName.text := ids[subscriptionId := channel]];
      }
    }

    method PutChannelIfAbsent(channel: string) returns (members: map<string, Entry>)
      modifies this`channelToUsersMap
      ensures members == old(Channel(State(), channel))
      ensures channelToUsersMap == old(channelToUsersMap)[channel := members]
    {
      if channel !in channelToUsersMap {
        channelToUsersMap := channelToUsersMap[channel := map[]];
      }
      members := channelToUsersMap[channel];
    }

    method PutUserIfAbsent(userName: string) returns (ids: map<string, string>)
      modifies this`userToChannelIdMap
      ensures ids == old(Ids(State(), userName))
      ensures userToChannelIdMap == old(userToChannelIdMap)[userName := ids]
    {
      if userName !in userToChannelIdMap {
        userToChannelIdMap := userToChannelIdMap[userName := map[]];
      }
      ids := userToChannelIdMap[userName];
    }

    method GetSubscriptionId(userName: string, channel: string) returns (result: string)
      ensures IdFound(Ids(State(), userName), channel, result)
    {
      result := "";
      if userName in userToChannelIdMap {
        var userMap := userToChannelIdMap[userName];
        var keys := userMap.Keys;
        while keys != {}
          invariant keys <= userMap.Keys
          invariant (result in userMap && userMap[result] == channel)
                 || (result == "" && forall s :: s in userMap && s !in keys ==> userMap[s] != channel)
          decreases |keys|
        {
          var key :| key in keys;
          if userMap[key] == channel {
            result := key;
          }
          keys := keys - {key};
        }
      }
    }

    method GetConnectionIdForUser(userName: Name) returns (id: int)
      ensures id >= -1
      ensures ScanFinds(connectionIdToUserMap, userName, if id == -1 then None else Some(id))
    {
      id := -1;
      var keys := connectionIdToUserMap.Keys;
      while keys != {}
        invariant keys <= connectionIdToUserMap.Keys && id >= -1
        invariant id == -1 ==>
          forall c :: c in connectionIdToUserMap && c !in keys ==> connectionIdToUserMap[c] != userName
        invariant id != -1 ==> id in connectionIdToUserMap && connectionIdToUserMap[id] == userName
        decreases |keys|
      {
        var key :| key in keys;
        if connectionIdToUserMap[key] == userName {
          id := key;
        }
        keys := keys - {key};
      }
    }

    method DisconnectUser(connectionId: nat)
      modifies this`connectionIdToUserMap, this`channelToUsersMap, this`userToChannelIdMap
      ensures State() == R.DisconnectUser(old(State()), connectionId)
    {
      if connectionId in connectionIdToUserMap {
        var user := connectionIdToUserMap[connectionId].text;
        connectionIdToUserMap := connectionIdToUserMap - {connectionId};
        LeaveAllChannels(user);
        userToChannelIdMap := userToChannelIdMap - {user};
      }
    }

    /** The loop of `disconnectUser`. */
    method LeaveAllChannels(user: string)
      modifies this`channelToUsersMap
      ensures channelToUsersMap == Left(old(channelToUsersMap), user, old(channelToUsersMap).Keys)
    {
      ghost var done: set<string> := {};
      var keys := channelToUsersMap.Keys;
      assert channelToUsersMap == Left(old(channelToUsersMap), user, done);
      while keys != {}
        invariant keys !! done && keys + done == old(channelToUsersMap).Keys
        invariant channelToUsersMap == Left(old(channelToUsersMap), user, done)
        decreases |keys|
      {
        var channel :| channel in keys;
        var gone := UnsubscribeChannelByName(channel, user);
        LeaveOneMore(old(channelToUsersMap), user, done, channel);
        keys, done := keys - {channel}, done + {channel};
      }
      assert done == old(channelToUsersMap).Keys;
    }

    method UnsubscribeChannelById(subscriptionId: string, userName: string) returns (result: bool)
      modifies this`channelToUsersMap, this`userToChannelIdMap
      ensures State() == UnsubscribeById(old(State()), subscriptionId, userName)
      ensures result == MayUnsubscribe(old(State()), subscriptionId, userName)
    {
      result := false;
      if userName in userToChannelIdMap {
        var ids := userToChannelIdMap[userName];
        if subscriptionId in ids {
          result := UnsubscribeChannelByName(ids[subscriptionId], userName);
          if result {
            userToChannelIdMap := userToChannelIdMap[userName := ids - {subscriptionId}];
          }
        }
      }
    }

    method UnsubscribeChannelByName(channel: string, userName: string) returns (result: bool)
      modifies this`channelToUsersMap
      ensures channelToUsersMap == Without(old(channelToUsersMap), channel, userName)
      ensures result == IsMember(old(State()), channel, userName)
    {
      result := false;
      if channel in channelToUsersMap {
        var userMap := channelToUsersMap[channel];
        if userName in userMap {
          userMap := userMap - {userName};
          channelToUsersMap := channelToUsersMap[channel := userMap];
          result := true;
          if userMap == map[] {
            channelToUsersMap := channelToUsersMap - {channel};
          }
        }
      }
    }

    method DisconnectClient(connectionId: nat)
      modifies this`connectionIdToHandlerMap, this`connectionIdToUserMap
      ensures State() == R.DisconnectClient(old(State()), connectionId)
    {
      connectionIdToHandlerMap := connectionIdToHandlerMap - {connectionId};
      connectionIdToUserMap := connectionIdToUserMap - {connectionId};
    }

    /**
     `send(channel, userName, msg)`: one message for every other member. It throws
     where the connection located for a member has no handler, the message number
     for it being used up.
     */
    method Send(channel: string, userName: string, msg: Option<string>)
        returns (result: bool, thrown: bool, ghost order: seq<string>, ghost ds: seq<Delivery>)
      modifies this`messageIdCounter, this`outgoing
      ensures result == IsMember(old(State()), channel, userName)
      ensures State() == old(State()).(nextMessage := old(messageIdCounter) + |ds| + if thrown then 1 else 0)
      ensures outgoing == old(outgoing) + ds
      ensures !result ==> ds == [] && !thrown
      ensures result && !thrown ==> Enumerates(order, old(Channel(State(), channel)).Keys)
      ensures thrown ==> Breaks(old(State()), channel, userName, order)
      ensures result ==> FansOut(old(State()), channel, userName, msg, order, ds)
    {
      result, thrown, order, ds := false, false, [], [];
      if channel in channelToUsersMap && userName in channelToUsersMap[channel] {
        thrown, order, ds := SendToMembers(channel, userName, msg);
        result := true;
      }
    }

    method SendToMembers(channel: string, userName: string, msg: Option<string>)
        returns (thrown: bool, ghost order: seq<string>, ghost ds: seq<Delivery>)
      requires channel in channelToUsersMap
      modifies this`messageIdCounter, this`outgoing
      ensures messageIdCounter == old(messageIdCounter) + |ds| + if thrown then 1 else 0
      ensures outgoing == old(outgoing) + ds
      ensures !thrown ==> Enumerates(order, channelToUsersMap[channel].Keys)
      ensures thrown ==> Breaks(old(State()), channel, userName, order)
      ensures FansOut(old(State()), channel, userName, msg, order, ds)
    {
      var users := KeyOrder(channelToUsersMap[channel].Keys);
      ghost var t, outgoing0 := State(), outgoing;
      order, ds := [], [];
      for i := 0 to |users|
        invariant order == users[..i] && FansOut(t, channel, userName, msg, order, ds)
        invariant State() == Renumbered(t, |ds|)
        invariant outgoing == outgoing0 + ds
      {
        var ok;
        ghost var more;
        ok, more := SendToMember(channel, userName, msg, users[i]);
        if !ok {
          LoopThrows(t, channel, userName, users, i, |ds|);
          return true, order, ds;
        }
        SentOneMore(t, channel, userName, msg, order, ds, users[i], more);
        AppendAssoc(outgoing0, ds, more);
        TakeMore(users, i);
        order, ds := order + [users[i]], ds + more;
      }
      assert users[..|users|] == users;
      thrown := false;
    }

    /** Some order in which an iterator may visit the keys. */
    static method KeyOrder(keys: set<string>) returns (order: seq<string>)
      ensures Enumerates(order, keys)
    {
      order := [];
      var rest := keys;
      while rest != {}
        invariant rest <= keys && Enumerates(order, keys - rest)
        decreases |rest|
      {
        var key :| key in rest;
        rest := rest - {key};
        order := order + [key];
      }
      assert keys - rest == keys;
    }

    /** One turn of that loop. */
    method SendToMember(channel: string, userName: string, msg: Option<string>, user: string)
        returns (ok: bool, ghost more: seq<Delivery>)
      requires IsMember(State(), channel, user)
      modifies this`messageIdCounter, this`outgoing
      ensures messageIdCounter == old(messageIdCounter) + (if ok then |more| else 1)
      ensures outgoing == old(outgoing) + more
      ensures ok ==> if Skipped(old(State()), channel, userName, user) then more == []
                     else |more| == 1 && IsMessageFor(old(State()), channel, msg, user, 0, more[0])
      ensures !ok ==> more == [] && Unserved(old(State()), channel, userName, user)
    {
      ok, more := true, [];
      if user != userName {
        var connectionId := GetConnectionIdForUser(channelToUsersMap[channel][user].key);
        if connectionId != -1 {
          var subscriptionId := GetSubscriptionId(user, channel);
          var messageId := GenerateMessageId();
          if connectionId !in connectionIdToHandlerMap {
            return false, [];
          }
          more := [Delivery(connectionId, subscriptionId, messageId, channel, msg)];
          outgoing := outgoing + [Delivery(connectionId, subscriptionId, messageId, channel, msg)];
        }
      }
    }
  }

  /** The tables once `sent` messages have been numbered. */
  function Renumbered(t: Tables, sent: nat): Tables {
    t.(nextMessage := t.nextMessage + sent)
  }

  /** A member found unserved in mid-loop was so from the start: message numbers have no part in it. */
  lemma LoopThrows(t: Tables, channel: string, sender: string, users: seq<string>, i: nat, sent: nat)
    requires i < |users| && Enumerates(users, Channel(t, channel).Keys)
    requires Unserved(Renumbered(t, sent), channel, sender, users[i])
    ensures Breaks(t, channel, sender, users[..i])
  {
    assert Unserved(t, channel, sender, users[i]);
    forall u | u in users[..i]
      ensures u in Channel(t, channel).Keys && u != users[i]
    {
      assert u in users;
    }
  }

  /** Messages already sent only shift the numbering of the next. */
  lemma SentOneMore(t: Tables, channel: string, sender: string, body: Option<string>,
                    order: seq<string>, ds: seq<Delivery>, u: string, more: seq<Delivery>)
    requires FansOut(t, channel, sender, body, order, ds)
    requires var now := Renumbered(t, |ds|);
      if Skipped(now, channel, sender, u) then more == []
      else |more| == 1 && IsMessageFor(now, channel, body, u, 0, more[0])
    ensures FansOut(t, channel, sender, body, order + [u], ds + more)
  {
    FansOutMore(t, channel, sender, body, order, ds, u, more);
  }

  lemma Overwrite<K, V>(m: map<K, V>, k: K, v: V, w: V)
    ensures m[k := v][k := w] == m[k := w]
  {
  }
}
