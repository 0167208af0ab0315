/**
 Who is let in: over any run of the server, a login is accepted exactly if
 nobody stands in its way and its passcode is the first one ever given for the
 name.
 */
module Logins {
  import opened Wrappers
  import opened StompText
  import opened Registry
  import opened Protocol
  import opened Sessions

  /** A CONNECT frame with this login and this passcode, whatever came of it. */
  predicate Claims(e: Event, name: string, passcode: string) {
    && e.Frame? && e.parts.command == "CONNECT" && e.parts.headers.Some?
    && var h := HeaderMap(e.parts.headers.value);
      "login" in h && h["login"] == name && "passcode" in h && h["passcode"] == passcode
  }

  ghost predicate Claimed(e: Event, name: string) {
    exists passcode :: Claims(e, name, passcode)
  }

  /** No CONNECT before the `i`-th event was for `name`. */
  ghost predicate Unclaimed(events: seq<Event>, i: nat, name: string)
    requires i <= |events|
  {
    forall j :: 0 <= j < i ==> !Claimed(events[j], name)
  }

  /** The first CONNECT for `name` came before the `i`-th event, and with this passcode. */
  ghost predicate ClaimedFirst(events: seq<Event>, i: nat, name: string, passcode: string)
    requires i <= |events|
  {
    exists j: nat :: j < i && FirstClaim(events, j, name, passcode)
  }

  ghost predicate FirstClaim(events: seq<Event>, j: nat, name: string, passcode: string)
    requires j < |events|
  {
    Claims(events[j], name, passcode) && Unclaimed(events, j, name)
  }

  /** What the password table says of `name`. */
  ghost predicate Recorded(s: Server, events: seq<Event>, i: nat, name: string)
    requires i <= |events|
  {
    && (name in s.passwords <==> !Unclaimed(events, i, name))
    && (name in s.passwords ==> ClaimedFirst(events, i, name, s.passwords[name]))
  }

  /** A frame enters the passcode it claims, if the name has none. */
  lemma FrameRecords(s: Server, e: Event, name: string)
    requires Can(s, e)
    ensures var q := Do(s, e);
      if name in s.passwords then name in q.passwords && q.passwords[name] == s.passwords[name]
      else (name in q.passwords <==> Claimed(e, name)) && (name in q.passwords ==> Claims(e, name, q.passwords[name]))
  {
    if e.Frame? && IsCommand(e.parts) && CommandIn(e.parts) == CONNECT {
      var h := HeadersIn(e.parts);
      if "login" in h && "passcode" in h {
        assert Claims(e, h["login"], h["passcode"]);
      }
    }
  }

  lemma {:induction false} PasscodesRecorded(trace: seq<Server>, events: seq<Event>, i: nat, name: string)
    requires AnyRun(trace, events) && i <= |events|
    ensures Recorded(trace[i], events, i, name)
  {
    if i > 0 {
      PasscodesRecorded(trace, events, i - 1, name);
      assert StepAt(trace, events, i - 1);
      FrameRecords(trace[i - 1], events[i - 1], name);
      if name in trace[i].passwords && name !in trace[i - 1].passwords {
        assert FirstClaim(events, i - 1, name, trace[i].passwords[name]);
      }
    }
  }

  lemma OneFirstClaim(events: seq<Event>, i: nat, name: string, p: string, q: string)
    requires i <= |events| && ClaimedFirst(events, i, name, p) && ClaimedFirst(events, i, name, q)
    ensures p == q
  {
    var j: nat :| j < i && FirstClaim(events, j, name, p);
    var k: nat :| k < i && FirstClaim(events, k, name, q);
    assert Claimed(events[j], name) && Claimed(events[k], name);
  }

  /** The connection has no login, and nobody holds the name. */
  predicate MayEnter(t: Tables, conn: nat, name: string) {
    conn !in t.users && forall k :: k in t.users ==> t.users[k].text != name
  }

  /**
   A CONNECT is accepted if and only if its connection has no login, nobody holds
   the name, and either no CONNECT for the name came before or the first one gave
   the same passcode. Accepted, it logs the connection in under the name; refused,
   it changes no login and ends the session.
   */
  lemma AcceptedIff(trace: seq<Server>, events: seq<Event>, i: nat, name: string, passcode: string)
    requires AnyRun(trace, events) && i < |events| && Claims(events[i], name, passcode)
    ensures var e, t, q := events[i], trace[i].tables, trace[i + 1].tables;
      && e.conn in trace[i].live && e.conn in trace[i + 1].live
      && (Sessions.Verdict(trace[i], e).Accepted? <==>
            && MayEnter(t, e.conn, name)
            && (Unclaimed(events, i, name) || ClaimedFirst(events, i, name, passcode)))
      && (if Sessions.Verdict(trace[i], e).Accepted?
          then q.users.Keys == t.users.Keys + {e.conn} && q.users[e.conn].text == name
               && trace[i + 1].live[e.conn].user == Some(q.users[e.conn])
          else Sessions.Verdict(trace[i], e).Refused? && q == t && trace[i + 1].live[e.conn].terminate)
  {
    assert StepAt(trace, events, i);
    PasscodesRecorded(trace, events, i, name);
    if name in trace[i].passwords {
      var p := trace[i].passwords[name];
      if ClaimedFirst(events, i, name, passcode) {
        OneFirstClaim(events, i, name, p, passcode);
      }
    }
    assert MayEnter(trace[i].tables, events[i].conn, name) <==> MayLogIn(trace[i].tables, events[i].conn, name);
  }
}
