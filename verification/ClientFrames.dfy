/**
 The frames a client sends, as the server cuts them: only SUBSCRIBE frames
 subscribe, each to a channel and with an id the client has bound together.
 */
module ClientFrames {
  import opened Wrappers
  import opened Text
  import opened StompText
  import opened Protocol
  import opened ClientIds
  import C = Client
  import E = Events
  import R = Reports

  /** The first line of a frame is its command, whatever follows. */
  lemma HeadLine(command: string, rest: string)
    requires NL !in command
    ensures Cut(command + "\n" + rest).command == command
    ensures rest != "" && rest[0] != NL ==> Cut(command + "\n" + rest).headers.Some?
  {
    var m := command + "\n" + rest;
    var k := Find(m, "\n\n");
    FindFirst(m, "\n\n");
    assert m[|command|] == NL && m == command + [NL] + rest;
    if k < 0 {
      SplitFirstCons(command, rest, NL);
    } else {
      assert m[k..k + 2] == "\n\n";
      assert m[k] == m[k..k + 2][0] == NL && m[k + 1] == m[k..k + 2][1] == NL;
      assert k >= |command|;
      if k == |command| {
        assert m[..k] == command;
        assert m[k + 1] == rest[0];
        SplitFirstCons(command, rest, NL);
      } else {
        assert m[..k] == command + [NL] + rest[..k - |command| - 1];
        SplitFirstCons(command, rest[..k - |command| - 1], NL);
      }
    }
  }

  predicate SubscribesTo(f: Parts, channel: string, id: string) {
    && IsCommand(f) && "destination" in HeadersIn(f) && "id" in HeadersIn(f)
    && HeadersIn(f)["destination"] == JavaTrim(channel) && HeadersIn(f)["id"] == id
  }

  /** A frame that subscribes, if at all, to a logged channel with its logged id. */
  predicate FromLog(log: set<(string, string)>, f: Parts) {
    CommandOf(f.command) == Some(SUBSCRIBE) ==> exists p :: p in log && SubscribesTo(f, p.0, p.1)
  }

  lemma SubscribeFromLog(log: set<(string, string)>, channel: string, n: nat, receipt: nat)
    requires NL !in channel && (channel, NatText(n)) in log
    ensures FromLog(log, Cut(SubscribeFrame(channel, NatText(n), NatText(receipt))))
  {
    DigitsTrimmed(n);
    DigitsTrimmed(receipt);
    SubscribeArrives(channel, NatText(n), NatText(receipt));
    var p := (channel, NatText(n));
    assert p in log && SubscribesTo(Cut(SubscribeFrame(channel, NatText(n), NatText(receipt))), p.0, p.1);
  }

  lemma ConnectConnects(user: string, password: string)
    ensures Connects(Cut(C.ConnectFrame(user, password)))
  {
    var first := "accept-version:1.2\n";
    var rest := first + ("host:stomp.cs.bgu.ac.il\nlogin:" + user + "\npasscode:" + password + "\n\n");
    assert first[0] == 'a' && rest[0] == first[0];
    assert "CONNECT\n" == "CONNECT" + "\n";
    assert C.ConnectFrame(user, password) == "CONNECT" + "\n" + rest;
    HeadLine("CONNECT", rest);
  }

  lemma OtherFrame(log: set<(string, string)>, command: string, rest: string)
    requires NL !in command && |command| >= 2 && command[..2] != "SU"
    ensures FromLog(log, Cut(command + "\n" + rest))
  {
    HeadLine(command, rest);
    assert "SUBSCRIBE"[..2] == "SU";
  }

  lemma ReportSubscribesNothing(log: set<(string, string)>, channel: string, e: E.Event)
    ensures FromLog(log, Cut(R.ReportFrame(channel, e)))
  {
    var rest := "destination: " + Trim(channel) + "\n\n" + E.Body(e);
    assert R.ReportFrame(channel, e) == "SEND" + "\n" + rest;
    assert "SEND"[1] == 'E' && "SU"[1] == 'U';
    OtherFrame(log, "SEND", rest);
  }

  lemma UnsubscribeFromLog(log: set<(string, string)>, id: string, receipt: string)
    ensures FromLog(log, Cut(C.UnsubscribeFrame(id, receipt)))
  {
    assert "UNSUBSCRIBE\n" == "UNSUBSCRIBE" + "\n" && "UNSUBSCRIBE"[0] == 'U' && "SU"[0] == 'S';
    OtherFrame(log, "UNSUBSCRIBE", "id:" + id + "\nreceipt:" + receipt + "\n\n");
  }

  lemma DisconnectFromLog(log: set<(string, string)>, receipt: string)
    ensures FromLog(log, Cut(C.DisconnectFrame(receipt)))
  {
    assert "DISCONNECT\n" == "DISCONNECT" + "\n" && "DISCONNECT"[0] == 'D' && "SU"[0] == 'S';
    OtherFrame(log, "DISCONNECT", "receipt:" + receipt + "\n\n");
  }

  lemma JoinNumber(s: C.State, channel: string, log: set<(string, string)>) returns (n: nat)
    requires IdsBound(s, log)
    ensures C.JoinId(s, channel) == NatText(n)
  {
    if C.IdOf(s.ids, channel) == "" {
      n := s.counter;
    } else {
      assert (channel, s.ids[channel]) in log;
      n :| n < s.counter && s.ids[channel] == NatText(n);
    }
  }

  lemma JoinFromLog(s: C.State, channel: string, log: set<(string, string)>)
    requires IdsBound(s, log) && NL !in channel
    ensures var id := C.JoinId(s, channel);
      FromLog(log + {(channel, id)}, Cut(SubscribeFrame(channel, id, NatText(|s.receipts|))))
  {
    var n := JoinNumber(s, channel, log);
    SubscribeFromLog(log + {(channel, NatText(n))}, channel, n, |s.receipts|);
  }

  lemma ReportsFromLog(log: set<(string, string)>, channel: string, owned: seq<E.Event>, f: string)
    requires f in C.ReportFrames(channel, owned)
    ensures FromLog(log, Cut(f))
  {
    var i :| 0 <= i < |owned| && f == C.ReportFrames(channel, owned)[i];
    ReportSubscribesNothing(log, channel, owned[i]);
  }

  /** Every frame a typed line sends, on a connection already there, is from the log. */
  lemma DeedFromLog(s: C.State, deed: C.Deed, file: C.NamesAndEvents, log: set<(string, string)>, f: string)
    requires IdsBound(s, log) && (deed.Join? ==> NL !in deed.channel)
    requires f in C.FramesFor(s, deed, false, file)
    ensures FromLog(log + AskedBy(s, deed), Cut(f))
  {
    var more := log + AskedBy(s, deed);
    match deed
    case Join(channel) => JoinFromLog(s, channel, log);
    case Exit(channel) => UnsubscribeFromLog(more, C.ExitId(s, channel), NatText(|s.receipts|));
    case Report => ReportsFromLog(more, file.channel, C.Owned(file.events, s.user), f);
    case Logout => DisconnectFromLog(more, NatText(|s.receipts|));
    case _ =>
  }

  // ---------------------------------------------------------------- words of a line

  lemma JoinedChannelIsLine(ready: bool, command: string)
    requires NL !in command && C.DeedOf(ready, command).Join?
    ensures NL !in C.DeedOf(ready, command).channel
  {
    var w := C.Words(command);
    if NL in Trim(w[1]) {
      TrimWithin(w[1], CppSpace, NL);
      PieceWithin(command, ' ', w[1], NL);
    }
  }
}
