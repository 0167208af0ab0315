/**
 What the server answers, as the client reads it: the reason of a refusal, and
 the receipt number by which the client knows which of its commands was carried
 out, and does its part.
 */
module Receipts {
  import opened Wrappers
  import opened Text
  import opened StompText
  import opened Registry
  import opened Protocol
  import opened Reports
  import opened ClientIds
  import opened ClientFrames
  import opened Commands
  import opened C = Client

  // ---------------------------------------------------------------- refusals

  /** The user is shown the reason, and the connection is closed. */
  lemma RefusalShown(s: State, f: Parts, me: Me, reason: string)
    requires NL !in reason
    ensures var a := Protocol.Answer(f, me, Refused(reason));
      && a.Some? && a.value != ""
      && CutAnswer(a.value).tokens == ["ERROR", "message:" + reason]
      && OnAnswer(s, a.value) == Some(s.(connected := false)) && Shown(s, a.value) == reason
  {
    var hs := ["message:" + reason];
    AnswerCut("ERROR", hs, Some(ErrorBody(f.command, f.headers, f.body)));
    assert ["ERROR"] + hs == ["ERROR", "message:" + reason];
    assert "ERROR"[0] == 'E' && "MESSAGE"[0] == 'M' && "RECEIPT"[0] == 'R' && "CONNECTED"[0] == 'C';
  }

  /** Between its two rules an ERROR quotes the refused frame, so that cutting the quotation gives its parts again. */
  lemma RefusalQuotes(f: Parts) returns (quoted: string)
    requires NL !in f.command && f.headers.Some? && f.headers.value != [] && AllLines(f.headers.value)
    ensures ErrorBody(f.command, f.headers, f.body) == "-----\n" + quoted + "-----"
    ensures Cut(quoted) == Parts(f.command, f.headers, Some(BodyText(f.body)))
  {
    quoted := Response(f.command, f.headers.value, f.body);
    ResponseRoundTrip(f.command, f.headers.value, f.body);
  }

  lemma LoginAnswered(s: State, f: Parts, me: Me)
    requires f.command == "CONNECT" && f.headers.Some? && "receipt" !in HeadersIn(f)
    ensures var a := Protocol.Answer(f, me, Accepted);
      && a.Some? && a.value != "" && CutAnswer(a.value).tokens == ["CONNECTED", "version:1.2"]
      && OnAnswer(s, a.value) == Some(s) && Shown(s, a.value) == "Login successful"
  {
    var hs := ["version:1.2"];
    assert hs + [] == hs;
    AnswerCut("CONNECTED", hs, None);
    assert ["CONNECTED"] + hs == ["CONNECTED", "version:1.2"];
    assert "ERROR"[0] == 'E' && "MESSAGE"[0] == 'M' && "RECEIPT"[0] == 'R' && "CONNECTED"[0] == 'C';
  }

  // ---------------------------------------------------------------- receipts

  lemma TokenFound(header: string, value: string)
    ensures Find(header + value, header) == 0
  {
    assert (header + value)[..|header|] == header;
  }

  /** The frame names the receipt number it was sent with. */
  predicate Receipted(f: Parts, n: nat) {
    && IsCommand(f) && "receipt" in HeadersIn(f) && HeadersIn(f)["receipt"] == NatText(n)
    && (CommandIn(f) == SUBSCRIBE || CommandIn(f) == UNSUBSCRIBE || CommandIn(f) == DISCONNECT)
  }

  predicate NamesLine(me: Me) {
    me.user.Some? ==> NL !in me.user.value.text
  }

  /** What the first header of a RECEIPT says. */
  lemma ConfirmationIs(f: Parts, me: Me)
    requires IsCommand(f)
    ensures var u := if me.user.Some? then me.user.value.text else "null";
      var text := AcceptedHeader(CommandIn(f), HeadersIn(f), me);
      && (f.command == "SUBSCRIBE" ==> text == "message:user " + u + " was successfully subscribed to channel")
      && (f.command == "UNSUBSCRIBE" ==> text == "message:user " + u + " was succefully unsubscribed from channel")
      && (f.command == "DISCONNECT" ==> text == "message:user " + u + " was successfully disconnected")
      && (f.command == "SEND" && "destination" in HeadersIn(f) ==>
            text == "message:message was send successfully to channel " + HeadersIn(f)["destination"])
  {
  }

  lemma AroundLine(a: string, u: string, b: string)
    requires Line(a) && NL !in u && NL !in b
    ensures Line(a + u + b)
  {
  }

  lemma JoinedIsLine(u: string)
    requires NL !in u
    ensures Line("message:user " + u + " was successfully subscribed to channel")
  {
    AroundLine("message:user ", u, " was successfully subscribed to channel");
  }

  lemma LeftIsLine(u: string)
    requires NL !in u
    ensures Line("message:user " + u + " was succefully unsubscribed from channel")
  {
    AroundLine("message:user ", u, " was succefully unsubscribed from channel");
  }

  lemma LoggedOutIsLine(u: string)
    requires NL !in u
    ensures Line("message:user " + u + " was successfully disconnected")
  {
    AroundLine("message:user ", u, " was successfully disconnected");
  }

  lemma ConfirmationIsLine(command: Command, h: map<string, string>, me: Me)
    requires NamesLine(me) && command != SEND
    ensures Line(AcceptedHeader(command, h, me))
  {
    match command
    case SUBSCRIBE => JoinedIsLine(UserText(me));
    case UNSUBSCRIBE => LeftIsLine(UserText(me));
    case DISCONNECT => LoggedOutIsLine(UserText(me));
    case _ =>
  }

  /** The RECEIPT for a frame carries its number, and the client reads that number. */
  lemma ReceiptReads(f: Parts, me: Me, n: nat)
    requires Receipted(f, n) && NamesLine(me)
    ensures var a := Protocol.Answer(f, me, Accepted);
      && a.Some? && a.value != ""
      && var tokens := CutAnswer(a.value).tokens;
        && tokens == ["RECEIPT", AcceptedHeader(CommandIn(f), HeadersIn(f), me), "receipt-id:" + NatText(n)]
        && HeaderValue(tokens, "receipt-id:") == Ok(NatText(n))
  {
    var first, last := AcceptedHeader(CommandIn(f), HeadersIn(f), me), "receipt-id:" + NatText(n);
    ConfirmationIsLine(CommandIn(f), HeadersIn(f), me);
    DigitsTrimmed(n);
    var hs := [first, last];
    assert [first] + ReceiptHeader(HeadersIn(f)) == hs;
    AnswerCut("RECEIPT", hs, None);
    assert ["RECEIPT"] + hs == ["RECEIPT", first, last];
    TokenFound("receipt-id:", NatText(n));
    assert last[|"receipt-id:"|..] == NatText(n);
  }

  lemma ReceiptHeard(t: State, f: Parts, me: Me, n: nat)
    requires Receipted(f, n) && NamesLine(me) && n < |t.receipts| && n <= INT_MAX
    ensures var a := Protocol.Answer(f, me, Accepted).value;
      OnAnswer(t, a) == OnReceipt(t, t.receipts[n]) && Shown(t, a) == ReceiptShown(t.receipts[n])
  {
    ReceiptReads(f, me, n);
    StoiOfIntText(n);
    assert IntText(n) == NatText(n);
    var tokens := CutAnswer(Protocol.Answer(f, me, Accepted).value).tokens;
    assert ReceiptCommand(t, tokens) == Some(t.receipts[n]);
    assert "RECEIPT"[0] == 'R' && "MESSAGE"[0] == 'M' && "CONNECTED"[0] == 'C';
    TokenFound("receipt-id:", NatText(n));
  }

  // ---------------------------------------------------------------- the right command

  predicate AsksReceipt(deed: Deed) {
    deed.Join? || deed.Exit? || deed.Logout?
  }

  /** The one frame of such a command. */
  ghost function FrameFor(s: State, deed: Deed): string
    requires AsksReceipt(deed)
  {
    FramesFor(s, deed, false, NamesAndEvents("", []))[0]
  }

  /** Every live id of the client is a number, as it is over any run. */
  ghost predicate IdsAreNumbers(s: State) {
    forall c :: IdOf(s.ids, c) != "" ==> exists n: nat :: IdOf(s.ids, c) == NatText(n)
  }

  lemma IdIsLine(s: State, channel: string)
    requires IdsAreNumbers(s)
    ensures NL !in ExitId(s, channel)
  {
    if IdOf(s.ids, channel) != "" {
      var n: nat :| IdOf(s.ids, channel) == NatText(n);
      DigitsTrimmed(n);
    }
  }

  lemma FrameIsReceipted(s: State, deed: Deed)
    requires AsksReceipt(deed) && IdsAreNumbers(s) && (deed.Join? ==> NL !in deed.channel)
    ensures Receipted(Cut(FrameFor(s, deed)), |s.receipts|)
  {
    var n := |s.receipts|;
    match deed
    case Join(channel) =>
      JoinIdIsLine(s, channel);
      JoinIsReceipted(channel, JoinId(s, channel), n);
    case Exit(channel) =>
      IdIsLine(s, channel);
      ExitIsReceipted(ExitId(s, channel), n);
    case Logout => LogoutIsReceipted(n);
  }

  lemma JoinIsReceipted(channel: string, id: string, n: nat)
    requires NL !in channel && NL !in id
    ensures Receipted(Cut(SubscribeFrame(channel, id, NatText(n))), n)
  {
    DigitsTrimmed(n);
    SubscribeArrives(channel, id, NatText(n));
  }

  lemma ExitIsReceipted(id: string, n: nat)
    requires NL !in id
    ensures Receipted(Cut(UnsubscribeFrame(id, NatText(n))), n)
  {
    DigitsTrimmed(n);
    ExitArrives(id, NatText(n));
  }

  lemma LogoutIsReceipted(n: nat)
    ensures Receipted(Cut(DisconnectFrame(NatText(n))), n)
  {
    DigitsTrimmed(n);
    LogoutArrives(NatText(n));
  }

  lemma JoinIdIsLine(s: State, channel: string)
    requires IdsAreNumbers(s)
    ensures NL !in JoinId(s, channel)
  {
    if IdOf(s.ids, channel) == "" {
      DigitsTrimmed(s.counter);
    } else {
      var n: nat :| IdOf(s.ids, channel) == NatText(n);
      DigitsTrimmed(n);
    }
  }

  lemma RunIdsAreNumbers(trace: seq<State>, inputs: seq<Input>, i: nat)
    requires IsRun(trace, inputs) && i <= |inputs|
    ensures IdsAreNumbers(trace[i])
  {
    forall c | IdOf(trace[i].ids, c) != ""
      ensures exists n: nat :: IdOf(trace[i].ids, c) == NatText(n)
    {
      LiveIdsDistinct(trace, inputs, i, c, c);
    }
  }

  lemma AnswerKeepsReceipts(s: State, answer: string, t: State)
    requires OnAnswer(s, answer) == Some(t)
    ensures t.receipts == s.receipts
  {
    if answer != "" {
      TokensKeepReceipts(s, CutAnswer(answer).tokens);
    }
  }

  lemma TokensKeepReceipts(s: State, tokens: seq<string>)
    ensures OnReceiptTokens(s, tokens).Some? ==> OnReceiptTokens(s, tokens).value.receipts == s.receipts
  {
  }

  lemma TypedKeepsReceipts(s: State, command: string, connects: bool, file: NamesAndEvents, t: State)
    requires Follows(s, Typed(command, connects, file), t)
    ensures t.receipts == s.receipts + if AsksReceipt(DeedOf(s.ready, command)) then [command] else []
  {
    var deed := DeedOf(s.ready, command);
    var q := After(s, deed, command, connects, file);
    AfterReceipts(s, deed, command, connects, file);
    var files, now, date :| Settles(q, t, deed, files, now, date);
    SettlesReceipts(q, t, deed, files, now, date);
  }

  lemma AfterReceipts(s: State, deed: Deed, command: string, connects: bool, file: NamesAndEvents)
    ensures After(s, deed, command, connects, file).receipts
         == s.receipts + if AsksReceipt(deed) then [command] else []
  {
  }

  lemma SettlesReceipts(s: State, t: State, deed: Deed, files: map<string, string>, now: map<string, string>,
                        date: int -> string)
    requires Settles(s, t, deed, files, now, date)
    ensures t.receipts == s.receipts
  {
  }

  lemma {:induction false} ReceiptsStay(trace: seq<State>, inputs: seq<Input>, i: nat, j: nat)
    requires IsRun(trace, inputs) && i <= j <= |inputs|
    ensures trace[i].receipts <= trace[j].receipts
    decreases j
  {
    if i < j {
      ReceiptsStay(trace, inputs, i, j - 1);
      NextKeepsReceipts(trace, inputs, j - 1);
    }
  }

  lemma NextKeepsReceipts(trace: seq<State>, inputs: seq<Input>, i: nat)
    requires IsRun(trace, inputs) && i < |inputs|
    ensures trace[i].receipts <= trace[i + 1].receipts
  {
    assert StepAt(trace, inputs, i);
    match inputs[i]
    case Typed(command, connects, file) => TypedKeepsReceipts(trace[i], command, connects, file, trace[i + 1]);
    case Answered(answer) => AnswerKeepsReceipts(trace[i], answer, trace[i + 1]);
  }

  lemma StillRemembered(trace: seq<State>, inputs: seq<Input>, i: nat, j: nat)
    requires IsRun(trace, inputs) && i < j <= |inputs| && inputs[i].Typed?
    requires AsksReceipt(DeedOf(trace[i].ready, inputs[i].command))
    ensures var n := |trace[i].receipts|;
      n < |trace[j].receipts| && trace[j].receipts[n] == inputs[i].command
  {
    assert StepAt(trace, inputs, i);
    TypedKeepsReceipts(trace[i], inputs[i].command, inputs[i].connects, inputs[i].file, trace[i + 1]);
    ReceiptsStay(trace, inputs, i + 1, j);
  }

  /** The client's part of a command that the server has carried out. */
  ghost predicate DoesItsPart(s: State, t: State, command: string)
    requires AsksReceipt(DeedOf(true, command))
  {
    var w := Words(command);
    if w[0] == "exit" then LeftBehind(s, t, w[1])
    else if w[0] == "logout" then
      t == s.(ready := false, connected := false, host := "", port := 0)
    else t == s
  }

  /** The channel has no id any more, and no reports of anyone; all else is as it was. */
  ghost predicate LeftBehind(s: State, t: State, channel: string) {
    && t == s.(ids := t.ids, reports := t.reports)
    && (forall c :: IdOf(t.ids, c) == if c == channel then "" else IdOf(s.ids, c))
    && (forall key :: ReportsAt(t.reports, key) == if key.1 == channel then [] else ReportsAt(s.reports, key))
  }

  lemma ReceiptDoesPart(s: State, command: string)
    requires AsksReceipt(DeedOf(true, command))
    ensures OnReceipt(s, command).Some? && DoesItsPart(s, OnReceipt(s, command).value, command)
    ensures var w := Words(command);
      ReceiptShown(command) == if w[0] == "join" then "Joined channel " + w[1]
                               else if w[0] == "exit" then "Exited channel " + w[1] else "Logout successfully"
  {
  }

  /**
   Over any run of a client: when the server has accepted the frame of a `join`,
   `exit` or `logout` typed earlier, its answer makes the client do its part of
   that very command and tell the user so, whatever was typed and heard between.
   */
  lemma RightCommandAcknowledged(trace: seq<State>, inputs: seq<Input>, i: nat, j: nat, me: Me)
    requires IsRun(trace, inputs) && i < j < |inputs| && inputs[i].Typed? && trace[i].ready
    requires var deed := DeedOf(true, inputs[i].command);
      && AsksReceipt(deed) && (deed.Join? ==> NL !in deed.channel)
      && NamesLine(me) && |trace[i].receipts| <= INT_MAX
      && inputs[j].Answered? && Protocol.Answer(Cut(FrameFor(trace[i], deed)), me, Accepted) == Some(inputs[j].answer)
    ensures DoesItsPart(trace[j], trace[j + 1], inputs[i].command)
    ensures Shown(trace[j], inputs[j].answer) == ReceiptShown(inputs[i].command)
  {
    var command, n := inputs[i].command, |trace[i].receipts|;
    var f := Cut(FrameFor(trace[i], DeedOf(true, command)));
    RunIdsAreNumbers(trace, inputs, i);
    FrameIsReceipted(trace[i], DeedOf(true, command));
    StillRemembered(trace, inputs, i, j);
    assert StepAt(trace, inputs, j);
    ReceiptHeard(trace[j], f, me, n);
    ReceiptDoesPart(trace[j], command);
  }
}
