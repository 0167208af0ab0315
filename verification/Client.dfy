/**
 The client's keyboard handler: what each command sends and records, and what an
 answer from the server does to the records.
 */
module Client {
  import opened Wrappers
  import opened Text
  import opened StompText
  import opened Events
  import opened Reports
  import S = Summary

  type ReportKey = (string, string)

  /** `host`, `port` and `connected` are those of the connection handler. */
  datatype State = State(
    ready: bool,
    counter: nat,
    user: string,
    receipts: seq<string>,
    ids: map<string, string>,
    reports: map<ReportKey, seq<Event>>,
    host: string,
    port: int,
    connected: bool)

  const NEW_CLIENT: State := State(false, 0, "", [], map[], map[], "", 0, false)

  /** A command line as the handler understands it. `Fails`: `std::stoi` throws on the port. */
  datatype Deed =
    | Login(host: string, port: int, user: string, password: string)
    | Fails
    | Join(channel: string)
    | Exit(channel: string)
    | Report
    | Summarise(channel: string, user: string, path: string)
    | Logout
    | Nothing

  function Words(command: string): seq<string> {
    GetLines(command, ' ')
  }

  /** What precedes the first colon, or everything. */
  function HostText(address: string): string {
    if Find(address, ":") == -1 then address else address[..Find(address, ":")]
  }

  /** What follows the first colon, or everything. */
  function PortText(address: string): string {
    address[Find(address, ":") + 1..]
  }

  /** `static_cast<short>` */
  function Short(n: int): int {
    (n + 0x8000) % 0x1_0000 - 0x8000
  }

  function LoginDeed(address: string, user: string, password: string): Deed {
    match Stoi(PortText(address))
    case Err(_) => Fails
    case Ok(n) => Login(HostText(address), Short(n), user, password)
  }

  function DeedOf(ready: bool, command: string): Deed {
    var w := Words(command);
    if w == [] then Nothing
    else if !ready then
      if w[0] == "login" && |w| == 4 then LoginDeed(w[1], w[2], w[3]) else Nothing
    else if w[0] == "join" && |w| == 2 then Join(Trim(w[1]))
    else if w[0] == "exit" && |w| == 2 then Exit(w[1])
    else if w[0] == "report" && |w| == 2 then Report
    else if w[0] == "summary" && |w| == 4 then Summarise(w[1], w[2], w[3])
    else if w[0] == "logout" && |w| == 1 then Logout
    else Nothing
  }

  // ---------------------------------------------------------------- subscription ids

  /** `map[channel]`, which adds an empty entry for a channel not there. */
  function Touched(ids: map<string, string>, channel: string): map<string, string> {
    if channel in ids then ids else ids[channel := ""]
  }

  function IdOf(ids: map<string, string>, channel: string): string {
    if channel in ids then ids[channel] else ""
  }

  function ConnectFrame(user: string, password: string): string {
    "CONNECT\n"
    + ("accept-version:1.2\n" + ("host:stomp.cs.bgu.ac.il\nlogin:" + user + "\npasscode:" + password + "\n\n"))
  }

  function UnsubscribeFrame(id: string, receipt: string): string {
    "UNSUBSCRIBE\n" + ("id:" + id + "\nreceipt:" + receipt + "\n\n")
  }

  function DisconnectFrame(receipt: string): string {
    "DISCONNECT\n" + ("receipt:" + receipt + "\n\n")
  }

  /** What `report` was given: a channel and its events. */
  datatype NamesAndEvents = NamesAndEvents(channel: string, events: seq<Event>)

  function Owned(events: seq<Event>, user: string): seq<Event> {
    seq(|events|, i requires 0 <= i < |events| => events[i].(owner := user))
  }

  function ReportsAt(reports: map<ReportKey, seq<Event>>, key: ReportKey): seq<Event> {
    if key in reports then reports[key] else []
  }

  function ReportsOf(s: State, key: ReportKey): seq<Event> {
    ReportsAt(s.reports, key)
  }

  /** The reports with `es` appended under `key`. */
  function Filed(reports: map<ReportKey, seq<Event>>, key: ReportKey, es: seq<Event>): map<ReportKey, seq<Event>> {
    if es == [] then reports else reports[key := ReportsAt(reports, key) + es]
  }

  lemma FiledSnoc(reports: map<ReportKey, seq<Event>>, key: ReportKey, es: seq<Event>, e: Event)
    ensures Filed(Filed(reports, key, es), key, [e]) == Filed(reports, key, es + [e])
  {
    var list := ReportsAt(reports, key);
    assert (list + es) + [e] == list + (es + [e]);
    if es == [] {
      assert es + [e] == [e];
    }
  }

  ghost function ReportFrames(channel: string, events: seq<Event>): (frames: seq<string>)
    ensures |frames| == |events| && forall i :: 0 <= i < |events| ==> frames[i] == ReportFrame(channel, events[i])
  {
    seq(|events|, i requires 0 <= i < |events| => ReportFrame(channel, events[i]))
  }

  function JoinId(s: State, channel: string): string {
    if IdOf(s.ids, channel) == "" then NatText(s.counter) else s.ids[channel]
  }

  function AfterJoin(s: State, command: string, channel: string): State {
    s.(receipts := s.receipts + [command],
       ids := s.ids[channel := JoinId(s, channel)],
       counter := if IdOf(s.ids, channel) == "" then s.counter + 1 else s.counter)
  }

  function ExitId(s: State, channel: string): string {
    if IdOf(s.ids, channel) == "" then "-1" else s.ids[channel]
  }

  function AfterReport(s: State, file: NamesAndEvents): State {
    var known := Trim(file.channel);
    var t := s.(ids := Touched(s.ids, known));
    if ExitId(s, known) == "-1" then t
    else t.(reports := Filed(s.reports, (s.user, file.channel), Owned(file.events, s.user)))
  }

  /** The state after a command, up to the order of the reports just summarised. */
  function After(s: State, deed: Deed, command: string, connects: bool, file: NamesAndEvents): State {
    match deed
    case Login(host, port, user, _) =>
      var t := s.(host := host, port := port);
      if connects then t.(ready := true, connected := true, user := user) else t
    case Fails => s
    case Join(channel) => AfterJoin(s, command, channel)
    case Exit(channel) => s.(receipts := s.receipts + [command], ids := Touched(s.ids, channel))
    case Report => AfterReport(s, file)
    case Summarise(channel, _, _) => s.(ids := Touched(s.ids, channel))
    case Logout => s.(receipts := s.receipts + [command])
    case Nothing => s
  }

  /** The frames a command sends. */
  ghost function FramesFor(s: State, deed: Deed, connects: bool, file: NamesAndEvents): seq<string> {
    var receipt := NatText(|s.receipts|);
    match deed
    case Login(_, _, user, password) => if connects then [ConnectFrame(user, password)] else []
    case Fails => []
    case Join(channel) => [SubscribeFrame(channel, JoinId(s, channel), receipt)]
    case Exit(channel) => [UnsubscribeFrame(ExitId(s, channel), receipt)]
    case Report =>
      if ExitId(s, Trim(file.channel)) == "-1" then []
      else ReportFrames(file.channel, Owned(file.events, s.user))
    case Summarise(_, _, _) => []
    case Logout => [DisconnectFrame(receipt)]
    case Nothing => []
  }

  /** The sending loop takes the frames of a command from the back. */
  function SendOrder(frames: seq<string>): (r: seq<string>)
    ensures |r| == |frames| && forall i :: 0 <= i < |r| ==> r[i] == frames[|frames| - 1 - i]
    ensures forall f :: f in r ==> f in frames
  {
    if frames == [] then [] else [frames[|frames| - 1]] + SendOrder(frames[..|frames| - 1])
  }

  method SendLines(frames: seq<string>) returns (sent: seq<string>)
    ensures sent == SendOrder(frames)
  {
    var line := frames;
    sent := [];
    while line != []
      invariant sent + SendOrder(line) == SendOrder(frames)
    {
      sent := sent + [line[|line| - 1]];
      line := line[..|line| - 1];
    }
  }

  /** Does `summary` write anything? Only for a channel with an id and a user with reports there. */
  predicate Writes(s: State, deed: Deed) {
    && deed.Summarise? && IdOf(s.ids, deed.channel) != "" && IdOf(s.ids, deed.channel) != "-1"
    && ReportsOf(s, (deed.user, deed.channel)) != []
  }

  /** The text written for the reports in the order `r`, which is also the order kept. */
  predicate Summarised(s: State, t: State, deed: Deed, files: map<string, string>, now: map<string, string>,
                       date: int -> string, r: seq<Event>)
    requires Writes(s, deed)
  {
    var key := (deed.user, deed.channel);
    && S.SortOf(r, ReportsOf(s, key))
    && t == s.(reports := s.reports[key := r])
    && now == files[deed.path := S.SummaryText(deed.channel, r, date)]
  }

  /** What happens after a command's own effect: `summary` sorts and writes, the rest nothing. */
  ghost predicate Settles(s: State, t: State, deed: Deed, files: map<string, string>, now: map<string, string>,
                          date: int -> string)
  {
    if Writes(s, deed) then exists r :: Summarised(s, t, deed, files, now, date, r)
    else t == s && now == files
  }

  // ---------------------------------------------------------------- answers

  /** The server's word for a channel the user has left. */
  function Forget(reports: map<ReportKey, seq<Event>>, channel: string): map<ReportKey, seq<Event>> {
    map k | k in reports && k.1 != channel :: reports[k]
  }

  function Released(ids: map<string, string>, channel: string): map<string, string> {
    if IdOf(ids, channel) != "" then ids - {channel} else ids[channel := ""]
  }

  ghost function ForgetAmong(reports: map<ReportKey, seq<Event>>, channel: string, visited: set<ReportKey>)
    : map<ReportKey, seq<Event>>
  {
    map k | k in reports && !(k in visited && k.1 == channel) :: reports[k]
  }

  /** A RECEIPT for the command it answers. */
  function OnReceipt(s: State, command: string): Option<State> {
    var w := Words(command);
    if w == [] then Some(s)
    else if w[0] == "exit" then
      if |w| < 2 then None else Some(s.(ids := Released(s.ids, w[1]), reports := Forget(s.reports, w[1])))
    else if w[0] == "join" && |w| < 2 then None
    else if w[0] == "logout" then Some(s.(ready := false, connected := false, host := "", port := 0))
    else Some(s)
  }

  /** A MESSAGE: the event joins the reports of its owner on that channel. */
  function OnMessage(s: State, answer: string): Option<State>
    requires answer != ""
  {
    match ReadMessage(answer)
    case Err(_) => None
    case Ok((dest, e)) =>
      Some(s.(reports := Filed(s.reports, (e.owner, dest), [e])))
  }

  function ReceiptCommand(s: State, tokens: seq<string>): Option<string> {
    match HeaderValue(tokens, "receipt-id:")
    case Err(_) => None
    case Ok(text) =>
      match Stoi(text)
      case Err(_) => None
      case Ok(i) => if 0 <= i < |s.receipts| then Some(s.receipts[i]) else None
  }

  function OnReceiptTokens(s: State, tokens: seq<string>): Option<State> {
    if LastWith(tokens, "receipt-id:") == "" then Some(s)
    else
      match ReceiptCommand(s, tokens)
      case None => None
      case Some(command) => OnReceipt(s, command)
  }

  /** `translateAnswerToResponse`; `None` where it throws or reads out of bounds. */
  function OnAnswer(s: State, answer: string): Option<State> {
    if answer == "" then Some(s)
    else
      var tokens := CutAnswer(answer).tokens;
      if tokens == [] then Some(s)
      else if tokens[0] == "MESSAGE" then OnMessage(s, answer)
      else if tokens[0] == "RECEIPT" then OnReceiptTokens(s, tokens)
      else if tokens[0] == "ERROR" then
        if |tokens| < 2 || |tokens[1]| < |"message:"| then None else Some(s.(connected := false))
      else Some(s)
  }

  /** What the user is shown for a receipt. */
  function ReceiptShown(command: string): string {
    var w := Words(command);
    if |w| < 1 then ""
    else if w[0] == "join" && |w| >= 2 then "Joined channel " + w[1]
    else if w[0] == "exit" && |w| >= 2 then "Exited channel " + w[1]
    else if w[0] == "logout" then "Logout successfully"
    else ""
  }

  /** The text returned for an answer that does not throw. */
  function Shown(s: State, answer: string): string {
    if answer == "" then ""
    else
      var tokens := CutAnswer(answer).tokens;
      if tokens == [] then ""
      else if tokens[0] == "CONNECTED" then "Login successful"
      else if tokens[0] == "RECEIPT" then ReceiptTokensShown(s, tokens)
      else if tokens[0] == "ERROR" && |tokens| >= 2 && |tokens[1]| >= |"message:"| then tokens[1][|"message:"|..]
      else ""
  }

  function ReceiptTokensShown(s: State, tokens: seq<string>): string {
    if LastWith(tokens, "receipt-id:") == "" then ""
    else
      match ReceiptCommand(s, tokens)
      case None => ""
      case Some(command) => ReceiptShown(command)
  }

  // ---------------------------------------------------------------- the class

  class KeyboardHandler {
    var connectionReady: bool
    var subscribeIdCounter: nat
    var currentUser: string
    var receipts: seq<string>
    var channelSubscribeIdMap: map<string, string>
    var userChannelReports: map<ReportKey, seq<Event>>

    /** The connection handler's address, and whether its socket is connected. */
    var host: string
    var port: int
    var connected: bool

    /** The files written so far, by path. */
    var files: map<string, string>

    ghost function Now(): State
      reads this
    {
      State(connectionReady, subscribeIdCounter, currentUser, receipts, channelSubscribeIdMap, userChannelReports,
            host, port, connected)
    }

    constructor ()
      ensures Now() == NEW_CLIENT && files == map[]
    {
      connectionReady, subscribeIdCounter, currentUser := false, 0, "";
      receipts, channelSubscribeIdMap, userChannelReports := [], map[], map[];
      host, port, connected := "", 0, false;
      files := map[];
    }

    /** `thrown`: a login whose port is no number. */
    method CommandToFrame(command: string, connects: bool, file: NamesAndEvents, date: int -> string)
        returns (frames: seq<string>, thrown: bool)
      modifies this
      ensures var deed := DeedOf(old(connectionReady), command);
        && thrown == deed.Fails?
        && frames == FramesFor(old(Now()), deed, connects, file)
        && Settles(After(old(Now()), deed, command, connects, file), Now(), deed, old(files), files, date)
    {
      var deed := DeedOf(connectionReady, command);
      thrown := deed.Fails?;
      frames := Obey(deed, command, connects, file);
      if deed.Summarise? {
        SummariseReports(deed.channel, deed.user, deed.path, date);
      }
    }

    /** All that a command does, short of writing a summary. */
    method Obey(deed: Deed, command: string, connects: bool, file: NamesAndEvents) returns (frames: seq<string>)
      modifies this
      ensures frames == FramesFor(old(Now()), deed, connects, file)
      ensures Now() == After(old(Now()), deed, command, connects, file) && files == old(files)
    {
      frames := [];
      match deed {
        case Login(address, number, user, password) =>
          host, port := address, number;
          if connects {
            connectionReady, connected, currentUser := true, true, user;
            frames := [ConnectFrame(user, password)];
          }
        case Fails =>
        case Join(channel) =>
          frames := JoinChannel(command, channel);
        case Exit(channel) =>
          var id := LookUp(channel);
          frames := [UnsubscribeFrame(if id == "" then "-1" else id, NatText(|receipts|))];
          receipts := receipts + [command];
        case Report =>
          frames := ReportEvents(file);
        case Summarise(channel, _, _) =>
          var id := LookUp(channel);
        case Logout =>
          frames := [DisconnectFrame(NatText(|receipts|))];
          receipts := receipts + [command];
        case Nothing =>
      }
    }

    /** `channelSubscribeIdMap_[channel]` */
    method LookUp(channel: string) returns (id: string)
      modifies this`channelSubscribeIdMap
      ensures channelSubscribeIdMap == Touched(old(channelSubscribeIdMap), channel)
      ensures id == IdOf(old(channelSubscribeIdMap), channel)
    {
      if channel !in channelSubscribeIdMap {
        channelSubscribeIdMap := channelSubscribeIdMap[channel := ""];
      }
      id := channelSubscribeIdMap[channel];
    }

    method JoinChannel(command: string, channel: string) returns (frames: seq<string>)
      modifies this
      ensures Now() == AfterJoin(old(Now()), command, channel) && files == old(files)
      ensures frames == [SubscribeFrame(channel, JoinId(old(Now()), channel), NatText(|old(receipts)|))]
    {
      var receiptId := NatText(|receipts|);
      receipts := receipts + [command];
      var id := LookUp(channel);
      if id == "" {
        id := NatText(subscribeIdCounter);
        channelSubscribeIdMap := channelSubscribeIdMap[channel := id];
        subscribeIdCounter := subscribeIdCounter + 1;
      }
      frames := [SubscribeFrame(channel, id, receiptId)];
    }

    method ReportEvents(file: NamesAndEvents) returns (frames: seq<string>)
      modifies this`channelSubscribeIdMap, this`userChannelReports
      ensures Now() == AfterReport(old(Now()), file) && files == old(files)
      ensures frames == if ExitId(old(Now()), Trim(file.channel)) == "-1" then []
                        else ReportFrames(file.channel, Owned(file.events, old(currentUser)))
    {
      frames := [];
      var id := LookUp(Trim(file.channel));
      if id != "" && id != "-1" {
        frames := FileReports(file.channel, Owned(file.events, currentUser));
      }
    }

    /** The reporting loop: each event becomes a frame and an entry of the own reports. */
    method FileReports(channel: string, owned: seq<Event>) returns (frames: seq<string>)
      modifies this`userChannelReports
      ensures userChannelReports == Filed(old(userChannelReports), (currentUser, channel), owned)
      ensures frames == ReportFrames(channel, owned)
    {
      frames := [];
      ghost var before := userChannelReports;
      for i := 0 to |owned|
        invariant frames == ReportFrames(channel, owned[..i])
        invariant userChannelReports == Filed(before, (currentUser, channel), owned[..i])
      {
        var body := PrintBody(owned[i]);
        TakeMore(owned, i);
        FiledSnoc(before, (currentUser, channel), owned[..i], owned[i]);
        var eventFrame := "SEND\ndestination: " + Trim(channel) + "\n\n" + body;
        assert eventFrame == ReportFrame(channel, owned[i]);
        frames := frames + [eventFrame];
        PushReport((currentUser, channel), owned[i]);
      }
      assert owned[..|owned|] == owned;
    }

    /** `userChannelReports_[key].push_back(e)` */
    method PushReport(key: ReportKey, e: Event)
      modifies this`userChannelReports
      ensures userChannelReports == Filed(old(userChannelReports), key, [e])
    {
      var list := if key in userChannelReports then userChannelReports[key] else [];
      userChannelReports := userChannelReports[key := list + [e]];
    }

    method SummariseReports(channel: string, user: string, path: string, date: int -> string)
      modifies this`userChannelReports, this`files
      ensures Settles(old(Now()), Now(), Summarise(channel, user, path), old(files), files, date)
    {
      var id := if channel in channelSubscribeIdMap then channelSubscribeIdMap[channel] else "";
      var key := (user, channel);
      if id != "" && id != "-1" && key in userChannelReports && userChannelReports[key] != [] {
        var r := SortReports(userChannelReports[key]);
        userChannelReports := userChannelReports[key := r];
        var text := S.WriteSummary(channel, r, date);
        files := files[path := text];
        assert Summarised(old(Now()), Now(), Summarise(channel, user, path), old(files), files, date, r);
      }
    }

    /** `std::sort`: all that is known is that it sorts. */
    method SortReports(s: seq<Event>) returns (r: seq<Event>)
      ensures S.SortOf(r, s)
    {
      S.InsertionSortSorts(s);
      r := S.InsertionSort(s);
    }

    method TranslateAnswer(answer: string) returns (ok: bool, response: string)
      modifies this
      ensures ok <==> OnAnswer(old(Now()), answer).Some?
      ensures ok ==> response == Shown(old(Now()), answer)
      ensures ok ==> OnAnswer(old(Now()), answer) == Some(Now())
      ensures !ok ==> Now() == old(Now())
      ensures files == old(files)
    {
      ok, response := true, "";
      if answer == "" {
        return;
      }
      var a := CutAnswer(answer);
      if a.tokens == [] {
        return;
      }
      if a.tokens[0] == "CONNECTED" {
        response := "Login successful";
      } else if a.tokens[0] == "MESSAGE" {
        ok := TakeMessage(answer);
      } else if a.tokens[0] == "RECEIPT" {
        ok, response := TakeReceipt(a.tokens);
      } else if a.tokens[0] == "ERROR" {
        ok := |a.tokens| >= 2 && |a.tokens[1]| >= |"message:"|;
        if ok {
          response := a.tokens[1][|"message:"|..];
          connected := false;
        }
      }
    }

    method TakeMessage(answer: string) returns (ok: bool)
      requires answer != ""
      modifies this`userChannelReports
      ensures ok <==> OnMessage(old(Now()), answer).Some?
      ensures ok ==> OnMessage(old(Now()), answer) == Some(Now())
      ensures !ok ==> Now() == old(Now())
    {
      var m := ReadMessage(answer);
      if m.Err? {
        return false;
      }
      var (dest, e) := m.value;
      PushReport((e.owner, dest), e);
      ok := true;
    }

    /** The loop that keeps the last matching token. */
    method FindToken(tokens: seq<string>, header: string) returns (token: string)
      ensures token == LastWith(tokens, header)
    {
      token := "";
      for i := 0 to |tokens|
        invariant token == LastWith(tokens[..i], header)
      {
        assert tokens[..i + 1][..i] == tokens[..i];
        if Contains(tokens[i], header) {
          token := tokens[i];
        }
      }
      assert tokens[..|tokens|] == tokens;
    }

    method TakeReceipt(tokens: seq<string>) returns (ok: bool, response: string)
      modifies this
      ensures ok ==> response == ReceiptTokensShown(old(Now()), tokens)
      ensures ok <==> OnReceiptTokens(old(Now()), tokens).Some?
      ensures ok ==> OnReceiptTokens(old(Now()), tokens) == Some(Now())
      ensures !ok ==> Now() == old(Now())
      ensures files == old(files)
    {
      ok, response := true, "";
      var receipt := FindToken(tokens, "receipt-id:");
      if receipt == "" {
        return;
      }
      var text := HeaderValue(tokens, "receipt-id:");
      if text.Err? {
        return false, "";
      }
      var index := Stoi(text.value);
      if index.Err? || !(0 <= index.value < |receipts|) {
        return false, "";
      }
      ok, response := TakeCommand(receipts[index.value]);
    }

    /** The branches on the command that the receipt is for. */
    method TakeCommand(command: string) returns (ok: bool, response: string)
      modifies this
      ensures ok <==> OnReceipt(old(Now()), command).Some?
      ensures ok ==> OnReceipt(old(Now()), command) == Some(Now()) && response == ReceiptShown(command)
      ensures !ok ==> Now() == old(Now())
      ensures files == old(files)
    {
      ok, response := true, "";
      var w := Words(command);
      if w == [] {
        return;
      }
      if w[0] == "exit" {
        if |w| < 2 {
          return false, "";
        }
        LeaveChannel(w[1]);
        response := "Exited channel " + w[1];
      } else if w[0] == "join" {
        if |w| < 2 {
          return false, "";
        }
        response := "Joined channel " + w[1];
      } else if w[0] == "logout" {
        connectionReady, connected, host, port := false, false, "", 0;
        response := "Logout successfully";
      }
    }

    method LeaveChannel(channel: string)
      modifies this`channelSubscribeIdMap, this`userChannelReports
      ensures channelSubscribeIdMap == Released(old(channelSubscribeIdMap), channel)
      ensures userChannelReports == Forget(old(userChannelReports), channel)
    {
      var id := LookUp(channel);
      if id != "" {
        channelSubscribeIdMap := channelSubscribeIdMap - {channel};
      }
      EraseReports(channel);
    }

    /** The erasing loop over `userChannelReports_`. */
    method EraseReports(channel: string)
      modifies this`userChannelReports
      ensures userChannelReports == Forget(old(userChannelReports), channel)
    {
      var keys := userChannelReports.Keys;
      ghost var before := userChannelReports;
      while keys != {}
        invariant keys <= before.Keys
        invariant userChannelReports == ForgetAmong(before, channel, before.Keys - keys)
        decreases |keys|
      {
        var key :| key in keys;
        if key.1 == channel {
          userChannelReports := userChannelReports - {key};
        }
        keys := keys - {key};
      }
    }
  }
}
