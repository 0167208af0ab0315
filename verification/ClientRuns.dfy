/** What a client sends, keeps and writes over its runs, command by command. */
module ClientRuns {
  import opened Wrappers
  import opened Text
  import opened StompText
  import opened Events
  import opened Reports
  import opened Client
  import opened ClientIds
  import S = Summary

  // ---------------------------------------------------------------- ids and numbers

  /** What a command changes before it is answered, and what it does not. */
  lemma AfterChanges(s: State, deed: Deed, command: string, connects: bool, file: NamesAndEvents, channel: string)
    ensures var t, enters := After(s, deed, command, connects, file), deed.Login? && connects;
      && IdOf(t.ids, channel)
         == (if deed.Join? && deed.channel == channel then JoinId(s, channel) else IdOf(s.ids, channel))
      && (!deed.Report? ==> t.reports == s.reports)
      && (if enters then t.ready && t.connected && t.user == deed.user
          else t.ready == s.ready && t.connected == s.connected && t.user == s.user)
      && (if deed.Login? then t.host == deed.host && t.port == deed.port else t.host == s.host && t.port == s.port)
  {
  }

  /** A `join` of a channel that has no id. */
  predicate NeedsId(s: State, input: Input) {
    && input.Typed? && DeedOf(s.ready, input.command).Join?
    && IdOf(s.ids, DeedOf(s.ready, input.command).channel) == ""
  }

  /** How many such there were before the `i`-th input. */
  function IdsGiven(trace: seq<State>, inputs: seq<Input>, i: nat): nat
    requires |trace| == |inputs| + 1 && i <= |inputs|
  {
    if i == 0 then 0 else IdsGiven(trace, inputs, i - 1) + if NeedsId(trace[i - 1], inputs[i - 1]) then 1 else 0
  }

  lemma TypedCounts(s: State, command: string, connects: bool, file: NamesAndEvents, t: State)
    requires Follows(s, Typed(command, connects, file), t)
    ensures t.counter == s.counter + if NeedsId(s, Typed(command, connects, file)) then 1 else 0
  {
    var deed := DeedOf(s.ready, command);
    var q := After(s, deed, command, connects, file);
    var files, now, date :| Settles(q, t, deed, files, now, date);
    SettlesCounts(q, t, deed, files, now, date);
    AfterCounts(s, deed, command, connects, file);
  }

  lemma AfterCounts(s: State, deed: Deed, command: string, connects: bool, file: NamesAndEvents)
    ensures After(s, deed, command, connects, file).counter
         == s.counter + if deed.Join? && IdOf(s.ids, deed.channel) == "" then 1 else 0
  {
  }

  lemma SettlesCounts(s: State, t: State, deed: Deed, files: map<string, string>, now: map<string, string>,
                      date: int -> string)
    requires Settles(s, t, deed, files, now, date)
    ensures t.counter == s.counter
  {
  }

  lemma NextCounts(trace: seq<State>, inputs: seq<Input>, i: nat)
    requires IsRun(trace, inputs) && i < |inputs|
    ensures trace[i + 1].counter == trace[i].counter + if NeedsId(trace[i], inputs[i]) then 1 else 0
  {
    assert StepAt(trace, inputs, i);
    match inputs[i]
    case Typed(command, connects, file) => TypedCounts(trace[i], command, connects, file, trace[i + 1]);
    case Answered(answer) => AnswersFreeIds(trace[i], answer, trace[i + 1]);
  }

  /** Ids are given out as 0, 1, 2 and so on, one for each `join` of a channel that has none. */
  lemma {:induction false} IdsFromZero(trace: seq<State>, inputs: seq<Input>, i: nat)
    requires IsRun(trace, inputs) && i <= |inputs|
    ensures trace[i].counter == IdsGiven(trace, inputs, i)
    ensures i < |inputs| && NeedsId(trace[i], inputs[i]) ==>
      JoinId(trace[i], DeedOf(trace[i].ready, inputs[i].command).channel) == NatText(IdsGiven(trace, inputs, i))
  {
    if i > 0 {
      IdsFromZero(trace, inputs, i - 1);
      NextCounts(trace, inputs, i - 1);
    }
  }

  /** The frames of the commands that ask for a receipt, and of the login. */
  lemma FramesLook(s: State, channel: string, host: string, port: int, user: string, password: string,
                   file: NamesAndEvents)
    ensures var receipt, id := NatText(|s.receipts|), IdOf(s.ids, channel);
      && FramesFor(s, Join(channel), false, file)
         == ["SUBSCRIBE\ndestination:" + channel + "\nid:" + (if id == "" then NatText(s.counter) else id)
             + "\nreceipt:" + receipt + "\n\n"]
      && FramesFor(s, Exit(channel), false, file)
         == ["UNSUBSCRIBE\n" + ("id:" + (if id == "" then "-1" else id) + "\nreceipt:" + receipt + "\n\n")]
      && FramesFor(s, Logout, false, file) == ["DISCONNECT\n" + ("receipt:" + receipt + "\n\n")]
      && FramesFor(s, Login(host, port, user, password), false, file) == []
      && FramesFor(s, Login(host, port, user, password), true, file) == [ConnectFrame(user, password)]
  {
  }

  // ---------------------------------------------------------------- before the login

  predicate LogsIn(s: State, input: Input) {
    input.Typed? && DeedOf(s.ready, input.command).Login? && input.connects
  }

  lemma StaysOut(s: State, input: Input, t: State)
    requires Follows(s, input, t) && !s.ready && !LogsIn(s, input)
    ensures !t.ready
  {
    match input
    case Typed(command, connects, file) =>
      var deed := DeedOf(s.ready, command);
      var files, now, date :| Settles(After(s, deed, command, connects, file), t, deed, files, now, date);
      SettlesOnline(After(s, deed, command, connects, file), t, deed, files, now, date);
      AfterOnline(s, deed, command, connects, file);
    case Answered(answer) => AnswersUnready(s, answer, t);
  }

  lemma {:induction false} OutUntilLogin(trace: seq<State>, inputs: seq<Input>, i: nat)
    requires IsRun(trace, inputs) && i <= |inputs|
    requires forall k :: 0 <= k < i ==> !LogsIn(trace[k], inputs[k])
    ensures !trace[i].ready
  {
    if i > 0 {
      OutUntilLogin(trace, inputs, i - 1);
      assert StepAt(trace, inputs, i - 1);
      StaysOut(trace[i - 1], inputs[i - 1], trace[i]);
    }
  }

  /** Until a login has connected, whatever is typed sends nothing. */
  lemma NothingBeforeLogin(trace: seq<State>, inputs: seq<Input>, i: nat, command: string, file: NamesAndEvents)
    requires IsRun(trace, inputs) && i <= |inputs|
    requires forall k :: 0 <= k < i ==> !LogsIn(trace[k], inputs[k])
    ensures FramesFor(trace[i], DeedOf(trace[i].ready, command), false, file) == []
  {
    OutUntilLogin(trace, inputs, i);
  }

  // ---------------------------------------------------------------- reports

  /** Is the channel one that the client takes itself to have joined? */
  predicate Joined(s: State, channel: string) {
    channel in s.ids && s.ids[channel] != "" && s.ids[channel] != "-1"
  }

  /** `report` sends and files every event as the user's own, on a channel that was joined; else it does nothing. */
  lemma ReportDone(s: State, command: string, connects: bool, file: NamesAndEvents)
    ensures var frames, t := FramesFor(s, Report, connects, file), After(s, Report, command, connects, file);
      if !Joined(s, Trim(file.channel)) then frames == [] && t.reports == s.reports
      else
        && |frames| == |file.events|
        && (forall i :: 0 <= i < |frames| ==>
              frames[i] == "SEND\ndestination: " + Trim(file.channel) + "\n\n" + Body(file.events[i].(owner := s.user)))
        && forall key :: ReportsAt(t.reports, key)
             == ReportsAt(s.reports, key) + if key == (s.user, file.channel) then Owned(file.events, s.user) else []
  {
  }

  // ---------------------------------------------------------------- summaries

  /** A file that starts with the counts for `list` and lists `r` in full. */
  ghost predicate Reported(text: string, channel: string, list: seq<Event>, r: seq<Event>, date: int -> string) {
    && S.Heads(text, channel, |list|, Count(list, "active"), Count(list, "forces_arrival_at_scene"))
    && forall k :: 0 <= k < |r| ==> ListedIn(text, k + 1, r[k], date)
  }

  ghost predicate ListedIn(text: string, number: nat, e: Event, date: int -> string) {
    exists before, after :: S.Lists(text, before, number, e, date, after)
  }

  ghost predicate Ordered(r: seq<Event>) {
    forall i, j :: 0 <= i < j < |r| ==> S.InOrder(r[i], r[j])
  }

  lemma WholeFileReported(channel: string, list: seq<Event>, r: seq<Event>, date: int -> string)
    requires S.SortOf(r, list) && list != []
    ensures Reported(S.SummaryText(channel, r, date), channel, list, r, date) && Ordered(r) && |r| == |list|
  {
    var text := S.SummaryText(channel, r, date);
    S.SameMembers(r, list);
    forall k | 0 <= k < |r|
      ensures ListedIn(text, k + 1, r[k], date)
    {
      var before, after := S.SummaryLists(channel, list, r, date, k);
    }
    var before, after := S.SummaryLists(channel, list, r, date, 0);
    assert before <= text;
  }

  /** What `summary` writes for `list`, and in which order it keeps it. */
  ghost predicate Written(text: string, channel: string, list: seq<Event>, r: seq<Event>, date: int -> string) {
    multiset(r) == multiset(list) && Ordered(r) && Reported(text, channel, list, r, date)
  }

  lemma SummaryWritten(s: State, t: State, deed: Deed, files: map<string, string>, now: map<string, string>,
                       date: int -> string) returns (r: seq<Event>)
    requires Writes(s, deed) && Settles(s, t, deed, files, now, date)
    ensures var key := (deed.user, deed.channel);
      && t == s.(reports := s.reports[key := r]) && deed.path in now
      && now == files[deed.path := now[deed.path]]
      && Written(now[deed.path], deed.channel, ReportsAt(s.reports, key), r, date)
  {
    r :| Summarised(s, t, deed, files, now, date, r);
    WholeFileReported(deed.channel, ReportsAt(s.reports, (deed.user, deed.channel)), r, date);
  }

  /**
   `summary channel user path`: for a joined channel and a user with reports
   there, just the file at `path` is written, with the list in order, and the
   list is kept in that order; in any other case nothing is written or changed.
   */
  lemma SummaryDone(s: State, t: State, channel: string, user: string, path: string,
                    files: map<string, string>, now: map<string, string>, date: int -> string) returns (r: seq<Event>)
    requires Settles(s, t, Summarise(channel, user, path), files, now, date)
    ensures var list := ReportsAt(s.reports, (user, channel));
      if Joined(s, channel) && list != [] then
        && t == s.(reports := s.reports[(user, channel) := r])
        && path in now && now == files[path := now[path]] && Written(now[path], channel, list, r, date)
      else t == s && now == files
  {
    r := [];
    if Writes(s, Summarise(channel, user, path)) {
      r := SummaryWritten(s, t, Summarise(channel, user, path), files, now, date);
    }
  }
}
