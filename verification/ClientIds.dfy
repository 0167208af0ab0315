/**
 The subscription ids a client hands out, over any run of commands and answers:
 no id is ever used for two channels, whatever is typed before which receipt.
 */
module ClientIds {
  import opened Wrappers
  import opened Text
  import opened Reports
  import opened Client

  datatype Input =
    | Typed(command: string, connects: bool, file: NamesAndEvents)
    | Answered(answer: string)

  ghost predicate Follows(s: State, input: Input, t: State) {
    match input
    case Typed(command, connects, file) =>
      var deed := DeedOf(s.ready, command);
      var q := After(s, deed, command, connects, file);
      !deed.Fails? && exists files, now, date :: Settles(q, t, deed, files, now, date)
    case Answered(answer) => OnAnswer(s, answer) == Some(t)
  }

  /** The (channel, id) pair of the SUBSCRIBE frame that a command makes the client send. */
  function AskedBy(s: State, deed: Deed): set<(string, string)> {
    if deed.Join? then {(deed.channel, JoinId(s, deed.channel))} else {}
  }

  function Asked(s: State, input: Input): set<(string, string)> {
    match input
    case Typed(command, _, _) => AskedBy(s, DeedOf(s.ready, command))
    case Answered(_) => {}
  }

  // ---------------------------------------------------------------- invariant

  predicate Numbered(log: set<(string, string)>, counter: nat) {
    forall p :: p in log ==> exists n: nat :: n < counter && p.1 == NatText(n)
  }

  predicate OneChannelEach(log: set<(string, string)>) {
    forall p, q :: p in log && q in log && p.1 == q.1 ==> p.0 == q.0
  }

  predicate LiveLogged(ids: map<string, string>, log: set<(string, string)>) {
    forall c :: c in ids && ids[c] != "" ==> (c, ids[c]) in log
  }

  /** `log` holds every pair asked for so far. */
  predicate IdsBound(s: State, log: set<(string, string)>) {
    Numbered(log, s.counter) && OneChannelEach(log) && LiveLogged(s.ids, log)
  }

  lemma FreshId(log: set<(string, string)>, counter: nat)
    requires Numbered(log, counter)
    ensures forall p :: p in log ==> p.1 != NatText(counter)
  {
    forall p | p in log
      ensures p.1 != NatText(counter)
    {
      var n: nat :| n < counter && p.1 == NatText(n);
      if NatText(n) == NatText(counter) {
        NatTextInjective(n, counter);
      }
    }
  }

  lemma JoinKeeps(s: State, command: string, channel: string, log: set<(string, string)>)
    requires IdsBound(s, log)
    ensures IdsBound(AfterJoin(s, command, channel), log + {(channel, JoinId(s, channel))})
  {
    FreshId(log, s.counter);
    var t, more := AfterJoin(s, command, channel), log + {(channel, JoinId(s, channel))};
    if IdOf(s.ids, channel) == "" {
      forall p | p in more
        ensures exists n: nat :: n < t.counter && p.1 == NatText(n)
      {
        if p in log {
          var n: nat :| n < s.counter && p.1 == NatText(n);
          assert n < t.counter && p.1 == NatText(n);
        } else {
          assert s.counter < t.counter && p.1 == NatText(s.counter);
        }
      }
    } else {
      assert more == log;
    }
  }

  /** No new live id appears, and no number is used. */
  predicate IdsOnlyGo(s: State, t: State) {
    t.counter == s.counter && forall c :: c in t.ids && t.ids[c] != "" ==> c in s.ids && s.ids[c] == t.ids[c]
  }

  lemma DeedKeeps(s: State, deed: Deed, command: string, connects: bool, file: NamesAndEvents,
                  log: set<(string, string)>)
    requires IdsBound(s, log)
    ensures IdsBound(After(s, deed, command, connects, file), log + AskedBy(s, deed))
  {
    if deed.Join? {
      JoinKeeps(s, command, deed.channel, log);
    } else {
      assert log + {} == log;
    }
  }

  lemma TypedKeeps(s: State, command: string, connects: bool, file: NamesAndEvents, t: State,
                   log: set<(string, string)>)
    requires IdsBound(s, log) && Follows(s, Typed(command, connects, file), t)
    ensures IdsBound(t, log + Asked(s, Typed(command, connects, file)))
  {
    var deed := DeedOf(s.ready, command);
    var q := After(s, deed, command, connects, file);
    DeedKeeps(s, deed, command, connects, file, log);
    var files, now, date :| Settles(q, t, deed, files, now, date);
  }

  lemma AnsweredKeeps(s: State, answer: string, t: State, log: set<(string, string)>)
    requires IdsBound(s, log) && OnAnswer(s, answer) == Some(t)
    ensures IdsBound(t, log)
  {
    AnswersFreeIds(s, answer, t);
  }

  lemma ReceiptFreesIds(s: State, command: string)
    ensures OnReceipt(s, command).Some? ==> IdsOnlyGo(s, OnReceipt(s, command).value)
  {
  }

  lemma AnswersFreeIds(s: State, answer: string, t: State)
    requires OnAnswer(s, answer) == Some(t)
    ensures IdsOnlyGo(s, t)
  {
    if answer != "" {
      TokensFreeIds(s, CutAnswer(answer).tokens);
    }
  }

  lemma TokensFreeIds(s: State, tokens: seq<string>)
    ensures OnReceiptTokens(s, tokens).Some? ==> IdsOnlyGo(s, OnReceiptTokens(s, tokens).value)
  {
    var command := ReceiptCommand(s, tokens);
    if command.Some? {
      ReceiptFreesIds(s, command.value);
    }
  }

  lemma StepKeepsBound(s: State, input: Input, t: State, log: set<(string, string)>)
    requires IdsBound(s, log) && Follows(s, input, t)
    ensures IdsBound(t, log + Asked(s, input))
  {
    match input
    case Typed(command, connects, file) => TypedKeeps(s, command, connects, file, t, log);
    case Answered(answer) =>
      AnsweredKeeps(s, answer, t, log);
      assert log + {} == log;
  }

  // ---------------------------------------------------------------- runs

  ghost predicate IsRun(trace: seq<State>, inputs: seq<Input>) {
    && |trace| == |inputs| + 1 && trace[0] == NEW_CLIENT
    && forall i :: 0 <= i < |inputs| ==> StepAt(trace, inputs, i)
  }

  ghost predicate StepAt(trace: seq<State>, inputs: seq<Input>, i: nat)
    requires i < |inputs| && |trace| == |inputs| + 1
  {
    Follows(trace[i], inputs[i], trace[i + 1])
  }

  function AskedBefore(trace: seq<State>, inputs: seq<Input>, i: nat): set<(string, string)>
    requires i <= |inputs| && |trace| == |inputs| + 1
  {
    Collected(Asked, trace, inputs, i)
  }

  function Collected(ask: (State, Input) -> set<(string, string)>, trace: seq<State>, inputs: seq<Input>, i: nat)
    : set<(string, string)>
    requires i <= |inputs| && |trace| == |inputs| + 1
  {
    if i == 0 then {} else Collected(ask, trace, inputs, i - 1) + ask(trace[i - 1], inputs[i - 1])
  }

  lemma {:induction false} RunKeepsBound(trace: seq<State>, inputs: seq<Input>, i: nat)
    requires IsRun(trace, inputs) && i <= |inputs|
    ensures IdsBound(trace[i], AskedBefore(trace, inputs, i))
  {
    if i > 0 {
      var s, input, t := trace[i - 1], inputs[i - 1], trace[i];
      var log := AskedBefore(trace, inputs, i - 1);
      RunKeepsBound(trace, inputs, i - 1);
      assert StepAt(trace, inputs, i - 1);
      StepKeepsBound(s, input, t, log);
    }
  }

  lemma {:induction false} CollectedStays(ask: (State, Input) -> set<(string, string)>, trace: seq<State>,
                                          inputs: seq<Input>, i: nat, j: nat)
    requires |trace| == |inputs| + 1 && i < j <= |inputs|
    ensures ask(trace[i], inputs[i]) <= Collected(ask, trace, inputs, j)
    decreases j
  {
    if i < j - 1 {
      CollectedStays(ask, trace, inputs, i, j - 1);
    }
  }

  lemma AskedStays(trace: seq<State>, inputs: seq<Input>, i: nat, j: nat, p: (string, string))
    requires |trace| == |inputs| + 1 && i < j <= |inputs| && p in Asked(trace[i], inputs[i])
    ensures p in AskedBefore(trace, inputs, j)
  {
    CollectedStays(Asked, trace, inputs, i, j);
  }

  /** Over a whole run, logins and logouts included, an id names one channel. */
  lemma OneChannelPerId(trace: seq<State>, inputs: seq<Input>, i: nat, j: nat, c: string, d: string, id: string)
    requires IsRun(trace, inputs) && i < |inputs| && j < |inputs|
    requires (c, id) in Asked(trace[i], inputs[i]) && (d, id) in Asked(trace[j], inputs[j])
    ensures c == d
  {
    var n := |inputs|;
    RunKeepsBound(trace, inputs, n);
    AskedStays(trace, inputs, i, n, (c, id));
    AskedStays(trace, inputs, j, n, (d, id));
  }

  /** The ids in the client's map are injective and below its counter. */
  lemma LiveIdsDistinct(trace: seq<State>, inputs: seq<Input>, i: nat, c: string, d: string)
    requires IsRun(trace, inputs) && i <= |inputs|
    requires IdOf(trace[i].ids, c) != ""
    ensures IdOf(trace[i].ids, c) == IdOf(trace[i].ids, d) ==> c == d
    ensures exists n: nat :: n < trace[i].counter && IdOf(trace[i].ids, c) == NatText(n)
  {
    RunKeepsBound(trace, inputs, i);
    var log := AskedBefore(trace, inputs, i);
    assert (c, trace[i].ids[c]) in log;
    if d in trace[i].ids && trace[i].ids[d] == trace[i].ids[c] {
      assert (d, trace[i].ids[d]) in log;
    }
  }

  // ---------------------------------------------------------------- after an ERROR

  lemma {:induction false} ConnectedIsReady(trace: seq<State>, inputs: seq<Input>, i: nat)
    requires IsRun(trace, inputs) && i <= |inputs|
    ensures trace[i].connected ==> trace[i].ready
  {
    if i > 0 {
      ConnectedIsReady(trace, inputs, i - 1);
      assert StepAt(trace, inputs, i - 1);
      ReadyFollows(trace[i - 1], inputs[i - 1], trace[i]);
    }
  }

  /** A client gets ready only by connecting, and stays so until a logout is acknowledged, connected or not. */
  lemma ReadyFollows(s: State, input: Input, t: State)
    requires Follows(s, input, t)
    ensures t.connected && !s.connected ==> t.ready && !s.ready
    ensures s.ready && !t.ready ==> input.Answered? && !t.connected
    ensures !s.ready && t.ready ==> t.connected
  {
    match input
    case Typed(command, connects, file) => TypedReadies(s, command, connects, file, t);
    case Answered(answer) => AnswersUnready(s, answer, t);
  }

  lemma TypedReadies(s: State, command: string, connects: bool, file: NamesAndEvents, t: State)
    requires Follows(s, Typed(command, connects, file), t)
    ensures (t.ready == s.ready && t.connected == s.connected) || (!s.ready && t.ready && t.connected)
  {
    var deed := DeedOf(s.ready, command);
    var q := After(s, deed, command, connects, file);
    var files, now, date :| Settles(q, t, deed, files, now, date);
    SettlesOnline(q, t, deed, files, now, date);
    if s.ready {
      NoLoginWhenReady(command);
    }
    AfterOnline(s, deed, command, connects, file);
  }

  lemma SettlesOnline(s: State, t: State, deed: Deed, files: map<string, string>, now: map<string, string>,
                      date: int -> string)
    requires Settles(s, t, deed, files, now, date)
    ensures t.ready == s.ready && t.connected == s.connected
  {
  }

  lemma NoLoginWhenReady(command: string)
    ensures !DeedOf(true, command).Login?
  {
  }

  lemma AfterOnline(s: State, deed: Deed, command: string, connects: bool, file: NamesAndEvents)
    ensures var q := After(s, deed, command, connects, file);
      if deed.Login? && connects then q.ready && q.connected
      else q.ready == s.ready && q.connected == s.connected
  {
  }

  lemma AnswersUnready(s: State, answer: string, t: State)
    requires OnAnswer(s, answer) == Some(t)
    ensures (t.ready == s.ready && (t.connected ==> s.connected)) || (!t.ready && !t.connected)
  {
  }

  predicate IsError(answer: string) {
    answer != "" && CutAnswer(answer).tokens != [] && CutAnswer(answer).tokens[0] == "ERROR"
  }

  lemma ErrorCloses(s: State, answer: string, t: State)
    requires OnAnswer(s, answer) == Some(t) && IsError(answer)
    ensures t.ready == s.ready && !t.connected
  {
  }

  predicate Stranded(s: State) {
    s.ready && !s.connected
  }

  lemma {:induction false} StaysStranded(trace: seq<State>, inputs: seq<Input>, i: nat, j: nat)
    requires IsRun(trace, inputs) && i <= j <= |inputs| && Stranded(trace[i])
    requires forall k :: i <= k < j ==> inputs[k].Typed?
    ensures Stranded(trace[j])
    decreases j
  {
    if i < j {
      StaysStranded(trace, inputs, i, j - 1);
      StillStranded(trace, inputs, j - 1);
    }
  }

  lemma StillStranded(trace: seq<State>, inputs: seq<Input>, i: nat)
    requires IsRun(trace, inputs) && i < |inputs| && inputs[i].Typed? && Stranded(trace[i])
    ensures Stranded(trace[i + 1])
  {
    assert StepAt(trace, inputs, i);
    ReadyFollows(trace[i], inputs[i], trace[i + 1]);
  }

  /** An ERROR leaves a client that is logged in, has no connection, and cannot get one by anything typed. */
  lemma ErrorStrands(trace: seq<State>, inputs: seq<Input>, i: nat, j: nat, answer: string)
    requires IsRun(trace, inputs) && i < j <= |inputs| && trace[i].ready
    requires inputs[i] == Answered(answer) && IsError(answer)
    requires forall k :: i < k < j ==> inputs[k].Typed?
    ensures Stranded(trace[j]) && forall command :: !DeedOf(trace[j].ready, command).Login?
  {
    assert StepAt(trace, inputs, i);
    ErrorCloses(trace[i], answer, trace[i + 1]);
    StaysStranded(trace, inputs, i + 1, j);
    forall command
      ensures !DeedOf(trace[j].ready, command).Login?
    {
      NoLoginWhenReady(command);
    }
  }
}
