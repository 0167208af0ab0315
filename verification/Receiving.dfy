/**
 A whole `report` command at the other end: what a receiver's report list is
 after the relayed messages, and that its statistics are the reporter's.
 */
module Receiving {
  import opened Wrappers
  import opened Text
  import opened StompText
  import opened Events
  import opened Relay
  import opened Reports
  import opened Client

  function Fold(step: (State, string) -> Option<State>, s: State, answers: seq<string>): Option<State> {
    if answers == [] then Some(s)
    else
      match Fold(step, s, answers[..|answers| - 1])
      case None => None
      case Some(t) => step(t, answers[|answers| - 1])
  }

  /** The client's state after a list of answers; `None` once one of them throws. */
  function Heard(s: State, answers: seq<string>): Option<State> {
    Fold(OnAnswer, s, answers)
  }

  /** Reports that can be relayed on a channel. */
  ghost predicate Relayable(channel: string, es: seq<Event>, owner: string) {
    && NL !in Trim(channel) && ':' !in owner
    && forall e :: e in es ==> Printable(e) && e.owner == owner
  }

  /** The i-th frame of `report`, relayed under whatever subscription and message id. */
  ghost predicate IsRelay(answer: string, channel: string, frame: string) {
    exists sid, mid :: NL !in sid && answer == MessageFrame(sid, mid, Landing(channel), Cut(frame).body)
  }

  ghost predicate AreRelays(answers: seq<string>, channel: string, frames: seq<string>) {
    |answers| == |frames| && forall i :: 0 <= i < |frames| ==> IsRelay(answers[i], channel, frames[i])
  }

  // ---------------------------------------------------------------- one message

  /** Whatever the client's state, `answer` adds `e` to its reports under `key`. */
  ghost predicate Delivers(step: (State, string) -> Option<State>, answer: string, key: ReportKey, e: Event) {
    forall s: State :: step(s, answer) == Some(s.(reports := Filed(s.reports, key, [e])))
  }

  lemma RelayDelivers(channel: string, e: Event, owner: string, answer: string)
    requires Relayable(channel, [e], owner) && IsRelay(answer, channel, ReportFrame(channel, e))
    ensures Delivers(OnAnswer, answer, (owner, Trim(Landing(channel))), Relayed(e))
  {
    assert e in [e];
    var sid, mid :| NL !in sid && answer == MessageFrame(sid, mid, Landing(channel), Cut(ReportFrame(channel, e)).body);
    ReportArrives(channel, e, sid, mid);
    KeptIff(owner);
  }

  // ---------------------------------------------------------------- many messages

  lemma {:induction false} HeardInOrder(step: (State, string) -> Option<State>, s: State, key: ReportKey,
                                        list: seq<Event>, answers: seq<string>)
    requires |answers| == |list| && forall i :: 0 <= i < |list| ==> Delivers(step, answers[i], key, list[i])
    ensures Fold(step, s, answers) == Some(s.(reports := Filed(s.reports, key, list)))
    decreases |list|
  {
    if list != [] {
      var n := |list| - 1;
      HeardInOrder(step, s, key, list[..n], answers[..n]);
      assert Delivers(step, answers[n], key, list[n]);
      FiledSnoc(s.reports, key, list[..n], list[n]);
      LastApart(list);
    } else {
      assert s.(reports := s.reports) == s;
    }
  }

  function Backwards(f: Event -> Event, es: seq<Event>): (r: seq<Event>)
    ensures |r| == |es| && forall i :: 0 <= i < |es| ==> r[i] == f(es[|es| - 1 - i])
  {
    if es == [] then [] else [f(es[|es| - 1])] + Backwards(f, es[..|es| - 1])
  }

  ghost function Copy(): Event -> Event {
    e => Relayed(e)
  }

  lemma {:induction false} ReceivedIsBackwards(es: seq<Event>)
    ensures ReceivedList(es) == Backwards(Copy(), es)
  {
    if es != [] {
      ReceivedIsBackwards(es[..|es| - 1]);
      assert Copy()(es[|es| - 1]) == Relayed(es[|es| - 1]);
    }
  }

  lemma FrameOf(channel: string, es: seq<Event>, j: nat, e: Event)
    requires j < |es| && es[j] == e
    ensures ReportFrames(channel, es)[j] == ReportFrame(channel, e)
  {
  }

  lemma FrameAt(channel: string, es: seq<Event>, answers: seq<string>, i: nat, e: Event)
    requires AreRelays(answers, channel, SendOrder(ReportFrames(channel, es)))
    requires i < |es| && e == es[|es| - 1 - i]
    ensures IsRelay(answers[i], channel, ReportFrame(channel, e))
  {
    var frames, j := ReportFrames(channel, es), |es| - 1 - i;
    FrameOf(channel, es, j, e);
    assert IsRelay(answers[i], channel, SendOrder(frames)[i]);
  }

  lemma OneRelayable(channel: string, es: seq<Event>, owner: string, e: Event)
    requires Relayable(channel, es, owner) && e in es
    ensures Relayable(channel, [e], owner)
  {
  }

  lemma RelayAt(channel: string, es: seq<Event>, owner: string, answers: seq<string>, i: nat, e: Event)
    requires Relayable(channel, es, owner) && AreRelays(answers, channel, SendOrder(ReportFrames(channel, es)))
    requires i < |es| && e == es[|es| - 1 - i]
    ensures Delivers(OnAnswer, answers[i], (owner, Trim(Landing(channel))), Copy()(e))
  {
    FrameAt(channel, es, answers, i, e);
    OneRelayable(channel, es, owner, e);
    RelayDelivers(channel, e, owner, answers[i]);
  }

  /**
   The receiver's reports grow by the relayed copies, last event first, under the
   reporter's name and the channel the server made of theirs; nothing else changes.
   */
  lemma ReportsReceived(s: State, channel: string, es: seq<Event>, owner: string, answers: seq<string>)
    requires Relayable(channel, es, owner) && AreRelays(answers, channel, SendOrder(ReportFrames(channel, es)))
    ensures Heard(s, answers)
         == Some(s.(reports := Filed(s.reports, (owner, Trim(Landing(channel))), ReceivedList(es))))
  {
    ReceivedIsBackwards(es);
    var key, list := (owner, Trim(Landing(channel))), Backwards(Copy(), es);
    forall i | 0 <= i < |es|
      ensures Delivers(OnAnswer, answers[i], key, list[i])
    {
      RelayAt(channel, es, owner, answers, i, es[|es| - 1 - i]);
    }
    HeardInOrder(OnAnswer, s, key, list, answers);
  }

  /**
   A reporter and a receiver that agree on the earlier reports' statistics agree
   after the command: on the total, and on the count of any word, such as
   "active" and "forces_arrival_at_scene".
   */
  lemma SameStatistics(reporter: State, receiver: State, file: NamesAndEvents, answers: seq<string>, word: string)
    requires var owned := Owned(file.events, reporter.user);
      && ExitId(reporter, Trim(file.channel)) != "-1"
      && Relayable(file.channel, owned, reporter.user)
      && AreRelays(answers, file.channel, SendOrder(ReportFrames(file.channel, owned)))
    ensures var mine, theirs := (reporter.user, file.channel), (reporter.user, Trim(Landing(file.channel)));
      var after := Heard(receiver, answers);
      && after.Some?
      && |ReportsOf(AfterReport(reporter, file), mine)| - |ReportsOf(reporter, mine)|
         == |ReportsOf(after.value, theirs)| - |ReportsOf(receiver, theirs)|
      && Count(ReportsOf(AfterReport(reporter, file), mine), word) - Count(ReportsOf(reporter, mine), word)
         == Count(ReportsOf(after.value, theirs), word) - Count(ReportsOf(receiver, theirs), word)
  {
    var owned := Owned(file.events, reporter.user);
    var mine, theirs := (reporter.user, file.channel), (reporter.user, Trim(Landing(file.channel)));
    ReportsReceived(receiver, file.channel, owned, reporter.user, answers);
    StatisticsSurvive(owned, word);
    FiledCounts(reporter.reports, mine, owned, word);
    FiledCounts(receiver.reports, theirs, ReceivedList(owned), word);
  }

  lemma FiledCounts(reports: map<ReportKey, seq<Event>>, key: ReportKey, es: seq<Event>, word: string)
    ensures |ReportsAt(Filed(reports, key, es), key)| == |ReportsAt(reports, key)| + |es|
    ensures Count(ReportsAt(Filed(reports, key, es), key), word)
         == Count(ReportsAt(reports, key), word) + Count(es, word)
  {
    CountAppend(ReportsAt(reports, key), es, word);
  }
}
