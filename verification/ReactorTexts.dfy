/** The messages of a reactor run as texts: every recipient is told its own subscription, and no number twice. */
module ReactorTexts {
  import opened StompText
  import opened Protocol
  import opened IdOrigins
  import opened Reports
  import opened ReactorRuns
  import Text
  import D = Deliveries
  import R = Reactor
  import S = Sessions
  import F = Refinement

  /** What the workers process was read from texts. */
  lemma {:induction false} RunReadsTexts(states: seq<Service>, threads: nat)
    requires IsRun(states, threads)
    ensures ReadFromTexts(states[|states| - 1].events)
    decreases |states|
  {
    var n := |states| - 1;
    if n > 0 {
      RunReadsTexts(states[..n], threads);
      assert Next(states[n - 1], states[n]);
      NextReadsTexts(states[n - 1], states[n]);
    }
  }

  lemma NextReadsTexts(s: Service, q: Service)
    requires Next(s, q) && ReadFromTexts(s.events)
    ensures ReadFromTexts(q.events)
  {
    var step: Step :| CanStep(s, step) && q == DoStep(s, step);
    StepEvents(s, step);
  }

  lemma StepEvents(s: Service, step: Step)
    requires s.trace != [] && CanStep(s, step)
    ensures var q := DoStep(s, step);
      q.events == s.events
      || exists e :: q.events == s.events + [e] && (e.Frame? ==> FromText(e.parts))
  {
    if step.FrameByte? {
      assert FromText(Completed(s, step).parts);
    }
  }

  /** Each message queued for another connection reads as the subscription, number and channel it was made for. */
  lemma QueuedRead(states: seq<Service>, threads: nat, i: nat, k: nat)
    requires IsRun(states, threads)
    requires var s := states[|states| - 1];
      i < |s.events| && k < |S.SentIn(s.events[i])|
    ensures var d := S.SentIn(states[|states| - 1].events[i])[k];
      && MessageTo(d).to == d.conn
      && ReadsAs(MessageTo(d).message, d.subscription, Text.NatText(d.messageId), d.channel)
  {
    var s := states[|states| - 1];
    RunKeepsInv(states, threads);
    RunReadsTexts(states, threads);
    D.TextsRead(s.trace, s.events, i, k);
  }

  /** The queue for `k` gets a message that reads as subscription `id` of channel `c`. */
  ghost predicate Queues(replies: seq<R.Reply>, k: nat, id: string, c: string) {
    exists m :: 0 <= m < |replies| && Mentions(replies[m], k, id, c)
  }

  ghost predicate Mentions(reply: R.Reply, k: nat, id: string, c: string) {
    reply.to == k && exists number :: ReadsAs(reply.message, id, number, c)
  }

  /** With well-behaved clients, a published frame gives each other subscriber's queue its own id, and no other any. */
  lemma RecipientsQueued(states: seq<Service>, threads: nat, i: nat, k: nat, id: string)
    requires IsRun(states, threads)
    requires var s := states[|states| - 1];
      && S.IsRun(s.trace, s.events) && i < |s.events| && s.events[i].Frame?
      && s.events[i].conn in s.trace[i].live && Publishes(S.View(s.trace[i], s.events[i].conn), s.events[i].parts)
    ensures var s := states[|states| - 1];
      var e, t, c := s.events[i], s.trace[i], Destination(s.events[i].parts);
      Queues(Messages(e.sent), k, id, c)
      <==> (k, id) in F.Recipients(F.Abs(t.tables, t.passwords), t.live[e.conn].user.value.text, c)
  {
    var s := states[|states| - 1];
    var e, c := s.events[i], Destination(s.events[i].parts);
    RunReadsTexts(states, threads);
    D.FanOutTexts(s.trace, s.events, i, k, id);
    if m :| 0 <= m < |e.sent| && D.TellsOf(e.sent[m], k, id, c) {
      assert Mentions(Messages(e.sent)[m], k, id, c);
    }
    if m :| 0 <= m < |e.sent| && Mentions(Messages(e.sent)[m], k, id, c) {
      var number :| ReadsAs(Messages(e.sent)[m].message, id, number, c);
      var d := e.sent[m];
      D.TextsRead(s.trace, s.events, i, m);
      D.ReadsAsOne(D.TextOf(d), id, number, c, d.subscription, Text.NatText(d.messageId), d.channel);
      assert D.TellsOf(d, k, id, c);
    }
  }

  /** Whatever the schedule and whatever clients send, no two messages queued carry the same message-id. */
  lemma QueuedNumbersDistinct(states: seq<Service>, threads: nat, i: nat, k: nat, j: nat, l: nat)
    requires IsRun(states, threads)
    requires var s := states[|states| - 1];
      i <= j < |s.events| && k < |S.SentIn(s.events[i])| && l < |S.SentIn(s.events[j])| && (i, k) != (j, l)
    ensures var s := states[|states| - 1];
      D.NumberRead(MessageTo(S.SentIn(s.events[i])[k]).message)
      != D.NumberRead(MessageTo(S.SentIn(s.events[j])[l]).message)
  {
    var s := states[|states| - 1];
    RunKeepsInv(states, threads);
    RunReadsTexts(states, threads);
    D.NumbersReadDistinct(s.trace, s.events, i, k, j, l);
  }
}
