/**
 A `report` command over a run of the server: what its frames make the server
 send to a receiver are their relayed copies, one each, in order. Together with
 `Receiving` this takes reports from one client's keyboard to the other's
 statistics.
 */
module Deliveries {
  import opened Wrappers
  import opened Text
  import opened StompText
  import opened Events
  import opened Registry
  import opened Consistency
  import opened Protocol
  import opened IdOrigins
  import opened Reports
  import opened Receiving
  import C = Client
  import S = Sessions
  import F = Refinement

  /** The texts of the messages for connection `k`, in order. */
  function MessagesFor(k: nat, ds: seq<Delivery>): seq<string> {
    if ds == [] then []
    else
      var n := |ds| - 1;
      MessagesFor(k, ds[..n]) + if ds[n].conn == k then [TextOf(ds[n])] else []
  }

  function TextOf(d: Delivery): string {
    MessageFrame(d.subscription, d.messageId, d.channel, d.body)
  }

  /** What the frames of `conn` make the server send to `k`. */
  function HeardFrom(conn: nat, k: nat, events: seq<S.Event>): seq<string> {
    if events == [] then []
    else
      var n := |events| - 1;
      HeardFrom(conn, k, events[..n])
      + if events[n].Frame? && events[n].conn == conn then MessagesFor(k, events[n].sent) else []
  }

  lemma {:induction false} MessagesNone(k: nat, ds: seq<Delivery>)
    requires forall i :: 0 <= i < |ds| ==> ds[i].conn != k
    ensures MessagesFor(k, ds) == []
  {
    if ds != [] {
      MessagesNone(k, ds[..|ds| - 1]);
    }
  }

  lemma {:induction false} MessagesOne(k: nat, ds: seq<Delivery>, i: nat)
    requires i < |ds| && ds[i].conn == k
    requires forall a, b :: 0 <= a < b < |ds| ==> ds[a].conn != ds[b].conn
    ensures MessagesFor(k, ds) == [TextOf(ds[i])]
    decreases |ds|
  {
    var n := |ds| - 1;
    if i == n {
      MessagesNone(k, ds[..n]);
    } else {
      MessagesOne(k, ds[..n], i);
    }
  }

  // ---------------------------------------------------------------- one report

  /** The reporter on `conn` and somebody else, logged in on `k`, are members of the channel. */
  predicate Listens(s: S.Server, conn: nat, k: nat, c: string) {
    && conn in s.live && s.live[conn].user.Some? && k in s.tables.users
    && IsMember(s.tables, c, s.live[conn].user.value.text) && IsMember(s.tables, c, s.tables.users[k].text)
    && s.tables.users[k].text != s.live[conn].user.value.text
  }

  /** The fan-out of a published frame has one message for a listener, under its own id. */
  lemma OneForListener(s: S.Server, e: S.Event, k: nat) returns (i: nat)
    requires Consistent(s.tables) && S.Can(s, e) && e.Frame? && Publishes(S.View(s, e.conn), e.parts)
    requires Listens(s, e.conn, k, Destination(e.parts))
    ensures i < |e.sent| && MessagesFor(k, e.sent) == [TextOf(e.sent[i])]
    ensures var c := Destination(e.parts);
      && e.sent[i].channel == c && e.sent[i].body == e.parts.body
      && e.sent[i].subscription == s.tables.channels[c][s.tables.users[k].text].id
  {
    var t, c, u := s.tables, Destination(e.parts), s.tables.users[k].text;
    var p, sender, id := F.Abs(t, s.passwords), s.live[e.conn].user.value.text, t.channels[c][u].id;
    F.FanOutExact(s, e);
    F.SubsHolds(t, u, c, id);
    var x := F.Sub(u, c, id);
    assert x in p.subs && k in p.login && x.channel == c && x.user != sender && p.login[k] == x.user;
    assert (k, x.id) in F.Recipients(p, sender, c);
    assert F.Reached(e.sent, k, id);
    i :| 0 <= i < |e.sent| && e.sent[i].conn == k && e.sent[i].subscription == id;
    MessagesOne(k, e.sent, i);
  }

  lemma ReportRelayed(trace: seq<S.Server>, events: seq<S.Event>, i: nat, k: nat, channel: string, e: Event)
    requires S.IsRun(trace, events) && ReadFromTexts(events) && i < |events| && events[i].Frame?
    requires events[i].parts == Cut(ReportFrame(channel, e)) && NL !in Trim(channel)
    requires Listens(trace[i], events[i].conn, k, Landing(channel))
    ensures var ms := MessagesFor(k, events[i].sent);
      |ms| == 1 && IsRelay(ms[0], channel, ReportFrame(channel, e))
  {
    var s, event := trace[i], events[i];
    S.RunKeepsConsistent(trace, events, i);
    assert S.StepAt(trace, events, i);
    CutOfReport(channel, e);
    var j := OneForListener(s, event, k);
    MemberIdIsPlain(trace, events, i, s.tables.users[k].text, Landing(channel));
    assert event.sent[j].channel == Landing(channel);
  }

  // ---------------------------------------------------------------- the texts sent

  lemma {:induction false} EachForSomeone(t: Tables, c: string, sender: string, body: Option<string>,
                                          order: seq<string>, ds: seq<Delivery>, k: nat) returns (u: string)
    requires FansOut(t, c, sender, body, order, ds) && k < |ds|
    ensures IsMessageFor(t, c, body, u, k, ds[k])
  {
    var before, last := order[..|order| - 1], order[|order| - 1];
    if Skipped(t, c, sender, last) {
      u := EachForSomeone(t, c, sender, body, before, ds, k);
    } else if k == |ds| - 1 {
      u := last;
    } else {
      u := EachForSomeone(t, c, sender, body, before, ds[..|ds| - 1], k);
    }
  }

  lemma SentIsPlain(w: World, f: Parts, ds: seq<Delivery>, broken: bool, k: nat)
    requires MaySend(w, f, ds, broken) && k < |ds| && IdsArePlain(w.tables) && FromText(f)
    ensures Plain(ds[k].subscription) && Plain(ds[k].channel)
  {
    var order :| SendsInOrder(w, f, order, ds, broken);
    var u := EachForSomeone(w.tables, Destination(f), w.me.user.value.text, f.body, order, ds, k);
    DestinationIsPlain(f);
    assert ds[k].subscription == "" || ds[k].subscription in Ids(w.tables, u);
  }

  /** Whatever clients send, a message names on the wire what it was made for. */
  lemma TextsRead(trace: seq<S.Server>, events: seq<S.Event>, i: nat, k: nat)
    requires S.AnyRun(trace, events) && ReadFromTexts(events) && i < |events| && k < |S.SentIn(events[i])|
    ensures var d := S.SentIn(events[i])[k];
      ReadsAs(TextOf(d), d.subscription, NatText(d.messageId), d.channel)
  {
    var e, d := events[i], S.SentIn(events[i])[k];
    assert S.StepAt(trace, events, i);
    RunIdsArePlain(trace, events, i);
    SentIsPlain(S.View(trace[i], e.conn), e.parts, e.sent, e.broken, k);
    MessageReads(d.subscription, d.messageId, d.channel, d.body);
    TrimOfTrimmed(d.subscription, JavaSpace);
    TrimOfTrimmed(d.channel, JavaSpace);
  }

  /** A message to `k` that names subscription `id` and channel `c`. */
  ghost predicate Told(ds: seq<Delivery>, k: nat, id: string, c: string) {
    exists m :: 0 <= m < |ds| && TellsOf(ds[m], k, id, c)
  }

  predicate TellsOf(d: Delivery, k: nat, id: string, c: string) {
    d.conn == k && ReadsAs(TextOf(d), id, NatText(d.messageId), c)
  }

  lemma ReadsAsOne(text: string, a: string, m: string, c: string, b: string, n: string, d: string)
    requires ReadsAs(text, a, m, c) && ReadsAs(text, b, n, d)
    ensures a == b && m == n && c == d
  {
    var h, g := map["subscription" := a, "message-id" := m, "destination" := c],
      map["subscription" := b, "message-id" := n, "destination" := d];
    assert h["subscription"] == g["subscription"] && h["message-id"] == g["message-id"];
    assert h["destination"] == g["destination"];
  }

  /** What goes over the wire for a published frame: to each other subscriber its own id, and to nobody else. */
  lemma FanOutTexts(trace: seq<S.Server>, events: seq<S.Event>, i: nat, k: nat, id: string)
    requires S.IsRun(trace, events) && ReadFromTexts(events) && i < |events| && events[i].Frame?
    requires events[i].conn in trace[i].live && Publishes(S.View(trace[i], events[i].conn), events[i].parts)
    ensures var s, e, c := trace[i], events[i], Destination(events[i].parts);
      Told(e.sent, k, id, c)
      <==> (k, id) in F.Recipients(F.Abs(s.tables, s.passwords), s.live[e.conn].user.value.text, c)
  {
    var e, c := events[i], Destination(events[i].parts);
    S.RunKeepsConsistent(trace, events, i);
    assert S.StepAt(trace, events, i);
    F.FanOutExact(trace[i], e);
    if m :| 0 <= m < |e.sent| && TellsOf(e.sent[m], k, id, c) {
      TextsRead(trace, events, i, m);
      var d := e.sent[m];
      ReadsAsOne(TextOf(d), id, NatText(d.messageId), c, d.subscription, NatText(d.messageId), d.channel);
      assert F.Reached(e.sent, k, id);
    }
    if F.Reached(e.sent, k, id) {
      var m :| 0 <= m < |e.sent| && e.sent[m].conn == k && e.sent[m].subscription == id;
      TextsRead(trace, events, i, m);
      assert TellsOf(e.sent[m], k, id, c);
    }
  }

  /** The message-id that the receiver of a text reads. */
  function NumberRead(text: string): string {
    var f := Cut(text);
    if f.headers.Some? && "message-id" in HeaderMap(f.headers.value) then HeaderMap(f.headers.value)["message-id"]
    else ""
  }

  /** No two texts of a run carry the same message-id. */
  lemma NumbersReadDistinct(trace: seq<S.Server>, events: seq<S.Event>, i: nat, k: nat, j: nat, l: nat)
    requires S.AnyRun(trace, events) && ReadFromTexts(events) && i <= j < |events|
    requires k < |S.SentIn(events[i])| && l < |S.SentIn(events[j])| && (i, k) != (j, l)
    ensures NumberRead(TextOf(S.SentIn(events[i])[k])) != NumberRead(TextOf(S.SentIn(events[j])[l]))
  {
    S.MessageIdsDistinct(trace, events, i, k, j, l);
    TextsRead(trace, events, i, k);
    TextsRead(trace, events, j, l);
    var m, n := S.SentIn(events[i])[k].messageId, S.SentIn(events[j])[l].messageId;
    if NatText(m) == NatText(n) {
      NatTextInjective(m, n);
    }
  }

  // ---------------------------------------------------------------- a whole command

  ghost predicate AreReports(channel: string, frames: seq<string>) {
    forall i :: 0 <= i < |frames| ==> IsReport(channel, frames[i])
  }

  ghost predicate IsReport(channel: string, frame: string) {
    exists e :: frame == ReportFrame(channel, e)
  }

  /** Whenever a frame of `conn` comes from the `a`-th event on, reporter and listener are members. */
  ghost predicate ListensFrom(trace: seq<S.Server>, events: seq<S.Event>, a: nat, conn: nat, k: nat, c: string)
    requires |trace| == |events| + 1
  {
    forall i :: a <= i < |events| && events[i].Frame? && events[i].conn == conn ==> Listens(trace[i], conn, k, c)
  }

  lemma RelaysMore(answers: seq<string>, channel: string, frames: seq<string>, answer: string)
    requires frames != [] && AreRelays(answers, channel, frames[..|frames| - 1])
    requires IsRelay(answer, channel, frames[|frames| - 1])
    ensures AreRelays(answers + [answer], channel, frames)
  {
    var n := |frames| - 1;
    forall i | 0 <= i < |frames|
      ensures IsRelay((answers + [answer])[i], channel, frames[i])
    {
      if i < n {
        assert IsRelay(answers[i], channel, frames[..n][i]);
      }
    }
  }

  /** These messages are the one relayed copy of a frame. */
  ghost predicate Copies(ms: seq<string>, channel: string, frame: string) {
    |ms| == 1 && IsRelay(ms[0], channel, frame)
  }

  ghost predicate CopiedAt(e: S.Event, k: nat, channel: string) {
    forall frame :: IsReport(channel, frame) && e.Frame? && e.parts == Cut(frame) ==>
      Copies(MessagesFor(k, e.sent), channel, frame)
  }

  /** Every report of `conn` has its copy sent to `k`. */
  ghost predicate AllCopied(events: seq<S.Event>, conn: nat, k: nat, channel: string) {
    forall i :: 0 <= i < |events| && events[i].Frame? && events[i].conn == conn ==> CopiedAt(events[i], k, channel)
  }

  lemma RunCopies(trace: seq<S.Server>, events: seq<S.Event>, a: nat, conn: nat, k: nat, channel: string)
    requires S.IsRun(trace, events) && ReadFromTexts(events)
    requires ListensFrom(trace, events, a, conn, k, Landing(channel)) && NL !in Trim(channel) && a <= |events|
    ensures AllCopied(events[a..], conn, k, channel)
  {
    forall i | 0 <= i < |events[a..]| && events[a..][i].Frame? && events[a..][i].conn == conn
      ensures CopiedAt(events[a..][i], k, channel)
    {
      EventCopied(trace, events, a + i, k, channel);
    }
  }

  lemma EventCopied(trace: seq<S.Server>, events: seq<S.Event>, i: nat, k: nat, channel: string)
    requires S.IsRun(trace, events) && ReadFromTexts(events) && i < |events| && events[i].Frame?
    requires Listens(trace[i], events[i].conn, k, Landing(channel)) && NL !in Trim(channel)
    ensures CopiedAt(events[i], k, channel)
  {
    forall frame | IsReport(channel, frame) && events[i].parts == Cut(frame)
      ensures Copies(MessagesFor(k, events[i].sent), channel, frame)
    {
      var report :| frame == ReportFrame(channel, report);
      ReportRelayed(trace, events, i, k, channel, report);
    }
  }

  lemma OneMore(e: S.Event, k: nat, channel: string, frames: seq<string>, before: seq<Parts>, answers: seq<string>)
    requires e.Frame? && CopiedAt(e, k, channel)
    requires AreReports(channel, frames) && before + [e.parts] == CutAll(frames)
    ensures frames != [] && before == CutAll(frames[..|frames| - 1]) && AreReports(channel, frames[..|frames| - 1])
    ensures AreRelays(answers, channel, frames[..|frames| - 1]) ==>
      AreRelays(answers + MessagesFor(k, e.sent), channel, frames)
  {
    LastCut(frames, before, e.parts);
    assert IsReport(channel, frames[|frames| - 1]);
    var m := MessagesFor(k, e.sent);
    assert Copies(m, channel, frames[|frames| - 1]);
    assert m == [m[0]];
    if AreRelays(answers, channel, frames[..|frames| - 1]) {
      RelaysMore(answers, channel, frames, m[0]);
    }
  }

  lemma {:induction false} AllRelayed(events: seq<S.Event>, conn: nat, k: nat, channel: string, frames: seq<string>)
    requires AllCopied(events, conn, k, channel)
    requires AreReports(channel, frames) && S.FramesFrom(conn, events) == CutAll(frames)
    ensures AreRelays(HeardFrom(conn, k, events), channel, frames)
    decreases |events|
  {
    if events != [] {
      var n := |events| - 1;
      var e := events[n];
      if e.Frame? && e.conn == conn {
        assert CopiedAt(e, k, channel);
        OneMore(e, k, channel, frames, S.FramesFrom(conn, events[..n]), HeardFrom(conn, k, events[..n]));
        AllRelayed(events[..n], conn, k, channel, frames[..|frames| - 1]);
      } else {
        AllRelayed(events[..n], conn, k, channel, frames);
      }
    }
  }

  lemma LastCut(frames: seq<string>, before: seq<Parts>, last: Parts)
    requires before + [last] == CutAll(frames)
    ensures frames != [] && before == CutAll(frames[..|frames| - 1]) && last == Cut(frames[|frames| - 1])
  {
    var n := |frames| - 1;
    assert |CutAll(frames)| == |before| + 1;
    assert frames == frames[..n] + [frames[n]];
    CutMore(frames[..n], frames[n]);
    assert (before + [last])[..n] == before;
  }

  /** From the `a`-th event on, the frames of `conn` are those of `report` on these events. */
  ghost predicate SendsReports(events: seq<S.Event>, a: nat, conn: nat, channel: string, es: seq<Event>)
    requires a <= |events|
  {
    S.FramesFrom(conn, events[a..]) == CutAll(C.SendOrder(C.ReportFrames(channel, es)))
  }

  /**
   Whatever else happens at the server meanwhile, the messages that the frames of
   a `report` cause for a listener are their relayed copies, one for each, in the
   order they were sent.
   */
  lemma ReportsRelayed(trace: seq<S.Server>, events: seq<S.Event>, a: nat, conn: nat, k: nat,
                       channel: string, es: seq<Event>)
    requires S.IsRun(trace, events) && ReadFromTexts(events) && a <= |events|
    requires ListensFrom(trace, events, a, conn, k, Landing(channel)) && NL !in Trim(channel)
    requires SendsReports(events, a, conn, channel, es)
    ensures AreRelays(HeardFrom(conn, k, events[a..]), channel, C.SendOrder(C.ReportFrames(channel, es)))
  {
    var frames := C.ReportFrames(channel, es);
    forall i | 0 <= i < |frames|
      ensures IsReport(channel, C.SendOrder(frames)[i])
    {
      assert frames[|frames| - 1 - i] == ReportFrame(channel, es[|frames| - 1 - i]);
    }
    RunCopies(trace, events, a, conn, k, channel);
    AllRelayed(events[a..], conn, k, channel, C.SendOrder(frames));
  }

  /**
   From keyboard to statistics: after a `report`, reporter and listener have the
   same number of new reports, and the same number of new ones with any mark.
   */
  lemma StatisticsArrive(trace: seq<S.Server>, events: seq<S.Event>, a: nat, conn: nat, k: nat,
                         reporter: C.State, listener: C.State, file: C.NamesAndEvents, word: string)
    requires S.IsRun(trace, events) && ReadFromTexts(events) && a <= |events|
    requires ListensFrom(trace, events, a, conn, k, Landing(file.channel))
    requires var owned := C.Owned(file.events, reporter.user);
      && C.ExitId(reporter, Trim(file.channel)) != "-1" && Relayable(file.channel, owned, reporter.user)
      && SendsReports(events, a, conn, file.channel, owned)
    ensures var mine, theirs := (reporter.user, file.channel), (reporter.user, Trim(Landing(file.channel)));
      var after := Heard(listener, HeardFrom(conn, k, events[a..]));
      && after.Some?
      && |C.ReportsOf(C.AfterReport(reporter, file), mine)| - |C.ReportsOf(reporter, mine)|
         == |C.ReportsOf(after.value, theirs)| - |C.ReportsOf(listener, theirs)|
      && Count(C.ReportsOf(C.AfterReport(reporter, file), mine), word) - Count(C.ReportsOf(reporter, mine), word)
         == Count(C.ReportsOf(after.value, theirs), word) - Count(C.ReportsOf(listener, theirs), word)
  {
    ReportsRelayed(trace, events, a, conn, k, file.channel, C.Owned(file.events, reporter.user));
    SameStatistics(reporter, listener, file, HeardFrom(conn, k, events[a..]), word);
  }
}
