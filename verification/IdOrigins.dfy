/**
 Where subscription ids come from: each one the server keeps was the `id` header
 of a SUBSCRIBE, so it is a trimmed line.
 */
module IdOrigins {
  import opened Wrappers
  import opened Text
  import opened StompText
  import opened Registry
  import opened Consistency
  import opened Protocol
  import S = Sessions

  /** The user's ids after a frame: as before, but for the one it subscribes with. */
  predicate IdComesFrom(w: World, q: Tables, f: Parts, v: string, id: string) {
    id in Ids(q, v) ==>
      || (id in Ids(w.tables, v) && Ids(w.tables, v)[id] == Ids(q, v)[id])
      || (S.Subscribes(f) && w.me.user.Some? && w.me.user.value.text == v
          && id == HeadersIn(f)["id"] && Ids(q, v)[id] == Destination(f))
  }

  lemma DisconnectIds(w: World, t: Tables, conn: nat, f: Parts, v: string, id: string)
    requires IdComesFrom(w, t, f, v, id)
    ensures IdComesFrom(w, Disconnect(t, conn), f, v, id)
  {
  }

  lemma SubscribeIds(w: World, conn: nat, f: Parts, v: string, id: string)
    requires S.Subscribes(f)
    ensures IdComesFrom(w, OnSubscribe(w, conn, HeadersIn(f)).0.tables, f, v, id)
  {
    if w.me.user.Some? {
      var h := HeadersIn(f);
      DisconnectIds(w, Subscribe(w.tables, Destination(f), h["id"], w.me.user.value), conn, f, v, id);
    }
  }

  lemma UnsubscribeIds(w: World, conn: nat, f: Parts, h: map<string, string>, v: string, id: string)
    ensures IdComesFrom(w, OnUnsubscribe(w, conn, h).0.tables, f, v, id)
  {
    DisconnectIds(w, w.tables, conn, f, v, id);
  }

  lemma SendIds(w: World, conn: nat, f: Parts, h: map<string, string>, sent: nat, broken: bool, v: string, id: string)
    ensures IdComesFrom(w, OnSend(w, conn, h, sent, broken).0.tables, f, v, id)
  {
    DisconnectIds(w, w.tables, conn, f, v, id);
  }

  lemma FrameIds(w: World, conn: nat, f: Parts, addr: nat, sent: nat, broken: bool, v: string, id: string)
    ensures IdComesFrom(w, Handle(w, conn, f, addr, sent, broken).0.tables, f, v, id)
  {
    if IsCommand(f) {
      var h := HeadersIn(f);
      match CommandIn(f) {
        case CONNECT =>
        case SEND => SendIds(w, conn, f, h, sent, broken, v, id);
        case UNSUBSCRIBE => UnsubscribeIds(w, conn, f, h, v, id);
        case DISCONNECT => DisconnectIds(w, w.tables, conn, f, v, id);
        case SUBSCRIBE =>
          if S.Subscribes(f) {
            SubscribeIds(w, conn, f, v, id);
          }
      }
    }
  }

  // ---------------------------------------------------------------- header values are trimmed lines

  lemma {:induction false} JoinWithin(ps: seq<string>, c: char, x: char)
    requires ps != [] && x != c && forall p :: p in ps ==> x !in p
    ensures x !in Join(ps, c)
  {
    if |ps| > 1 {
      JoinWithin(ps[1..], c, x);
    }
  }

  lemma {:induction false} DroppedWithin(ps: seq<string>)
    ensures forall p :: p in DropTrailingEmpty(ps) ==> p in ps
  {
    if ps != [] && ps[|ps| - 1] == "" {
      DroppedWithin(ps[..|ps| - 1]);
    }
  }

  predicate AreLines(headers: seq<string>) {
    forall h :: h in headers ==> NL !in h
  }

  lemma HeadersAreLines(message: string)
    ensures var f := Cut(message);
      f.headers.Some? ==> AreLines(f.headers.value)
  {
    var f := Cut(message);
    if f.headers.Some? {
      var k := Find(message, "\n\n");
      var text := SplitFirst(if k < 0 then message else message[..k], NL)[1];
      if NL in text {
        SplitAllJoins(text, NL);
        DroppedWithin(SplitAll(text, NL));
      }
    }
  }

  /** A line without blanks at its ends, as a header value is. */
  predicate Plain(value: string) {
    NL !in value && Trimmed(value, JavaSpace)
  }

  lemma {:induction false} ValuesArePlain(headers: seq<string>)
    requires AreLines(headers)
    ensures forall key :: key in HeaderMap(headers) ==> Plain(HeaderMap(headers)[key])
  {
    if headers != [] {
      var n := |headers| - 1;
      ValuesArePlain(headers[..n]);
      assert headers[n] in headers;
      ValueIsPlain(headers[n]);
    }
  }

  lemma ValueIsPlain(header: string)
    requires NL !in header
    ensures var parts := SplitFirst(header, ':');
      |parts| == 2 ==> Plain(JavaTrim(parts[1]))
  {
    var ps := SplitAll(header, ':');
    if |ps| > 1 {
      forall p | p in ps
        ensures NL !in p
      {
        if NL in p {
          PieceWithin(header, ':', p, NL);
        }
      }
      JoinWithin(ps[1..], ':', NL);
      if NL in JavaTrim(Join(ps[1..], ':')) {
        TrimWithin(Join(ps[1..], ':'), JavaSpace, NL);
      }
    }
  }

  /** Every frame was read from some text. */
  ghost predicate ReadFromTexts(events: seq<S.Event>) {
    forall i :: 0 <= i < |events| && events[i].Frame? ==> FromText(events[i].parts)
  }

  ghost predicate FromText(f: Parts) {
    exists message :: f == Cut(message)
  }

  lemma HeadersArePlain(f: Parts)
    requires FromText(f) && IsCommand(f)
    ensures forall key :: key in HeadersIn(f) ==> Plain(HeadersIn(f)[key])
  {
    var message :| f == Cut(message);
    HeadersAreLines(message);
    ValuesArePlain(f.headers.value);
  }

  /** Channel names are plain, too. */
  lemma DestinationIsPlain(f: Parts)
    requires FromText(f) && HasDestination(f)
    ensures Plain(Destination(f))
  {
    HeadersArePlain(f);
    var d := HeadersIn(f)["destination"];
    if NL in Destination(f) {
      TrimWithin(SlashesToBlanks(d), JavaSpace, NL);
    }
  }

  // ---------------------------------------------------------------- over any run

  ghost predicate IdsArePlain(t: Tables) {
    forall u, id :: id in Ids(t, u) ==> Plain(id)
  }

  lemma FrameIdsPlain(s: S.Server, e: S.Event)
    requires S.Can(s, e) && e.Frame? && FromText(e.parts) && IdsArePlain(s.tables)
    ensures IdsArePlain(S.Do(s, e).tables)
  {
    var w := S.View(s, e.conn);
    forall u, id | id in Ids(S.Do(s, e).tables, u)
      ensures Plain(id)
    {
      FrameIds(w, e.conn, e.parts, e.addr, |e.sent|, e.broken, u, id);
      if S.Subscribes(e.parts) {
        HeadersArePlain(e.parts);
      }
    }
  }

  /** Whatever clients send, each subscription id kept for a user is a trimmed line. */
  lemma {:induction false} RunIdsArePlain(trace: seq<S.Server>, events: seq<S.Event>, i: nat)
    requires S.AnyRun(trace, events) && ReadFromTexts(events) && i < |trace|
    ensures IdsArePlain(trace[i].tables)
  {
    if i > 0 {
      RunIdsArePlain(trace, events, i - 1);
      assert S.StepAt(trace, events, i - 1);
      StepIdsPlain(trace[i - 1], events[i - 1]);
    }
  }

  lemma StepIdsPlain(s: S.Server, e: S.Event)
    requires S.Can(s, e) && (e.Frame? ==> FromText(e.parts)) && IdsArePlain(s.tables)
    ensures IdsArePlain(S.Do(s, e).tables)
  {
    if e.Frame? {
      FrameIdsPlain(s, e);
    } else {
      forall u, id | id in Ids(S.Do(s, e).tables, u)
        ensures Plain(id)
      {
        assert id in Ids(s.tables, u);
      }
    }
  }

  lemma MemberIdIsPlain(trace: seq<S.Server>, events: seq<S.Event>, i: nat, u: string, c: string)
    requires S.IsRun(trace, events) && ReadFromTexts(events) && i < |trace| && IsMember(trace[i].tables, c, u)
    ensures Plain(trace[i].tables.channels[c][u].id)
  {
    var t := trace[i].tables;
    RunIdsArePlain(trace, events, i);
    S.RunKeepsConsistent(trace, events, i);
    assert Subscribed(t, u, c, t.channels[c][u].id);
    assert Listed(t, u, c, t.channels[c][u].id);
    assert t.channels[c][u].id in Ids(t, u);
  }
}
