/**
 Reports as frames and messages, and the statistics over them: what a receiver
 counts is what the reporter counted.
 */
module Reports {
  import opened Wrappers
  import opened Text
  import opened StompText
  import opened Events
  import opened Relay

  // ---------------------------------------------------------------- frames

  /** One frame of the `report` command. */
  ghost function ReportFrame(channel: string, e: Event): string {
    "SEND\ndestination: " + Trim(channel) + "\n\n" + Body(e)
  }

  /** What `translateAnswerToResponse` cuts an answer into. */
  datatype Incoming = Incoming(tokens: seq<string>, body: string)

  function CutAnswer(answer: string): Incoming
    requires answer != ""
  {
    var k := Find(answer, "\n\n");
    if k < 0 then Incoming(GetLines(answer, NL), answer[1..])
    else Incoming(GetLines(answer[..k], NL), answer[k + 2..])
  }

  /** The last token that contains `header`, or "". */
  function LastWith(tokens: seq<string>, header: string): string {
    if tokens == [] then ""
    else if Contains(tokens[|tokens| - 1], header) then tokens[|tokens| - 1]
    else LastWith(tokens[..|tokens| - 1], header)
  }

  datatype ReadError = NoDestination | BadEvent(cause: ParseError)

  /** The part of the found token after `header`; without one `substr` throws. */
  function HeaderValue(tokens: seq<string>, header: string): Result<string, ReadError>
    requires header != ""
  {
    var token := LastWith(tokens, header);
    if Find(token, header) < 0 then Err(NoDestination) else Ok(token[Find(token, header) + |header|..])
  }

  /** Where a MESSAGE goes in the client's reports, and the event it carries. */
  function ReadMessage(answer: string): Result<(string, Event), ReadError>
    requires answer != ""
  {
    var a := CutAnswer(answer);
    match HeaderValue(a.tokens, "destination:")
    case Err(x) => Err(x)
    case Ok(dest) =>
      match Parsed(a.body)
      case Ok(e) => Ok((Trim(dest), e))
      case Err(x) => Err(BadEvent(x))
  }

  /** Without a blank line the body is taken to start at the second character. */
  lemma AnswerWithoutBlankLine(answer: string)
    requires answer != "" && NoBlankLine(answer)
    ensures CutAnswer(answer) == Incoming(GetLines(answer, NL), answer[1..])
  {
    BlankLineNowhere(answer);
  }

  lemma {:induction false} LinesOfJoin(ps: seq<string>)
    requires |ps| >= 1 && ps[|ps| - 1] != "" && forall p :: p in ps ==> NL !in p
    ensures GetLines(Join(ps, NL), NL) == ps
  {
    SplitAllUnique(ps, NL);
  }

  /** Whatever the server prints, the client cuts into command line, header lines and body. */
  lemma AnswerCut(command: string, hs: seq<string>, body: Option<string>)
    requires Line(command) && hs != [] && AllLines(hs)
    ensures var m := Response(command, hs, body);
      m != "" && CutAnswer(m) == Incoming([command] + hs, BodyText(body))
  {
    var ps := [command] + hs;
    ResponseIsPrinted(command, hs, body);
    assert ps[1..] == hs && ps[|ps| - 1] in hs;
    JoinNoBlankLine(ps);
    var head, m := Join(ps, NL), Printed(command, hs, BodyText(body));
    BlankLineFound(head, BodyText(body));
    assert m[..|head|] == head && m[|head| + 2..] == BodyText(body);
    LinesOfJoin(ps);
  }

  /** A relayed message is cut by the client as the server put it together. */
  lemma CutOfMessage(subscriptionId: string, messageId: nat, channel: string, body: string)
    requires NL !in subscriptionId && NL !in channel
    ensures var m := MessageFrame(subscriptionId, messageId, channel, Some(body));
      && m != ""
      && CutAnswer(m).body == body + "\n"
      && CutAnswer(m).tokens != [] && CutAnswer(m).tokens[0] == "MESSAGE"
      && HeaderValue(CutAnswer(m).tokens, "destination:") == Ok(channel)
  {
    var hs := ["subscription:" + subscriptionId, "message-id:" + NatText(messageId), "destination:" + channel];
    assert NL !in NatText(messageId);
    AnswerCut("MESSAGE", hs, Some(body));
    assert (["MESSAGE"] + hs)[3] == "destination:" + channel;
  }

  /** A message names the recipient's subscription, its own number and the channel. */
  predicate ReadsAs(text: string, subscription: string, number: string, channel: string) {
    var f := Cut(text);
    && f.command == "MESSAGE" && f.headers.Some?
    && HeaderMap(f.headers.value)
       == map["subscription" := subscription, "message-id" := number, "destination" := channel]
  }

  lemma MessageReads(subscriptionId: string, messageId: nat, channel: string, body: Option<string>)
    requires NL !in subscriptionId && NL !in channel
    ensures var m := MessageFrame(subscriptionId, messageId, channel, body);
      && ReadsAs(m, JavaTrim(subscriptionId), NatText(messageId), JavaTrim(channel))
      && Cut(m).body == Some(BodyText(body))
  {
    var a, b, c := "subscription:" + subscriptionId, "message-id:" + NatText(messageId), "destination:" + channel;
    DigitsTrimmed(messageId);
    ResponseRoundTrip("MESSAGE", [a, b, c], body);
    MessageHeaders(subscriptionId, NatText(messageId), channel);
  }

  lemma MessageHeaders(s: string, n: string, c: string)
    ensures HeaderMap(["subscription:" + s, "message-id:" + n, "destination:" + c])
         == map["subscription" := JavaTrim(s), "message-id" := JavaTrim(n), "destination" := JavaTrim(c)]
  {
    assert "subscription:" + s == "subscription" + ":" + s && "message-id:" + n == "message-id" + ":" + n;
    assert "destination:" + c == "destination" + ":" + c;
    ThreeHeaders(("subscription", s), ("message-id", n), ("destination", c));
  }

  /** The server's channel name for a report on `channel`. */
  function Landing(channel: string): string {
    ChannelOf(JavaTrim(" " + Trim(channel)))
  }

  lemma LandingIsLine(channel: string)
    requires NL !in Trim(channel)
    ensures NL !in Landing(channel)
  {
    var blank := " " + Trim(channel);
    assert NL !in blank;
    var s := JavaTrim(blank);
    if NL in s {
      TrimWithin(blank, JavaSpace, NL);
    }
    if NL in Landing(channel) {
      TrimWithin(SlashesToBlanks(s), JavaSpace, NL);
    }
  }

  lemma ReportIsPrinted(channel: string, e: Event)
    ensures ReportFrame(channel, e) == Printed("SEND", ["destination" + ":" + (" " + Trim(channel))], Body(e))
  {
    var h := "destination" + ":" + (" " + Trim(channel));
    assert "SEND\ndestination: " + Trim(channel) == "SEND" + "\n" + h;
    assert ["SEND"] + [h] == ["SEND", h] && ["SEND", h][1..] == [h];
    assert Join(["SEND", h], NL) == "SEND" + "\n" + h;
  }

  /** The server reads a report as a SEND with the printed event as its body. */
  lemma CutOfReport(channel: string, e: Event)
    requires NL !in Trim(channel)
    ensures var f := Cut(ReportFrame(channel, e));
      && f.command == "SEND" && f.headers.Some? && f.body == Some(Body(e))
      && "destination" in HeaderMap(f.headers.value)
      && ChannelOf(HeaderMap(f.headers.value)["destination"]) == Landing(channel)
  {
    var h := "destination" + ":" + (" " + Trim(channel));
    ReportIsPrinted(channel, e);
    CutOfPrinted("SEND", [h], Body(e));
    EntryAdds([], ("destination", " " + Trim(channel)));
    assert [] + [h] == [h];
  }

  /**
   A report from keyboard to report list: printed, cut by the server, relayed
   under whatever subscription and message id, cut and parsed by the receiver.
   */
  lemma ReportArrives(channel: string, e: Event, subscriptionId: string, messageId: nat)
    requires Printable(e) && NL !in Trim(channel) && NL !in subscriptionId
    ensures var f := Cut(ReportFrame(channel, e));
      var m := MessageFrame(subscriptionId, messageId, Landing(channel), f.body);
      && m != "" && ReadMessage(m) == Ok((Trim(Landing(channel)), Relayed(e)))
      && CutAnswer(m).tokens != [] && CutAnswer(m).tokens[0] == "MESSAGE"
  {
    LandingIsLine(channel);
    CutOfReport(channel, e);
    CutOfMessage(subscriptionId, messageId, Landing(channel), Body(e));
    RelayedBody(e);
  }

  lemma ChannelHasNoSlash(destination: string)
    ensures '/' !in ChannelOf(destination)
  {
    var l, r := TrimParts(SlashesToBlanks(destination), JavaSpace);
    assert SlashesToBlanks(destination) == l + ChannelOf(destination) + r;
    assert '/' !in SlashesToBlanks(destination);
  }

  /** Reporter and receiver file a report under one channel name exactly for trimmed names without a slash. */
  lemma SameNameAtBothEnds(channel: string)
    ensures Trim(Landing(channel)) == channel <==> Trimmed(channel, JavaSpace) && '/' !in channel
  {
    ChannelHasNoSlash(JavaTrim(" " + Trim(channel)));
    if Trimmed(channel, JavaSpace) && '/' !in channel {
      TrimCore(" ", channel, "", JavaSpace);
      assert " " + channel + "" == " " + channel;
      assert SlashesToBlanks(channel) == channel;
      TrimOfTrimmed(channel, JavaSpace);
    }
  }

  // ---------------------------------------------------------------- statistics

  predicate Marks(word: string, key: string, value: string) {
    Contains(Trim(key), word) && Contains(Trim(value), "true")
  }

  function Marked(info: map<string, string>, word: string): set<string> {
    set k | k in info && Marks(word, k, info[k])
  }

  /** `getNumOfActive` for "active", `getNumOfForcesArrivals` for "forces_arrival_at_scene". */
  function Count(reports: seq<Event>, word: string): nat {
    if reports == [] then 0
    else Count(reports[..|reports| - 1], word) + |Marked(reports[|reports| - 1].info, word)|
  }

  /** An entry counts if the word occurs in its key and "true" in its value. */
  lemma MarksIff(word: string, key: string, value: string)
    ensures Marks(word, key, value)
       <==> (exists i :: MatchesAt(Trim(key), word, i)) && exists j :: MatchesAt(Trim(value), "true", j)
  {
    ContainsIff(Trim(key), word);
    ContainsIff(Trim(value), "true");
  }

  /** The counting loops, over the reports and over each one's entries. */
  method CountMarked(reports: seq<Event>, word: string) returns (counter: nat)
    ensures counter == Count(reports, word)
  {
    counter := 0;
    for i := 0 to |reports|
      invariant counter == Count(reports[..i], word)
    {
      var info := reports[i].info;
      var keys := info.Keys;
      ghost var found: set<string> := {};
      ghost var before := counter;
      while keys != {}
        invariant keys <= info.Keys && found == set k | k in Marked(info, word) && k !in keys
        invariant counter == before + |found|
        decreases |keys|
      {
        var key :| key in keys;
        keys := keys - {key};
        if Marks(word, key, info[key]) {
          found := found + {key};
          counter := counter + 1;
        }
      }
      assert found == Marked(info, word);
      assert reports[..i + 1][..i] == reports[..i];
    }
    assert reports[..|reports|] == reports;
  }

  lemma {:induction false} PaddingKeepsSize(keys: set<string>)
    ensures |set k | k in keys :: k + " "| == |keys|
    decreases |keys|
  {
    if keys != {} {
      var k :| k in keys;
      var rest := keys - {k};
      PaddingKeepsSize(rest);
      forall j | j in rest
        ensures j + " " != k + " "
      {
        assert (j + " ")[..|j|] == j && (k + " ")[..|k|] == k;
      }
      assert (set j | j in keys :: j + " ") == (set j | j in rest :: j + " ") + {k + " "};
    }
  }

  lemma PaddingKeepsMarks(word: string, key: string, value: string)
    ensures Marks(word, key + " ", " " + value) <==> Marks(word, key, value)
  {
    TrimPadded("", key, " ", CppSpace);
    assert "" + key + " " == key + " ";
    TrimPadded(" ", value, "", CppSpace);
    assert " " + value + "" == " " + value;
  }

  lemma MarkComes(e: Event, word: string, key: string)
    requires key in Marked(Relayed(e).info, word)
    ensures exists k :: k in Marked(e.info, word) && key == k + " "
  {
    var value := Relayed(e).info[key];
    assert Trim("") == "" && !Contains("", "true");
    if key != "escription" {
      PaddedEntries(e.info, key, value);
      var k := key[..|key| - 1];
      assert key == k + " ";
      PaddingKeepsMarks(word, k, e.info[k]);
    }
  }

  lemma MarkGoes(e: Event, word: string, k: string)
    requires k in Marked(e.info, word)
    ensures k + " " in Marked(Relayed(e).info, word)
  {
    var key := k + " ";
    assert key[..|key| - 1] == k && key[|key| - 1] == ' ';
    PaddedEntries(e.info, key, " " + e.info[k]);
    PaddingKeepsMarks(word, k, e.info[k]);
    assert "escription"[9] == 'n' && (|key| == 10 ==> key[9] == ' ');
  }

  /** Padding hides no mark, and the entry that is not there adds none. */
  lemma MarksSurvive(e: Event, word: string)
    ensures |Marked(Relayed(e).info, word)| == |Marked(e.info, word)|
  {
    var mine, theirs := Marked(e.info, word), Marked(Relayed(e).info, word);
    var padded := set k | k in mine :: k + " ";
    forall key
      ensures key in theirs <==> key in padded
    {
      if key in theirs {
        MarkComes(e, word, key);
      }
      if key in padded {
        var k :| k in mine && key == k + " ";
        MarkGoes(e, word, k);
      }
    }
    assert theirs == padded;
    PaddingKeepsSize(mine);
  }

  /** The receiver's list: the sender pops its frames from the back. */
  ghost function ReceivedList(es: seq<Event>): seq<Event> {
    if es == [] then [] else [Relayed(es[|es| - 1])] + ReceivedList(es[..|es| - 1])
  }

  lemma {:induction false} CountAppend(a: seq<Event>, b: seq<Event>, word: string)
    ensures Count(a + b, word) == Count(a, word) + Count(b, word)
  {
    if b == [] {
      assert a + b == a;
    } else {
      var n := |b| - 1;
      assert (a + b)[..|a + b| - 1] == a + b[..n];
      CountAppend(a, b[..n], word);
    }
  }

  /** Total, active and forces-arrival counts are the same at both ends. */
  lemma {:induction false} StatisticsSurvive(es: seq<Event>, word: string)
    ensures |ReceivedList(es)| == |es|
    ensures Count(ReceivedList(es), word) == Count(es, word)
  {
    if es != [] {
      var n := |es| - 1;
      StatisticsSurvive(es[..n], word);
      MarksSurvive(es[n], word);
      CountAppend([Relayed(es[n])], ReceivedList(es[..n]), word);
      assert Count([Relayed(es[n])], word) == Count([Relayed(es[n])][..0], word) + |Marked(Relayed(es[n]).info, word)|;
    }
  }
}
