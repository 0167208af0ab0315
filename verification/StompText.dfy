/**
 STOMP frames as text: how the server's protocol prints them, and how it cuts a
 received frame into command, headers and body.
 */
module StompText {
  import opened Wrappers
  import opened Text

  /** `frameHeaders` is null, here `None`, for a frame that is a command only. */
  datatype Parts = Parts(command: string, headers: Option<seq<string>>, body: Option<string>)

  // ---------------------------------------------------------------- printing

  function HeaderLines(headers: seq<string>): string {
    if headers == [] then "" else headers[0] + "\n" + HeaderLines(headers[1..])
  }

  function BodyText(body: Option<string>): string {
    if body.Some? then body.value + "\n" else ""
  }

  /** `buildResponse`; a null header array prints as an empty one. */
  function Response(command: string, headers: seq<string>, body: Option<string>): string {
    command + "\n" + HeaderLines(headers) + "\n" + BodyText(body)
  }

  /** `buildMessageBodyToError`: the refused frame between two rules. */
  function ErrorBody(command: string, headers: Option<seq<string>>, body: Option<string>): string {
    "-----\n" + command + "\n" + (if headers.Some? then HeaderLines(headers.value) else "") + "\n"
    + BodyText(body) + "-----"
  }

  /** `generateMsg`: a MESSAGE frame for one subscription. */
  function MessageFrame(subscriptionId: string, messageId: nat, channel: string, body: Option<string>): string {
    Response("MESSAGE",
      ["subscription:" + subscriptionId, "message-id:" + NatText(messageId), "destination:" + channel], body)
  }

  lemma {:induction false} HeaderLinesSnoc(headers: seq<string>, h: string)
    ensures HeaderLines(headers + [h]) == HeaderLines(headers) + h + "\n"
  {
    if headers == [] {
      assert headers + [h] == [h] && [h][1..] == [];
    } else {
      assert (headers + [h])[1..] == headers[1..] + [h];
      HeaderLinesSnoc(headers[1..], h);
      var a, b := headers[0] + "\n", HeaderLines(headers[1..]);
      assert a + (b + h + "\n") == (a + b) + h + "\n";
    }
  }

  method BuildResponse(command: string, headers: seq<string>, body: Option<string>) returns (response: string)
    ensures response == Response(command, headers, body)
  {
    response := command + "\n";
    for i := 0 to |headers|
      invariant response == command + "\n" + HeaderLines(headers[..i])
    {
      HeaderLinesSnoc(headers[..i], headers[i]);
      assert headers[..i + 1] == headers[..i] + [headers[i]];
      response := response + headers[i] + "\n";
    }
    assert headers[..|headers|] == headers;
    response := response + "\n";
    if body.Some? {
      response := response + body.value + "\n";
    }
  }

  // ---------------------------------------------------------------- cutting

  /** The cuts at the head of `process`. */
  function Cut(message: string): Parts {
    var k := Find(message, "\n\n");
    var head := if k < 0 then message else message[..k];
    var commandAndHeaders := SplitFirst(head, NL);
    Parts(
      commandAndHeaders[0],
      if |commandAndHeaders| == 1 then None else Some(SplitJava(commandAndHeaders[1], NL)),
      if k < 0 then None else Some(message[k + 2..]))
  }

  function CutAll(ms: seq<string>): seq<Parts> {
    seq(|ms|, i requires 0 <= i < |ms| => Cut(ms[i]))
  }

  lemma CutMore(ms: seq<string>, m: string)
    ensures CutAll(ms + [m]) == CutAll(ms) + [Cut(m)]
  {
  }

  function AddHeader(m: map<string, string>, header: string): map<string, string> {
    var parts := SplitFirst(header, ':');
    if |parts| == 2 then m[JavaTrim(parts[0]) := JavaTrim(parts[1])] else m
  }

  function HeaderMap(headers: seq<string>): map<string, string> {
    if headers == [] then map[] else AddHeader(HeaderMap(headers[..|headers| - 1]), headers[|headers| - 1])
  }

  method ParseHeaders(headers: seq<string>) returns (headerMap: map<string, string>)
    ensures headerMap == HeaderMap(headers)
  {
    headerMap := map[];
    for i := 0 to |headers|
      invariant headerMap == HeaderMap(headers[..i])
    {
      assert headers[..i + 1][..i] == headers[..i];
      var parts := SplitFirst(headers[i], ':');
      if |parts| == 2 {
        headerMap := headerMap[JavaTrim(parts[0]) := JavaTrim(parts[1])];
      }
    }
    assert headers[..|headers|] == headers;
  }

  // ---------------------------------------------------------------- meaning of the header map

  predicate IsHeader(header: string, key: string, value: string) {
    var parts := SplitFirst(header, ':');
    |parts| == 2 && JavaTrim(parts[0]) == key && JavaTrim(parts[1]) == value
  }

  predicate HasKey(header: string, key: string) {
    var parts := SplitFirst(header, ':');
    |parts| == 2 && JavaTrim(parts[0]) == key
  }

  /** Header `i` defines `key` as `value`, and no later header defines it again. */
  ghost predicate LastDefines(headers: seq<string>, i: int, key: string, value: string) {
    && 0 <= i < |headers| && IsHeader(headers[i], key, value)
    && forall j :: i < j < |headers| ==> !HasKey(headers[j], key)
  }

  /** Of repeated headers the last one counts; a line without a colon does not. */
  lemma {:induction false} LastHeaderWins(headers: seq<string>, key: string, value: string)
    ensures key in HeaderMap(headers) && HeaderMap(headers)[key] == value
       <==> exists i :: LastDefines(headers, i, key, value)
  {
    if headers != [] {
      var n := |headers| - 1;
      var init, last := headers[..n], headers[n];
      LastHeaderWins(init, key, value);
      if HasKey(last, key) {
        if IsHeader(last, key, value) {
          assert LastDefines(headers, n, key, value);
        }
        forall i | LastDefines(headers, i, key, value)
          ensures i == n
        {
        }
      } else {
        forall i | LastDefines(init, i, key, value)
          ensures LastDefines(headers, i, key, value)
        {
        }
        forall i | LastDefines(headers, i, key, value)
          ensures LastDefines(init, i, key, value)
        {
        }
      }
    }
  }

  // ---------------------------------------------------------------- round trip

  predicate Line(s: string) {
    s != "" && NL !in s
  }

  predicate AllLines(headers: seq<string>) {
    forall h :: h in headers ==> Line(h)
  }

  /** A frame as any peer prints it: head, blank line, body. */
  function Printed(command: string, headers: seq<string>, body: string): string {
    Join([command] + headers, NL) + "\n\n" + body
  }

  lemma {:induction false} HeadIsJoined(command: string, headers: seq<string>)
    ensures command + "\n" + HeaderLines(headers) == Join([command] + headers, NL) + "\n"
    decreases |headers|
  {
    if headers == [] {
      assert [command] + headers == [command];
    } else {
      HeadIsJoined(headers[0], headers[1..]);
      assert [headers[0]] + headers[1..] == headers;
      assert ([command] + headers)[1..] == headers;
      assert command + "\n" + (Join(headers, NL) + "\n") == Join([command] + headers, NL) + "\n";
    }
  }

  lemma ResponseIsPrinted(command: string, headers: seq<string>, body: Option<string>)
    ensures Response(command, headers, body) == Printed(command, headers, BodyText(body))
  {
    HeadIsJoined(command, headers);
    var j := Join([command] + headers, NL);
    assert (j + "\n") + "\n" + BodyText(body) == j + "\n\n" + BodyText(body);
  }

  predicate NoBlankLine(t: string) {
    forall i :: 0 <= i < |t| - 1 ==> !(t[i] == NL && t[i + 1] == NL)
  }

  lemma {:induction false} JoinNoBlankLine(ps: seq<string>)
    requires |ps| >= 1 && NL !in ps[0] && AllLines(ps[1..])
    ensures NoBlankLine(Join(ps, NL) + "\n")
    ensures ps[0] != "" ==> Join(ps, NL) != "" && Join(ps, NL)[0] != NL
  {
    if |ps| > 1 {
      assert ps[1] in ps[1..];
      JoinNoBlankLine(ps[1..]);
      assert Join(ps, NL) + "\n" == ps[0] + ("\n" + (Join(ps[1..], NL) + "\n"));
    }
  }

  lemma BlankLineFound(head: string, body: string)
    requires NoBlankLine(head + "\n")
    ensures Find(head + "\n\n" + body, "\n\n") == |head|
  {
    var s := head + "\n\n" + body;
    assert s[|head|..|head| + 2] == "\n\n";
    forall i | 0 <= i < |head|
      ensures !MatchesAt(s, "\n\n", i)
    {
      assert (head + "\n")[i] == s[i] && (head + "\n")[i + 1] == s[i + 1];
      assert s[i..i + 2] == [s[i], s[i + 1]];
    }
    FindIs(s, "\n\n", |head|);
  }

  lemma BlankLineNowhere(text: string)
    requires NoBlankLine(text)
    ensures Find(text, "\n\n") == -1
  {
    FindFirst(text, "\n\n");
    forall i
      ensures !MatchesAt(text, "\n\n", i)
    {
      if 0 <= i && i + 2 <= |text| {
        assert text[i..i + 2] == [text[i], text[i + 1]];
      }
    }
  }

  lemma JavaSplitOfLines(headers: seq<string>)
    requires headers != [] && AllLines(headers)
    ensures SplitJava(Join(headers, NL), NL) == headers
  {
    var s := Join(headers, NL);
    SplitAllUnique(headers, NL);
    assert headers[|headers| - 1] in headers;
    if |headers| == 1 {
      assert headers[0] in headers;
      assert headers == [headers[0]];
    } else {
      assert s[|headers[0]|] == NL;
    }
  }

  /**
   Cutting a printed frame gives back its command, header lines and body, blank
   lines in the body included.
   */
  lemma CutOfPrinted(command: string, headers: seq<string>, body: string)
    requires NL !in command && headers != [] && AllLines(headers)
    ensures Cut(Printed(command, headers, body)) == Parts(command, Some(headers), Some(body))
  {
    var ps := [command] + headers;
    assert ps[1..] == headers;
    JoinNoBlankLine(ps);
    BlankLineFound(Join(ps, NL), body);
    var s := Printed(command, headers, body);
    assert s[..|Join(ps, NL)|] == Join(ps, NL);
    assert s[|Join(ps, NL)| + 2..] == body;
    SplitFirstCons(command, Join(headers, NL), NL);
    JavaSplitOfLines(headers);
  }

  /** A text without a blank line is all head, and has no body. */
  lemma CutWithoutBlankLine(command: string, rest: string)
    requires NL !in command && NoBlankLine(command + "\n" + rest)
    ensures Cut(command + "\n" + rest) == Parts(command, Some(SplitJava(rest, NL)), None)
    ensures Cut(command) == Parts(command, None, None)
  {
    var m := command + "\n" + rest;
    BlankLineNowhere(m);
    BlankLineNowhere(command);
    SplitAllFree(command, NL);
    assert m == command + [NL] + rest;
    SplitFirstCons(command, rest, NL);
  }

  /** A command on its own has no header array: `parseHeaders` gets null. */
  lemma CutOfBareCommand(command: string, body: string)
    requires NL !in command
    ensures Cut(Printed(command, [], body)) == Parts(command, None, Some(body))
  {
    assert [command] + [] == [command];
    JoinNoBlankLine([command]);
    BlankLineFound(command, body);
    var s := Printed(command, [], body);
    assert s[..|command|] == command && s[|command| + 2..] == body;
    SplitFirstCons(command, "", NL);
  }

  /** What the server's own printer sends, its own cutter understands. */
  lemma ResponseRoundTrip(command: string, headers: seq<string>, body: Option<string>)
    requires NL !in command && headers != [] && AllLines(headers)
    ensures Cut(Response(command, headers, body)) == Parts(command, Some(headers), Some(BodyText(body)))
  {
    ResponseIsPrinted(command, headers, body);
    CutOfPrinted(command, headers, BodyText(body));
  }

  /** Header lines of a list of entries. */
  function Entries(pairs: seq<(string, string)>): seq<string> {
    seq(|pairs|, i requires 0 <= i < |pairs| => pairs[i].0 + ":" + pairs[i].1)
  }

  predicate PlainEntries(pairs: seq<(string, string)>) {
    && (forall i :: 0 <= i < |pairs| ==>
          ':' !in pairs[i].0 && Trimmed(pairs[i].0, JavaSpace) && Trimmed(pairs[i].1, JavaSpace))
    && (forall i, j :: 0 <= i < j < |pairs| ==> pairs[i].0 != pairs[j].0)
  }

  function AsMap(pairs: seq<(string, string)>): map<string, string> {
    if pairs == [] then map[] else AsMap(pairs[..|pairs| - 1])[pairs[|pairs| - 1].0 := pairs[|pairs| - 1].1]
  }

  /** With distinct keys the map holds each entry, and nothing else. */
  lemma {:induction false} AsMapHolds(pairs: seq<(string, string)>)
    requires forall i, j :: 0 <= i < j < |pairs| ==> pairs[i].0 != pairs[j].0
    ensures forall k, v :: k in AsMap(pairs) && AsMap(pairs)[k] == v <==> (k, v) in pairs
  {
    if pairs != [] {
      var init, last := pairs[..|pairs| - 1], pairs[|pairs| - 1];
      AsMapHolds(init);
      assert pairs == init + [last];
      forall k, v
        ensures k in AsMap(pairs) && AsMap(pairs)[k] == v <==> (k, v) in pairs
      {
        assert (k, v) in pairs <==> (k, v) in init || (k, v) == last;
      }
    }
  }

  lemma EntryParses(m: map<string, string>, key: string, value: string)
    requires ':' !in key
    ensures AddHeader(m, key + ":" + value) == m[JavaTrim(key) := JavaTrim(value)]
  {
    SplitFirstCons(key, value, ':');
  }

  lemma EntryAdds(headers: seq<string>, e: (string, string))
    requires ':' !in e.0 && Trimmed(e.0, JavaSpace)
    ensures HeaderMap(headers + [e.0 + ":" + e.1]) == HeaderMap(headers)[e.0 := JavaTrim(e.1)]
  {
    var h := e.0 + ":" + e.1;
    assert (headers + [h])[..|headers + [h]| - 1] == headers;
    EntryParses(HeaderMap(headers), e.0, e.1);
    TrimOfTrimmed(e.0, JavaSpace);
  }

  lemma EntriesSnoc(pairs: seq<(string, string)>)
    requires pairs != []
    ensures var n := |pairs| - 1;
      Entries(pairs) == Entries(pairs[..n]) + [pairs[n].0 + ":" + pairs[n].1]
  {
  }

  lemma {:induction false} EntriesRoundTrip(pairs: seq<(string, string)>)
    requires PlainEntries(pairs)
    ensures HeaderMap(Entries(pairs)) == AsMap(pairs)
  {
    if pairs != [] {
      var n := |pairs| - 1;
      EntriesRoundTrip(pairs[..n]);
      EntriesSnoc(pairs);
      EntryAdds(Entries(pairs[..n]), pairs[n]);
      TrimOfTrimmed(pairs[n].1, JavaSpace);
    }
  }

  /** Header lines made from entries keep their keys and values through the wire. */
  lemma FrameRoundTrip(command: string, pairs: seq<(string, string)>, body: Option<string>)
    requires NL !in command && pairs != [] && PlainEntries(pairs)
    requires forall i :: 0 <= i < |pairs| ==> NL !in pairs[i].0 && NL !in pairs[i].1
    ensures var parts := Cut(Response(command, Entries(pairs), body));
      && parts.command == command && parts.body == Some(BodyText(body)) && parts.headers.Some?
      && forall k, v :: k in HeaderMap(parts.headers.value) && HeaderMap(parts.headers.value)[k] == v
                   <==> (k, v) in pairs
  {
    ResponseRoundTrip(command, Entries(pairs), body);
    EntriesRoundTrip(pairs);
    AsMapHolds(pairs);
  }

  // ---------------------------------------------------------------- channels

  function SlashesToBlanks(s: string): string {
    seq(|s|, i requires 0 <= i < |s| => if s[i] == '/' then ' ' else s[i])
  }

  /** `destination.replace("/", " ").trim()` */
  function ChannelOf(destination: string): string {
    JavaTrim(SlashesToBlanks(destination))
  }

  /** A slash counts as a blank. */
  lemma SlashIsBlank(a: string, b: string)
    requires '/' !in a && '/' !in b
    ensures ChannelOf(a + "/" + b) == JavaTrim(a + " " + b)
  {
    assert SlashesToBlanks(a + "/" + b) == a + " " + b;
  }

  /** The client's SUBSCRIBE frame for a channel. */
  function SubscribeFrame(channel: string, id: string, receipt: string): string {
    "SUBSCRIBE\ndestination:" + channel + "\nid:" + id + "\nreceipt:" + receipt + "\n\n"
  }

  /** The server reads the client's SUBSCRIBE as the client meant it. */
  lemma SubscribeArrives(channel: string, id: string, receipt: string)
    requires NL !in channel && NL !in id && NL !in receipt
    ensures var parts := Cut(SubscribeFrame(channel, id, receipt));
      && parts.command == "SUBSCRIBE" && parts.headers.Some?
      && HeaderMap(parts.headers.value)
           == map["destination" := JavaTrim(channel), "id" := JavaTrim(id), "receipt" := JavaTrim(receipt)]
  {
    var a, b, c := "destination:" + channel, "id:" + id, "receipt:" + receipt;
    SubscribeCut(channel, id, receipt);
    assert a == "destination" + ":" + channel && b == "id" + ":" + id && c == "receipt" + ":" + receipt;
    ThreeHeaders(("destination", channel), ("id", id), ("receipt", receipt));
  }

  lemma SubscribeCut(channel: string, id: string, receipt: string)
    requires NL !in channel && NL !in id && NL !in receipt
    ensures Cut(SubscribeFrame(channel, id, receipt))
         == Parts("SUBSCRIBE", Some(["destination:" + channel, "id:" + id, "receipt:" + receipt]), Some(""))
  {
    SubscribeIsPrinted(channel, id, receipt);
    CutOfPrinted("SUBSCRIBE", ["destination:" + channel, "id:" + id, "receipt:" + receipt], "");
  }

  lemma ThreeHeaders(a: (string, string), b: (string, string), c: (string, string))
    requires ':' !in a.0 && ':' !in b.0 && ':' !in c.0
    requires Trimmed(a.0, JavaSpace) && Trimmed(b.0, JavaSpace) && Trimmed(c.0, JavaSpace)
    ensures HeaderMap([a.0 + ":" + a.1, b.0 + ":" + b.1, c.0 + ":" + c.1])
         == map[][a.0 := JavaTrim(a.1)][b.0 := JavaTrim(b.1)][c.0 := JavaTrim(c.1)]
  {
    var x, y, z := a.0 + ":" + a.1, b.0 + ":" + b.1, c.0 + ":" + c.1;
    assert [x, y, z] == [x, y] + [z] && [x, y] == [x] + [y] && [x] == [] + [x];
    EntryAdds([], a);
    EntryAdds([x], b);
    EntryAdds([x, y], c);
  }

  lemma JoinFour(a: string, b: string, c: string, d: string)
    ensures Join([a, b, c, d], NL) == a + "\n" + b + "\n" + c + "\n" + d
  {
    assert [a, b, c, d][1..] == [b, c, d] && [b, c, d][1..] == [c, d] && [c, d][1..] == [d];
    assert Join([c, d], NL) == c + "\n" + d;
    assert Join([b, c, d], NL) == b + "\n" + (c + "\n" + d);
    assert a + "\n" + (b + "\n" + (c + "\n" + d)) == a + "\n" + b + "\n" + c + "\n" + d;
  }

  lemma SubscribeIsPrinted(channel: string, id: string, receipt: string)
    ensures SubscribeFrame(channel, id, receipt)
         == Printed("SUBSCRIBE", ["destination:" + channel, "id:" + id, "receipt:" + receipt], "")
  {
    var a, b, c := "destination:" + channel, "id:" + id, "receipt:" + receipt;
    JoinFour("SUBSCRIBE", a, b, c);
    assert ["SUBSCRIBE"] + [a, b, c] == ["SUBSCRIBE", a, b, c];
    assert "SUBSCRIBE\ndestination:" + channel == "SUBSCRIBE" + "\n" + a;
    assert "\nid:" + id == "\n" + b && "\nreceipt:" + receipt == "\n" + c;
    var x := "SUBSCRIBE" + "\n" + a;
    assert SubscribeFrame(channel, id, receipt) == x + ("\n" + b) + ("\n" + c) + "\n\n";
  }
}
