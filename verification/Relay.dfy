/**
 A report's way from one client to another: printed by the reporter, relayed by
 the server, parsed by the receiver. The trip is not the identity; this is
 exactly what it changes.
 */
module Relay {
  import opened Wrappers
  import opened Text
  import opened Ordering
  import opened Events

  // ---------------------------------------------------------------- one line at a time

  function Read(d: Draft, text: string): Result<Draft, ParseError> {
    TakeLines(d, GetLines(text, NL))
  }

  lemma ReadLine(d: Draft, line: string, rest: string)
    requires NL !in line && !StartsDescription(line)
    ensures Read(d, line + "\n" + rest)
         == match TakeLine(d, line) case Ok(e) => Read(e, rest) case Err(x) => Err(x)
  {
    GetLinesCons(line, rest, NL);
    assert GetLines(line + "\n" + rest, NL)[1..] == GetLines(rest, NL);
  }

  lemma ReadDescriptionLine(d: Draft, line: string, rest: string)
    requires NL !in line && StartsDescription(line)
    ensures Read(d, line + "\n" + rest) == TakeDescription(d, line, GetLines(rest, NL))
  {
    GetLinesCons(line, rest, NL);
    assert GetLines(line + "\n" + rest, NL)[1..] == GetLines(rest, NL);
  }

  /** What the parser makes of a value: whole if colon-free, else cut or lost. */
  function Kept(value: string): string {
    var pieces := SplitAll(value, ':');
    if |pieces| == 1 then value
    else if |pieces| == 2 && pieces[1] == "" then pieces[0]
    else ""
  }

  /** A field survives exactly when it holds no colon. */
  lemma KeptIff(value: string)
    ensures Kept(value) == value <==> ':' !in value
  {
    if ':' in value {
      SplitAllCuts(value, ':');
      SplitAllJoins(value, ':');
      var pieces := SplitAll(value, ':');
      if |pieces| == 2 && pieces[1] == "" {
        assert value == pieces[0] + ":" + "";
        assert |value| == |pieces[0]| + 1;
      }
    } else {
      SplitAllFree(value, ':');
    }
  }

  /** A colon at the end is dropped; one inside costs the whole value. */
  lemma KeptIs(a: string, b: string)
    requires ':' !in a
    ensures Kept(a) == a && Kept(a + ":") == a
    ensures b != "" ==> Kept(a + ":" + b) == ""
  {
    SplitAllFree(a, ':');
    SplitAllCons(a, "", ':');
    assert a + ":" + "" == a + ":";
    SplitAllCons(a, b, ':');
    SplitAllJoins(b, ':');
    var pieces := SplitAll(b, ':');
    if |pieces| == 1 {
      assert pieces[0] == b;
    }
  }

  lemma FieldLine(key: string, value: string)
    requires ':' !in key && key != ""
    ensures ':' in key + ":" + value
    ensures Key(key + ":" + value) == key && Value(key + ":" + value) == Kept(value)
  {
    var line := key + ":" + value;
    assert line[|key|] == ':';
    SplitAllCons(key, value, ':');
    var pieces := SplitAll(value, ':');
    if |pieces| == 1 {
      SplitAllJoins(value, ':');
    }
  }

  // ---------------------------------------------------------------- general information

  /** The entries a receiver stores for `items`, on top of `m`. */
  function Padded(m: map<string, string>, items: seq<(string, string)>): map<string, string>
    decreases |items|
  {
    if items == [] then m else Padded(m[items[0].0 + " " := " " + items[0].1], items[1..])
  }

  predicate PlainItem(item: (string, string)) {
    ':' !in item.0 && NL !in item.0 && ':' !in item.1 && NL !in item.1
  }

  /** The leading tab keeps an information key from being read as a field. */
  lemma InfoLineTaken(d: Draft, item: (string, string))
    requires d.inInfo && PlainItem(item)
    ensures var line := "\t" + item.0 + " : " + item.1;
      && NL !in line && !StartsDescription(line)
      && TakeLine(d, line) == Ok(d.(event := d.event.(info := d.event.info[item.0 + " " := " " + item.1])))
  {
    var line, key, value := "\t" + item.0 + " : " + item.1, "\t" + item.0 + " ", " " + item.1;
    assert line == key + ":" + value;
    FieldLine(key, value);
    KeptIff(value);
    assert key[0] == '\t' && key[1..] == item.0 + " ";
    assert "user"[0] == 'u' && "city"[0] == 'c' && "event name"[0] == 'e' && "date time"[0] == 'd';
    assert "general information"[0] == 'g' && "description"[0] == 'd' && "channel name"[0] == 'c';
  }

  lemma {:induction false} InfoRead(d: Draft, items: seq<(string, string)>, rest: string)
    requires d.inInfo && forall i :: i in items ==> PlainItem(i)
    ensures Read(d, InfoText(items) + rest)
         == Read(d.(event := d.event.(info := Padded(d.event.info, items))), rest)
    decreases |items|
  {
    if items == [] {
      assert InfoText(items) + rest == rest;
    } else {
      var line := "\t" + items[0].0 + " : " + items[0].1;
      assert items[0] in items;
      InfoLineTaken(d, items[0]);
      assert InfoText(items) + rest == line + "\n" + (InfoText(items[1..]) + rest);
      ReadLine(d, line, InfoText(items[1..]) + rest);
      InfoRead(TakeLine(d, line).value, items[1..], rest);
    }
  }

  /** `(key, value)` is an entry of `info` with blanks put around the colon. */
  predicate PadOf(info: map<string, string>, key: string, value: string) {
    && |key| >= 1 && key[|key| - 1] == ' ' && key[..|key| - 1] in info
    && value == " " + info[key[..|key| - 1]]
  }

  lemma {:induction false} PaddedIs(m: map<string, string>, items: seq<(string, string)>, key: string)
    requires forall i, j :: 0 <= i < j < |items| ==> items[i].0 != items[j].0
    ensures key in Padded(m, items) <==> key in m || exists i :: 0 <= i < |items| && key == items[i].0 + " "
    ensures forall i :: 0 <= i < |items| && key == items[i].0 + " " ==> Padded(m, items)[key] == " " + items[i].1
    ensures key in m && (forall i :: 0 <= i < |items| ==> key != items[i].0 + " ") ==> Padded(m, items)[key] == m[key]
    decreases |items|
  {
    if items != [] {
      var k, rest := items[0].0 + " ", items[1..];
      PaddedIs(m[k := " " + items[0].1], rest, key);
      assert forall i :: 0 <= i < |rest| ==> rest[i] == items[i + 1];
      forall i | 0 < i < |items|
        ensures items[i].0 + " " != k
      {
        assert (items[i].0 + " ")[..|items[i].0|] == items[i].0 && k[..|items[0].0|] == items[0].0;
      }
      if exists i :: 0 <= i < |items| && key == items[i].0 + " " {
        var i :| 0 <= i < |items| && key == items[i].0 + " ";
        assert i > 0 ==> rest[i - 1].0 + " " == key;
      }
    }
  }

  lemma {:induction false} ItemsDistinct(m: map<string, string>)
    ensures forall i, j :: 0 <= i < j < |Items(m)| ==> Items(m)[i].0 != Items(m)[j].0
    decreases |m|
  {
    if m != map[] {
      FirstExists(m.Keys);
      var k :| IsFirst(m.Keys, k);
      ItemsFrom(m, k);
      var rest := m - {k};
      assert |Items(m)| == 1 + |Items(rest)|;
      ItemsDistinct(rest);
      ItemsComplete(rest);
      forall j | 0 <= j < |Items(rest)|
        ensures Items(rest)[j].0 != k
      {
        assert Items(rest)[j] in Items(rest);
      }
      forall i, j | 0 <= i < j < |Items(m)|
        ensures Items(m)[i].0 != Items(m)[j].0
      {
        ConsAt(Items(m), (k, m[k]), Items(rest), j);
        if i > 0 {
          ConsAt(Items(m), (k, m[k]), Items(rest), i);
        }
      }
    }
  }

  lemma PaddedComes(info: map<string, string>, key: string)
    requires key in Padded(map[], Items(info))
    ensures PadOf(info, key, Padded(map[], Items(info))[key])
  {
    var items := Items(info);
    ItemsDistinct(info);
    ItemsComplete(info);
    PaddedIs(map[], items, key);
    var i :| 0 <= i < |items| && key == items[i].0 + " ";
    var k, v := items[i].0, items[i].1;
    assert items[i] == (k, v) && (k, v) in items;
    assert key[..|key| - 1] == k;
  }

  lemma PaddedGoes(info: map<string, string>, k: string)
    requires k in info
    ensures k + " " in Padded(map[], Items(info))
  {
    var items := Items(info);
    ItemsDistinct(info);
    ItemsComplete(info);
    PaddedIs(map[], items, k + " ");
    assert (k, info[k]) in items;
    var i :| 0 <= i < |items| && items[i] == (k, info[k]);
    assert k + " " == items[i].0 + " ";
  }

  lemma PaddedEntries(info: map<string, string>, key: string, value: string)
    ensures key in Padded(map[], Items(info)) && Padded(map[], Items(info))[key] == value
       <==> PadOf(info, key, value)
  {
    if PadOf(info, key, value) {
      var k := key[..|key| - 1];
      assert key == k + " ";
      PaddedGoes(info, k);
    }
    if key in Padded(map[], Items(info)) {
      PaddedComes(info, key);
    }
  }

  // ---------------------------------------------------------------- description

  lemma {:induction false} RejoinCuts(text: string)
    requires text == "" || text[|text| - 1] == NL
    ensures Rejoin(GetLines(text, NL)) == text
    decreases |text|
  {
    if text == "" {
      GetLinesFree("", NL);
    } else {
      var line, rest := FirstLine(text);
      GetLinesCons(line, rest, NL);
      assert GetLines(text, NL)[1..] == GetLines(rest, NL);
      if rest != "" {
        assert rest[|rest| - 1] == text[|text| - 1];
      }
      RejoinCuts(rest);
    }
  }

  lemma {:induction false} FirstLine(text: string) returns (line: string, rest: string)
    requires NL in text
    ensures NL !in line && text == line + "\n" + rest
  {
    if text[0] == NL {
      line, rest := "", text[1..];
    } else {
      assert text == [text[0]] + text[1..];
      line, rest := FirstLine(text[1..]);
      line := [text[0]] + line;
    }
  }

  // ---------------------------------------------------------------- the round trip

  /** What the parser needs: values on one line, and plain general information. */
  ghost predicate Printable(e: Event) {
    && NL !in e.owner && NL !in e.city && NL !in e.name
    && INT_MIN <= e.dateTime <= INT_MAX
    && forall k :: k in e.info ==> PlainItem((k, e.info[k]))
  }

  /** The receiver's copy of `e`. */
  ghost function Relayed(e: Event): Event {
    Event("", Kept(e.city), Kept(e.name), e.dateTime, e.description + "\n\n",
      Padded(map[], Items(e.info))["escription" := ""], Kept(e.owner))
  }

  lemma ReadField(d: Draft, key: string, value: string, rest: string)
    requires NL !in key && ':' !in key && key != "" && NL !in value
    requires key != "general information" && key != "description"
    ensures Read(d, FieldText(key, value) + rest)
         == match SetField(d, key, Kept(value))
            case Ok(e) => (match NoteInfo(e, key, Kept(value)) case Ok(x) => Read(x, rest) case Err(x) => Err(x))
            case Err(x) => Err(x)
  {
    FieldLine(key, value);
    assert FieldText(key, value) + rest == (key + ":" + value) + "\n" + rest;
    ReadLine(d, key + ":" + value, rest);
  }

  lemma ReadDate(d: Draft, n: int, rest: string)
    requires INT_MIN <= n <= INT_MAX && !d.inInfo
    ensures Read(d, FieldText("date time", IntText(n)) + rest) == Read(d.(event := d.event.(dateTime := n)), rest)
  {
    var t := IntText(n);
    assert ':' !in t && NL !in t;
    ReadField(d, "date time", t, rest);
    KeptIff(t);
    StoiOfIntText(n);
  }

  /** The fields a body may give, each under its own name. */
  lemma ReportFieldsRead(value: string)
    requires NL !in value && ':' !in value
    ensures Parsed("city" + ":" + value + "\n") == Ok(BLANK.event.(city := value))
    ensures Parsed("event name" + ":" + value + "\n") == Ok(BLANK.event.(name := value))
  {
    OneField("city", value);
    OneField("event name", value);
    assert "user"[0] == 'u' && "city"[0] == 'c' && "city"[1] == 'i' && "channel name"[1] == 'h';
    assert "event name"[0] == 'e' && "channel name"[0] == 'c';
  }

  lemma OriginFieldsRead(value: string)
    requires NL !in value && ':' !in value
    ensures Parsed("user" + ":" + value + "\n") == Ok(BLANK.event.(owner := value))
    ensures Parsed("channel name" + ":" + value + "\n") == Ok(BLANK.event.(channel := value))
  {
    OneField("user", value);
    OneField("channel name", value);
    assert "user"[0] == 'u' && "channel name"[0] == 'c';
  }

  lemma DateRead(n: int)
    requires INT_MIN <= n <= INT_MAX
    ensures Parsed("date time" + ":" + IntText(n) + "\n") == Ok(BLANK.event.(dateTime := n))
  {
    ReadDate(BLANK, n, "");
    assert FieldText("date time", IntText(n)) + "" == "date time" + ":" + IntText(n) + "\n";
    GetLinesFree("", NL);
  }

  lemma OneField(key: string, value: string)
    requires NL !in key && ':' !in key && key != "" && NL !in value && ':' !in value
    requires key != "general information" && key != "description" && key != "date time"
    ensures SetField(BLANK, key, value).Ok?
    ensures Parsed(key + ":" + value + "\n") == Ok(SetField(BLANK, key, value).value.event)
  {
    KeptIff(value);
    ReadField(BLANK, key, value, "");
    assert FieldText(key, value) + "" == key + ":" + value + "\n";
    GetLinesFree("", NL);
  }

  lemma ReadInfoHeader(d: Draft, rest: string)
    ensures Read(d, FieldText("general information", "") + rest) == Read(d.(inInfo := true), rest)
  {
    var line := "general information" + ":" + "";
    FieldLine("general information", "");
    assert FieldText("general information", "") + rest == line + "\n" + rest;
    ReadLine(d, line, rest);
  }

  lemma ReadDescriptionText(d: Draft, description: string)
    requires d.inInfo
    ensures Read(d, DescriptionText(description) + "\n")
         == Ok(d.(event := d.event.(description := description + "\n\n", info := d.event.info["escription" := ""])))
  {
    var line, rest := "description" + ":" + "", description + "\n\n";
    FieldLine("description", "");
    KeptIff("");
    assert DescriptionText(description) + "\n" == line + "\n" + rest;
    ReadDescriptionLine(d, line, rest);
    RejoinCuts(rest);
    assert "description"[1..] == "escription";
  }

  lemma ReadHead(e: Event, rest: string)
    requires Printable(e)
    ensures Read(BLANK,
              FieldText("user", e.owner) + (FieldText("city", e.city) + (FieldText("event name", e.name) + rest)))
         == Read(Draft(Event("", Kept(e.city), Kept(e.name), 0, "", map[], Kept(e.owner)), false), rest)
  {
    var e1 := Event("", "", "", 0, "", map[], Kept(e.owner));
    var e2 := e1.(city := Kept(e.city));
    ReadField(BLANK, "user", e.owner, FieldText("city", e.city) + (FieldText("event name", e.name) + rest));
    ReadField(Draft(e1, false), "city", e.city, FieldText("event name", e.name) + rest);
    ReadField(Draft(e2, false), "event name", e.name, rest);
  }

  lemma ReadTail(d: Draft, e: Event)
    requires Printable(e) && !d.inInfo && d.event.info == map[]
    ensures Read(d, FieldText("date time", IntText(e.dateTime))
              + (FieldText("general information", "")
                 + (InfoText(Items(e.info)) + (DescriptionText(e.description) + "\n"))))
         == Ok(Draft(d.event.(dateTime := e.dateTime, description := e.description + "\n\n",
              info := Padded(map[], Items(e.info))["escription" := ""]), true))
  {
    var items, last := Items(e.info), DescriptionText(e.description) + "\n";
    var d1 := d.(event := d.event.(dateTime := e.dateTime));
    var d2 := d1.(inInfo := true);
    var d3 := d2.(event := d2.event.(info := Padded(map[], items)));
    ItemsComplete(e.info);
    forall i | i in items
      ensures PlainItem(i)
    {
      assert (i.0, i.1) in items;
    }
    ReadDate(d, e.dateTime, FieldText("general information", "") + (InfoText(items) + last));
    ReadInfoHeader(d1, InfoText(items) + last);
    InfoRead(d2, items, last);
    ReadDescriptionText(d3, e.description);
  }

  /** The body of a report, line by line. */
  lemma BodyLooks(e: Event, key: string, value: string)
    ensures InfoText([(key, value)]) == "\t" + key + " : " + value + "\n"
    ensures Body(e)
      == "user" + ":" + e.owner + "\n" + ("city" + ":" + e.city + "\n" + ("event name" + ":" + e.name + "\n"
      + ("date time" + ":" + IntText(e.dateTime) + "\n" + ("general information" + ":" + "" + "\n"
      + (InfoText(Items(e.info)) + ("description" + ":" + "" + "\n" + (e.description + "\n")))))))
  {
    assert InfoText([(key, value)][1..]) == "";
  }

  lemma BodyThenNewline(e: Event)
    ensures Body(e) + "\n"
         == FieldText("user", e.owner) + (FieldText("city", e.city) + (FieldText("event name", e.name)
              + (FieldText("date time", IntText(e.dateTime)) + (FieldText("general information", "")
              + (InfoText(Items(e.info)) + (DescriptionText(e.description) + "\n"))))))
  {
  }

  /** Parsing what the server relays of a printed report. */
  lemma RelayedBody(e: Event)
    requires Printable(e)
    ensures Parsed(Body(e) + "\n") == Ok(Relayed(e))
  {
    BodyThenNewline(e);
    var rest := FieldText("date time", IntText(e.dateTime)) + (FieldText("general information", "")
      + (InfoText(Items(e.info)) + (DescriptionText(e.description) + "\n")));
    ReadHead(e, rest);
    ReadTail(Draft(Event("", Kept(e.city), Kept(e.name), 0, "", map[], Kept(e.owner)), false), e);
  }

  /**
   What a receiver knows of a report: date and description (with two newlines
   more) always; user, city and name exactly when they hold no colon; each
   general-information entry padded with blanks; and one entry that is not there.
   */
  lemma RelayRoundTrip(e: Event)
    requires Printable(e)
    ensures var r := Parsed(Body(e) + "\n");
      && r.Ok?
      && r.value.dateTime == e.dateTime
      && r.value.description == e.description + "\n\n"
      && (r.value.owner == e.owner <==> ':' !in e.owner)
      && (r.value.city == e.city <==> ':' !in e.city)
      && (r.value.name == e.name <==> ':' !in e.name)
      && r.value.channel == ""
      && forall key, value :: key in r.value.info && r.value.info[key] == value
           <==> PadOf(e.info, key, value) || (key == "escription" && value == "")
  {
    RelayedBody(e);
    KeptIff(e.owner);
    KeptIff(e.city);
    KeptIff(e.name);
    var info := Relayed(e).info;
    forall key, value
      ensures key in info && info[key] == value <==> PadOf(e.info, key, value) || (key == "escription" && value == "")
    {
      PaddedEntries(e.info, key, value);
      assert "escription"[9] == 'n';
    }
  }
}
