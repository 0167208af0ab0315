/**
 The client's events as text: how `report` prints one, and how the parsing
 constructor `Event(frame_body)` reads one.
 */
module Events {
  import opened Wrappers
  import opened Text
  import opened Ordering

  datatype Event = Event(
    channel: string,
    city: string,
    name: string,
    dateTime: int,
    description: string,
    info: map<string, string>,
    owner: string)

  // ---------------------------------------------------------------- printing

  function InfoLine(item: (string, string)): string {
    "\t" + item.0 + " : " + item.1 + "\n"
  }

  function InfoText(items: seq<(string, string)>): string {
    if items == [] then "" else InfoLine(items[0]) + InfoText(items[1..])
  }

  function FieldText(key: string, value: string): string {
    key + ":" + value + "\n"
  }

  function DescriptionText(description: string): string {
    FieldText("description", "") + (description + "\n")
  }

  /** The body of the SEND frame, from `user:` to the description. */
  ghost function Body(e: Event): string {
    FieldText("user", e.owner)
    + (FieldText("city", e.city)
       + (FieldText("event name", e.name)
          + (FieldText("date time", IntText(e.dateTime))
             + (FieldText("general information", "")
                + (InfoText(Items(e.info)) + DescriptionText(e.description))))))
  }

  lemma {:induction false} InfoTextSnoc(items: seq<(string, string)>, item: (string, string))
    ensures InfoText(items + [item]) == InfoText(items) + InfoLine(item)
  {
    if items == [] {
      assert items + [item] == [item] && [item][1..] == [];
    } else {
      assert (items + [item])[1..] == items[1..] + [item];
      InfoTextSnoc(items[1..], item);
      var a, b, c := InfoLine(items[0]), InfoText(items[1..]), InfoLine(item);
      assert a + (b + c) == (a + b) + c;
    }
  }

  lemma TraversalStep(rest: map<string, string>, done: seq<(string, string)>, k: string)
    requires IsFirst(rest.Keys, k)
    ensures done + Items(rest) == (done + [(k, rest[k])]) + Items(rest - {k})
    ensures |rest - {k}| < |rest|
  {
    ItemsFrom(rest, k);
    AppendAssoc(done, [(k, rest[k])], Items(rest - {k}));
  }

  /** The loop of `report` over the general information, in key order. */
  method PrintInfo(info: map<string, string>) returns (text: string)
    ensures text == InfoText(Items(info))
  {
    text := "";
    var rest := info;
    ghost var printed: seq<(string, string)> := [];
    while rest != map[]
      invariant text == InfoText(printed) && printed + Items(rest) == Items(info)
      decreases |rest|
    {
      var k := FirstOf(rest.Keys);
      TraversalStep(rest, printed, k);
      InfoTextSnoc(printed, (k, rest[k]));
      text := text + InfoLine((k, rest[k]));
      printed := printed + [(k, rest[k])];
      rest := rest - {k};
    }
    assert printed + Items(rest) == printed;
  }

  method PrintBody(e: Event) returns (text: string)
    ensures text == Body(e)
  {
    var generalInformation := PrintInfo(e.info);
    text := FieldText("user", e.owner);
    text := text + FieldText("city", e.city);
    text := text + FieldText("event name", e.name);
    text := text + FieldText("date time", IntText(e.dateTime));
    text := text + FieldText("general information", "");
    text := text + generalInformation;
    text := text + DescriptionText(e.description);
  }

  // ---------------------------------------------------------------- parsing

  /** `std::stoi` and `substr` are the two calls that throw. */
  datatype ParseError = BadDate(cause: NumberError) | EmptyInfoKey

  /** `inInfo` is the flag `inGeneralInformation`. */
  datatype Draft = Draft(event: Event, inInfo: bool)

  const BLANK: Draft := Draft(Event("", "", "", 0, "", map[], ""), false)

  lemma TokensOfLine(line: string)
    requires ':' in line
    ensures GetLines(line, ':') != []
  {
    SplitAllCuts(line, ':');
  }

  function Key(line: string): string
    requires ':' in line
  {
    TokensOfLine(line);
    GetLines(line, ':')[0]
  }

  /** The value counts only when the line has exactly one more piece. */
  function Value(line: string): string {
    var tokens := GetLines(line, ':');
    if |tokens| == 2 then tokens[1] else ""
  }

  /** The branches on the key that assign a field. */
  function SetField(d: Draft, key: string, value: string): Result<Draft, ParseError> {
    var e := d.event;
    if key == "user" then Ok(d.(event := e.(owner := value)))
    else if key == "channel name" then Ok(d.(event := e.(channel := value)))
    else if key == "city" then Ok(d.(event := e.(city := value)))
    else if key == "event name" then Ok(d.(event := e.(name := value)))
    else if key == "date time" then
      match Stoi(value)
      case Ok(n) => Ok(d.(event := e.(dateTime := n)))
      case Err(cause) => Err(BadDate(cause))
    else Ok(d)
  }

  /** Once in the general information every line is also an entry there. */
  function NoteInfo(d: Draft, key: string, value: string): Result<Draft, ParseError> {
    if !d.inInfo then Ok(d)
    else if key == "" then Err(EmptyInfoKey)
    else Ok(d.(event := d.event.(info := d.event.info[key[1..] := value])))
  }

  predicate StartsDescription(line: string) {
    ':' in line && Key(line) == "description"
  }

  /** Any line but the one that starts the description. */
  function TakeLine(d: Draft, line: string): Result<Draft, ParseError> {
    if ':' !in line then Ok(d)
    else if Key(line) == "general information" then Ok(d.(inInfo := true))
    else
      match SetField(d, Key(line), Value(line))
      case Ok(e) => NoteInfo(e, Key(line), Value(line))
      case Err(x) => Err(x)
  }

  /** Lines put back together, each closed by a newline. */
  function Rejoin(lines: seq<string>): string {
    if lines == [] then "" else lines[0] + "\n" + Rejoin(lines[1..])
  }

  /** The description takes all the lines that are left. */
  function TakeDescription(d: Draft, line: string, lines: seq<string>): Result<Draft, ParseError>
    requires ':' in line
  {
    NoteInfo(d.(event := d.event.(description := Rejoin(lines))), Key(line), Value(line))
  }

  function TakeLines(d: Draft, lines: seq<string>): Result<Draft, ParseError>
    decreases |lines|
  {
    if lines == [] then Ok(d)
    else if StartsDescription(lines[0]) then TakeDescription(d, lines[0], lines[1..])
    else
      match TakeLine(d, lines[0])
      case Ok(e) => TakeLines(e, lines[1..])
      case Err(x) => Err(x)
  }

  function Parsed(body: string): Result<Event, ParseError> {
    match TakeLines(BLANK, GetLines(body, NL))
    case Ok(d) => Ok(d.event)
    case Err(x) => Err(x)
  }

  /** The constructor `Event(frame_body)`. */
  method ParseEvent(body: string) returns (r: Result<Event, ParseError>)
    ensures r == Parsed(body)
  {
    var d := BLANK;
    var pos := 0;
    assert body[pos..] == body;
    while true
      invariant pos <= |body|
      invariant TakeLines(d, GetLines(body[pos..], NL)) == TakeLines(BLANK, GetLines(body, NL))
      decreases |body| - pos
    {
      ghost var lines := GetLines(body[pos..], NL);
      var ok, line, next := GetLine(body, pos, NL);
      if !ok {
        return Ok(d.event);
      }
      assert lines[0] == line && lines[1..] == GetLines(body[next..], NL);
      pos := next;
      var taken;
      if StartsDescription(line) {
        var text := ReadDescription(body, pos);
        taken := NoteInfo(d.(event := d.event.(description := text)), Key(line), Value(line));
        return if taken.Ok? then Ok(taken.value.event) else Err(taken.error);
      }
      taken := TakeLine(d, line);
      if taken.Err? {
        return Err(taken.error);
      }
      d := taken.value;
    }
  }

  /** The inner loop: the rest of the stream, line by line. */
  method ReadDescription(body: string, start: nat) returns (text: string)
    requires start <= |body|
    ensures text == Rejoin(GetLines(body[start..], NL))
  {
    text := "";
    var pos := start;
    while true
      invariant pos <= |body|
      invariant text + Rejoin(GetLines(body[pos..], NL)) == Rejoin(GetLines(body[start..], NL))
      decreases |body| - pos
    {
      ghost var lines := GetLines(body[pos..], NL);
      var ok, line, next := GetLine(body, pos, NL);
      if !ok {
        return;
      }
      assert lines[0] == line && lines[1..] == GetLines(body[next..], NL);
      ghost var rest := Rejoin(GetLines(body[next..], NL));
      assert text + (line + "\n" + rest) == (text + line + "\n") + rest;
      text := text + line + "\n";
      pos := next;
    }
  }
}
