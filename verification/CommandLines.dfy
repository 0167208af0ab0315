/** What a typed line means to the client: the commands, as a user writes them. */
module CommandLines {
  import opened Wrappers
  import opened Text
  import opened Client

  predicate Word(w: string) {
    w != "" && ' ' !in w
  }

  lemma WordsOf(ws: seq<string>)
    requires ws != [] && forall w :: w in ws ==> Word(w)
    ensures Words(Text.Join(ws, ' ')) == ws
  {
    SplitAllUnique(ws, ' ');
    assert ws[|ws| - 1] in ws;
  }

  lemma TwoWords(a: string, b: string)
    requires Word(a) && Word(b)
    ensures Words(a + " " + b) == [a, b]
  {
    WordsOf([a, b]);
  }

  lemma FourWords(a: string, b: string, c: string, d: string)
    requires Word(a) && Word(b) && Word(c) && Word(d)
    ensures Words(a + " " + b + " " + c + " " + d) == [a, b, c, d]
  {
    assert [a, b, c, d][1..] == [b, c, d] && [b, c, d][1..] == [c, d] && [c, d][1..] == [d];
    assert Text.Join([c, d], ' ') == c + " " + d;
    assert Text.Join([b, c, d], ' ') == b + " " + (c + " " + d);
    assert a + " " + (b + " " + (c + " " + d)) == a + " " + b + " " + c + " " + d;
    WordsOf([a, b, c, d]);
  }

  lemma TwoWordDeed(a: string, b: string)
    requires Word(a) && Word(b)
    ensures DeedOf(true, a + " " + b)
         == if a == "join" then Deed.Join(Trim(b)) else if a == "exit" then Exit(b) else if a == "report" then Report
            else Nothing
  {
    TwoWords(a, b);
  }

  lemma SummaryUnderstood(channel: string, user: string, path: string)
    requires Word(channel) && Word(user) && Word(path)
    ensures DeedOf(true, "summary" + " " + channel + " " + user + " " + path) == Summarise(channel, user, path)
  {
    FourWords("summary", channel, user, path);
    assert "join"[0] == 'j' && "exit"[0] == 'e' && "report"[0] == 'r' && "summary"[0] == 's';
  }

  lemma LogoutUnderstood()
    ensures DeedOf(true, "logout") == Logout
  {
    WordsOf(["logout"]);
    assert Text.Join(["logout"], ' ') == "logout";
    assert "join"[0] == 'j' && "exit"[0] == 'e' && "report"[0] == 'r' && "summary"[0] == 's' && "logout"[0] == 'l';
  }

  /** The commands of a user who is logged in. */
  lemma CommandsUnderstood(channel: string, user: string, path: string)
    requires Word(channel) && Word(user) && Word(path)
    ensures DeedOf(true, "join" + " " + channel) == Deed.Join(Trim(channel))
    ensures DeedOf(true, "exit" + " " + channel) == Exit(channel)
    ensures DeedOf(true, "report" + " " + path) == Report
    ensures DeedOf(true, "summary" + " " + channel + " " + user + " " + path) == Summarise(channel, user, path)
    ensures DeedOf(true, "logout") == Logout
  {
    TwoWordDeed("join", channel);
    TwoWordDeed("exit", channel);
    TwoWordDeed("report", path);
    assert "join"[0] == 'j' && "exit"[0] == 'e' && "report"[0] == 'r';
    SummaryUnderstood(channel, user, path);
    LogoutUnderstood();
  }

  /** Nothing but `login` is heeded before a login, and that not after one. */
  lemma LoginFirst(command: string)
    requires Words(command) != []
    ensures DeedOf(false, command) != Nothing ==> Words(command)[0] == "login" && |Words(command)| == 4
    ensures Words(command)[0] == "login" ==> DeedOf(true, command) == Nothing
  {
    assert "join"[0] == 'j' && "exit"[0] == 'e' && "report"[0] == 'r' && "summary"[0] == 's' && "login"[2] == 'g';
    assert "logout"[3] == 'o' && "login"[3] == 'i';
  }

  lemma AddressParts(host: string, port: string)
    requires ':' !in host
    ensures HostText(host + ":" + port) == host && PortText(host + ":" + port) == port
  {
    var s := host + ":" + port;
    assert s[|host|..|host| + 1] == ":";
    forall i | 0 <= i < |host|
      ensures !MatchesAt(s, ":", i)
    {
      assert s[i..i + 1] == [host[i]];
    }
    FindIs(s, ":", |host|);
  }

  /** A port is cut to 16 bits, which changes none that fits. */
  lemma ShortIs(n: int)
    ensures -0x8000 <= Short(n) <= 0x7fff && (Short(n) - n) % 0x1_0000 == 0
    ensures -0x8000 <= n <= 0x7fff ==> Short(n) == n
  {
  }

  /** `login host:port user password`; it throws exactly for a port out of the range of an int. */
  lemma LoginUnderstood(host: string, port: int, user: string, password: string)
    requires ':' !in host && ' ' !in host && Word(user) && Word(password)
    ensures DeedOf(false, "login" + " " + (host + ":" + IntText(port)) + " " + user + " " + password)
         == if INT_MIN <= port <= INT_MAX then Login(host, Short(port), user, password) else Fails
  {
    assert ' ' !in IntText(port);
    FourWords("login", host + ":" + IntText(port), user, password);
    AddressParts(host, IntText(port));
    StoiOfIntText(port);
  }
}
