/**
 The `summary` command: reports sorted by date and name, and the text written.
 `std::sort` may put equivalent reports in any order, so the question is when
 the text is nevertheless determined.
 */
module Summary {
  import opened Wrappers
  import opened Text
  import opened Ordering
  import opened Events
  import opened Reports

  /** The comparator handed to `std::sort`. */
  predicate Before(a: Event, b: Event) {
    if a.dateTime == b.dateTime then Less(a.name, b.name) else a.dateTime < b.dateTime
  }

  predicate Tied(a: Event, b: Event) {
    !Before(a, b) && !Before(b, a)
  }

  /** What `std::sort` demands of a comparator. */
  lemma BeforeIsStrictWeakOrder(a: Event, b: Event, c: Event)
    ensures !Before(a, a)
    ensures Before(a, b) && Before(b, c) ==> Before(a, c)
    ensures Tied(a, b) && Tied(b, c) ==> Tied(a, c)
    ensures Tied(a, b) <==> a.dateTime == b.dateTime && a.name == b.name
  {
    LessIrreflexive(a.name);
    LessIrreflexive(b.name);
    LessTotal(a.name, b.name);
    LessTotal(b.name, c.name);
    if Less(a.name, b.name) && Less(b.name, c.name) {
      LessTransitive(a.name, b.name, c.name);
    }
  }

  predicate Sorted(s: seq<Event>) {
    forall i, j :: 0 <= i < j < |s| ==> !Before(s[j], s[i])
  }

  /** A possible outcome of sorting `s`. */
  predicate SortOf(r: seq<Event>, s: seq<Event>) {
    multiset(r) == multiset(s) && Sorted(r)
  }

  // ---------------------------------------------------------------- the text

  function Excerpt(description: string): string {
    if |description| > 27 then description[..27] + "..." else description
  }

  /** All that a report contributes to the text. */
  datatype Line = Line(city: string, dateTime: int, name: string, excerpt: string)

  function LineOf(e: Event): Line {
    Line(e.city, e.dateTime, e.name, Excerpt(e.description))
  }

  function Lines(s: seq<Event>): seq<Line> {
    seq(|s|, i requires 0 <= i < |s| => LineOf(s[i]))
  }

  function ReportText(number: nat, l: Line, date: int -> string): string {
    "Report_" + NatText(number) + " :\n\tcity : " + l.city + "\n\tdate time : " + date(l.dateTime)
    + "\n\tevent name : " + l.name + "\n\tsummary : " + l.excerpt + "\n\n"
  }

  function ReportTexts(lines: seq<Line>, date: int -> string): string {
    if lines == [] then ""
    else ReportTexts(lines[..|lines| - 1], date) + ReportText(|lines|, lines[|lines| - 1], date)
  }

  function HeadText(channel: string, total: nat, active: nat, arrivals: nat): string {
    "Channel " + channel + "\nStats :\n Total : " + NatText(total) + "\nactive : " + NatText(active)
    + "\n forces arrival at scene : " + NatText(arrivals) + "\n\nEvent Reports :\n\n"
  }

  /** The file written for the reports in the order `s`. */
  function SummaryText(channel: string, s: seq<Event>, date: int -> string): string {
    HeadText(channel, |s|, Count(s, "active"), Count(s, "forces_arrival_at_scene"))
    + ReportTexts(Lines(s), date)
  }

  /** The writing loop. */
  method WriteSummary(channel: string, s: seq<Event>, date: int -> string) returns (text: string)
    ensures text == SummaryText(channel, s, date)
  {
    var active := CountMarked(s, "active");
    var arrivals := CountMarked(s, "forces_arrival_at_scene");
    var head := HeadText(channel, |s|, active, arrivals);
    var reports := "";
    for i := 0 to |s|
      invariant reports == ReportTexts(Lines(s[..i]), date)
    {
      assert Lines(s[..i + 1])[..i] == Lines(s[..i]);
      reports := reports + ReportText(i + 1, LineOf(s[i]), date);
    }
    assert s[..|s|] == s;
    text := head + reports;
  }

  // ---------------------------------------------------------------- counts do not depend on order

  function Drop(s: seq<Event>, i: nat): (r: seq<Event>)
    requires i < |s|
    ensures |r| == |s| - 1
  {
    s[..i] + s[i + 1..]
  }

  lemma DropMultiset(s: seq<Event>, i: nat)
    requires i < |s|
    ensures multiset(Drop(s, i)) == multiset(s) - multiset{s[i]}
  {
    assert s == s[..i] + [s[i]] + s[i + 1..];
  }

  lemma DropFirst(s: seq<Event>)
    requires s != []
    ensures Drop(s, 0) == s[1..] && s == [s[0]] + s[1..]
  {
  }

  lemma {:induction false} CountDrop(s: seq<Event>, i: nat, word: string)
    requires i < |s|
    ensures Count(s, word) == Count(Drop(s, i), word) + |Marked(s[i].info, word)|
  {
    assert s == s[..i] + ([s[i]] + s[i + 1..]);
    CountAppend(s[..i], [s[i]] + s[i + 1..], word);
    CountAppend([s[i]], s[i + 1..], word);
    CountAppend(s[..i], s[i + 1..], word);
    assert [s[i]][..0] == [];
    assert Count([s[i]], word) == Count([s[i]][..0], word) + |Marked(s[i].info, word)|;
  }

  lemma SameMembers(a: seq<Event>, b: seq<Event>)
    requires multiset(a) == multiset(b)
    ensures |a| == |b|
    ensures forall e :: e in a <==> e in b
  {
    assert |multiset(a)| == |a| && |multiset(b)| == |b|;
    forall e
      ensures e in a <==> e in b
    {
      assert e in a <==> e in multiset(a);
      assert e in b <==> e in multiset(b);
    }
  }

  /** Two arrangements of the same reports: find the other's place for the first of one. */
  lemma SamePlace(a: seq<Event>, b: seq<Event>) returns (i: nat)
    requires a != [] && multiset(a) == multiset(b)
    ensures i < |b| && b[i] == a[0] && |b| == |a|
    ensures multiset(a[1..]) == multiset(Drop(b, i))
  {
    SameMembers(a, b);
    assert a[0] in b;
    i :| 0 <= i < |b| && b[i] == a[0];
    DropMultiset(b, i);
    DropMultiset(a, 0);
    DropFirst(a);
  }

  lemma {:induction false} CountPermuted(a: seq<Event>, b: seq<Event>, word: string)
    requires multiset(a) == multiset(b)
    ensures Count(a, word) == Count(b, word) && |a| == |b|
    decreases |a|
  {
    SameMembers(a, b);
    if a != [] {
      var i := SamePlace(a, b);
      CountPermuted(a[1..], Drop(b, i), word);
      CountDrop(a, 0, word);
      CountDrop(b, i, word);
      DropFirst(a);
    }
  }

  // ---------------------------------------------------------------- what is listed, and in what order

  /** `a` may be listed before `b`: it is older, or as old and its name is not the greater one. */
  ghost predicate InOrder(a: Event, b: Event) {
    a.dateTime < b.dateTime || (a.dateTime == b.dateTime && !Smaller(b.name, a.name))
  }

  /** A sorted list is one by ascending date, and by ascending name among equal dates. */
  lemma SortedByDateAndName(s: seq<Event>)
    ensures Sorted(s) <==> forall i, j :: 0 <= i < j < |s| ==> InOrder(s[i], s[j])
  {
    forall i, j | 0 <= i < j < |s|
      ensures !Before(s[j], s[i]) <==> InOrder(s[i], s[j])
    {
      LessIs(s[j].name, s[i].name);
    }
  }

  /** The first 27 characters, if there are more. */
  lemma ExcerptIs(description: string)
    ensures var x := Excerpt(description);
      && (|description| <= 27 ==> x == description)
      && (|description| > 27 ==> |x| == 30 && x[..27] == description[..27] && x[27..] == "...")
  {
  }

  /** The report numbered `number` with its four labelled values stands between `before` and `after`. */
  predicate Lists(text: string, before: string, number: nat, e: Event, date: int -> string, after: string) {
    text == before + ("Report_" + NatText(number) + " :\n\tcity : " + e.city + "\n\tdate time : " + date(e.dateTime)
      + "\n\tevent name : " + e.name + "\n\tsummary : " + Excerpt(e.description) + "\n\n") + after
  }

  lemma {:induction false} ReportListed(s: seq<Event>, k: nat, date: int -> string) returns (after: string)
    requires k < |s|
    ensures Lists(ReportTexts(Lines(s), date), ReportTexts(Lines(s[..k]), date), k + 1, s[k], date, after)
    decreases |s|
  {
    var n := |s| - 1;
    assert Lines(s)[..n] == Lines(s[..n]) && Lines(s)[n] == LineOf(s[n]);
    var last := ReportText(n + 1, LineOf(s[n]), date);
    if k == n {
      after := "";
      assert ReportTexts(Lines(s), date) + "" == ReportTexts(Lines(s), date);
    } else {
      var rest := ReportListed(s[..n], k, date);
      assert s[..n][..k] == s[..k];
      after := rest + last;
      AppendAssoc(ReportTexts(Lines(s[..k]), date) + ReportText(k + 1, LineOf(s[k]), date), rest, last);
    }
  }

  lemma ListedBehind(head: string, text: string, before: string, number: nat, e: Event, date: int -> string,
                     after: string)
    requires Lists(text, before, number, e, date, after)
    ensures Lists(head + text, head + before, number, e, date, after)
  {
    var block := text[|before|..|text| - |after|];
    assert text == before + block + after;
    assert head + (before + block + after) == (head + before) + block + after;
  }

  /** The file starts with the channel, and with total and counts under their labels. */
  predicate Heads(text: string, channel: string, total: nat, active: nat, arrivals: nat) {
    "Channel " + channel + "\nStats :\n Total : " + NatText(total) + "\nactive : " + NatText(active)
    + "\n forces arrival at scene : " + NatText(arrivals) + "\n\nEvent Reports :\n\n" <= text
  }

  /**
   The file written for `s`: its counts under their labels, then every report
   under its number, by ascending date, and by ascending name among equal dates.
   */
  lemma SummaryLists(channel: string, s: seq<Event>, r: seq<Event>, date: int -> string, k: nat)
      returns (before: string, after: string)
    requires SortOf(r, s) && k < |r|
    ensures |r| == |s| && Lists(SummaryText(channel, r, date), before, k + 1, r[k], date, after)
    ensures Heads(before, channel, |s|, Count(s, "active"), Count(s, "forces_arrival_at_scene"))
    ensures forall i, j :: 0 <= i < j < |r| ==> InOrder(r[i], r[j])
  {
    SortedByDateAndName(r);
    CountPermuted(r, s, "active");
    CountPermuted(r, s, "forces_arrival_at_scene");
    after := ReportListed(r, k, date);
    var head, mid := HeadText(channel, |r|, Count(r, "active"), Count(r, "forces_arrival_at_scene")),
      ReportTexts(Lines(r[..k]), date);
    before := head + mid;
    ListedBehind(head, ReportTexts(Lines(r), date), mid, k + 1, r[k], date, after);
  }

  // ---------------------------------------------------------------- when the lines are determined

  /** Tied reports look the same in the summary. */
  ghost predicate TiesAlike(s: seq<Event>) {
    forall a, b :: a in s && b in s && Tied(a, b) ==> LineOf(a) == LineOf(b)
  }

  lemma SortedFirst(a: seq<Event>, e: Event)
    requires Sorted(a) && e in a
    ensures !Before(e, a[0])
  {
    BeforeIsStrictWeakOrder(e, e, e);
  }

  lemma SortedDrop(s: seq<Event>, i: nat)
    requires Sorted(s) && i < |s|
    ensures Sorted(Drop(s, i))
  {
    var r := Drop(s, i);
    forall j, k | 0 <= j < k < |r|
      ensures !Before(r[k], r[j])
    {
      var j', k' := if j < i then j else j + 1, if k < i then k else k + 1;
      assert r[j] == s[j'] && r[k] == s[k'];
    }
  }

  lemma TiedUpTo(s: seq<Event>, i: nat, k: nat)
    requires Sorted(s) && k <= i < |s| && !Before(s[0], s[i]) && TiesAlike(s)
    ensures LineOf(s[k]) == LineOf(s[0])
  {
    BeforeIsStrictWeakOrder(s[0], s[k], s[i]);
    BeforeIsStrictWeakOrder(s[k], s[i], s[0]);
    BeforeIsStrictWeakOrder(s[i], s[0], s[k]);
    assert k > 0 ==> !Before(s[k], s[0]);
    assert k < i ==> !Before(s[i], s[k]);
    assert Tied(s[k], s[0]);
  }

  /** Taking one of several tied entries out leaves the same lines, whichever it is. */
  lemma DropTied(s: seq<Event>, i: nat)
    requires Sorted(s) && i < |s| && !Before(s[0], s[i]) && TiesAlike(s)
    ensures Lines(Drop(s, i)) == Lines(s[1..])
    ensures LineOf(s[i]) == LineOf(s[0])
  {
    TiedUpTo(s, i, i);
    var r, t := Drop(s, i), s[1..];
    forall k | 0 <= k < |r|
      ensures LineOf(r[k]) == LineOf(t[k])
    {
      if k < i {
        TiedUpTo(s, i, k);
        TiedUpTo(s, i, k + 1);
        assert r[k] == s[k] && t[k] == s[k + 1];
      } else {
        assert r[k] == s[k + 1] && t[k] == s[k + 1];
      }
    }
  }

  lemma LinesFirst(s: seq<Event>)
    requires s != []
    ensures Lines(s) == [LineOf(s[0])] + Lines(s[1..])
  {
  }

  lemma {:induction false} SortedAlike(a: seq<Event>, b: seq<Event>)
    requires Sorted(a) && Sorted(b) && multiset(a) == multiset(b) && TiesAlike(a)
    ensures Lines(a) == Lines(b)
    decreases |a|
  {
    if a != [] {
      var i := FirstOut(a, b);
      SortedAlike(a[1..], Drop(b, i));
      LinesFirst(a);
      LinesFirst(b);
    }
  }

  /** The first of `a` taken out of both. */
  lemma FirstOut(a: seq<Event>, b: seq<Event>) returns (i: nat)
    requires Sorted(a) && Sorted(b) && multiset(a) == multiset(b) && TiesAlike(a) && a != []
    ensures i < |b| && Sorted(a[1..]) && Sorted(Drop(b, i)) && multiset(a[1..]) == multiset(Drop(b, i))
    ensures TiesAlike(a[1..]) && LineOf(a[0]) == LineOf(b[0]) && Lines(Drop(b, i)) == Lines(b[1..])
  {
    SameMembers(a, b);
    i := SamePlace(a, b);
    SortedFirst(a, b[0]);
    DropTied(b, i);
    SortedDrop(b, i);
    SortedDrop(a, 0);
    DropFirst(a);
  }

  /**
   If tied reports look alike, the summary is the same text whatever order the
   reports arrived in and whatever order `std::sort` leaves ties in.
   */
  lemma SummaryDetermined(channel: string, s: seq<Event>, t: seq<Event>,
                          r: seq<Event>, q: seq<Event>, date: int -> string)
    requires multiset(s) == multiset(t) && SortOf(r, s) && SortOf(q, t) && TiesAlike(s)
    ensures SummaryText(channel, r, date) == SummaryText(channel, q, date)
  {
    SameMembers(s, r);
    SortedAlike(r, q);
    CountPermuted(r, q, "active");
    CountPermuted(r, q, "forces_arrival_at_scene");
  }

  /** In particular when no two reports share date and name. */
  lemma DistinctReportsDetermined(channel: string, s: seq<Event>, t: seq<Event>,
                                  r: seq<Event>, q: seq<Event>, date: int -> string)
    requires multiset(s) == multiset(t) && SortOf(r, s) && SortOf(q, t)
    requires forall i, j :: 0 <= i < j < |s| ==> (s[i].dateTime, s[i].name) != (s[j].dateTime, s[j].name)
    ensures SummaryText(channel, r, date) == SummaryText(channel, q, date)
  {
    forall a, b | a in s && b in s && Tied(a, b)
      ensures LineOf(a) == LineOf(b)
    {
      BeforeIsStrictWeakOrder(a, b, b);
    }
    SummaryDetermined(channel, s, t, r, q, date);
  }

  // ---------------------------------------------------------------- sorting exists

  function Insert(e: Event, s: seq<Event>): seq<Event> {
    if s == [] || Before(e, s[0]) then [e] + s else [s[0]] + Insert(e, s[1..])
  }

  function InsertionSort(s: seq<Event>): seq<Event> {
    if s == [] then [] else Insert(s[0], InsertionSort(s[1..]))
  }

  lemma {:induction false} InsertSorts(e: Event, s: seq<Event>)
    requires Sorted(s)
    ensures Sorted(Insert(e, s)) && multiset(Insert(e, s)) == multiset(s) + multiset{e}
  {
    if s == [] {
    } else if Before(e, s[0]) {
      forall i | 0 <= i < |s|
        ensures !Before(s[i], e)
      {
        BeforeIsStrictWeakOrder(s[i], e, s[0]);
        BeforeIsStrictWeakOrder(s[0], s[0], s[0]);
      }
    } else {
      assert s == [s[0]] + s[1..];
      InsertSorts(e, s[1..]);
      var r := Insert(e, s[1..]);
      forall i | 0 <= i < |r|
        ensures !Before(r[i], s[0])
      {
        assert r[i] in multiset(r);
        assert r[i] == e || r[i] in s[1..];
      }
    }
  }

  /** Some sorted arrangement always exists. */
  lemma {:induction false} InsertionSortSorts(s: seq<Event>)
    ensures SortOf(InsertionSort(s), s)
  {
    if s != [] {
      InsertionSortSorts(s[1..]);
      InsertSorts(s[0], InsertionSort(s[1..]));
      assert s == [s[0]] + s[1..];
    }
  }

  /** Between two tied reports of a sorted list all are tied, so they may change places. */
  lemma SwapTied(r: seq<Event>, i: nat, j: nat)
    requires Sorted(r) && i < j < |r| && Tied(r[i], r[j])
    ensures SortOf(r[i := r[j]][j := r[i]], r)
  {
    var q := r[i := r[j]][j := r[i]];
    forall m, n | 0 <= m < n < |q|
      ensures !Before(q[n], q[m])
    {
      SwappedInOrder(r, i, j, m, n);
    }
  }

  lemma SwappedInOrder(r: seq<Event>, i: nat, j: nat, m: nat, n: nat)
    requires Sorted(r) && i < j < |r| && Tied(r[i], r[j]) && m < n < |r|
    ensures var q := r[i := r[j]][j := r[i]]; !Before(q[n], q[m])
  {
    var q := r[i := r[j]][j := r[i]];
    BeforeIsStrictWeakOrder(r[i], r[j], r[m]);
    BeforeIsStrictWeakOrder(r[j], r[i], r[m]);
    BeforeIsStrictWeakOrder(r[n], r[i], r[j]);
    BeforeIsStrictWeakOrder(r[n], r[j], r[i]);
    BeforeIsStrictWeakOrder(r[n], r[m], r[m]);
  }

  lemma AlikeLines(s: seq<Event>, r: seq<Event>, q: seq<Event>)
    requires TiesAlike(s) && SortOf(r, s) && SortOf(q, s)
    ensures Lines(r) == Lines(q)
  {
    SameMembers(s, r);
    SortedAlike(r, q);
  }

  lemma UnlikeTies(s: seq<Event>, a: Event, b: Event) returns (r: seq<Event>, q: seq<Event>)
    requires a in s && b in s && Tied(a, b) && LineOf(a) != LineOf(b)
    ensures SortOf(r, s) && SortOf(q, s) && Lines(r) != Lines(q)
  {
    r := InsertionSort(s);
    InsertionSortSorts(s);
    SameMembers(s, r);
    var i :| 0 <= i < |r| && r[i] == a;
    var j :| 0 <= j < |r| && r[j] == b;
    var lo, hi := if i < j then i else j, if i < j then j else i;
    SwapTied(r, lo, hi);
    q := r[lo := r[hi]][hi := r[lo]];
    assert Lines(r)[lo] == LineOf(r[lo]) && Lines(q)[lo] == LineOf(r[hi]);
  }

  /** Every order `std::sort` may choose gives the same lines exactly when ties look alike. */
  lemma LinesDeterminedIff(s: seq<Event>)
    ensures TiesAlike(s) <==> forall r, q :: SortOf(r, s) && SortOf(q, s) ==> Lines(r) == Lines(q)
  {
    if TiesAlike(s) {
      forall r, q | SortOf(r, s) && SortOf(q, s)
        ensures Lines(r) == Lines(q)
      {
        AlikeLines(s, r, q);
      }
    } else {
      var a, b :| a in s && b in s && Tied(a, b) && LineOf(a) != LineOf(b);
      var r, q := UnlikeTies(s, a, b);
    }
  }
}
