/**
 Strings as the Java server and the C++ client cut them up: `std::getline`,
 `String.split`, `find`, `trim`, `std::to_string` and `std::stoi`.
 */
module Text {
  import opened Wrappers

  const NL: char := '\n'

  // ---------------------------------------------------------------- pieces

  /** All pieces of `s` between occurrences of `c`, empty ones included. */
  function SplitAll(s: string, c: char): (r: seq<string>)
    ensures |r| >= 1
  {
    if s == [] then [""]
    else
      var r := SplitAll(s[1..], c);
      if s[0] == c then [""] + r else [[s[0]] + r[0]] + r[1..]
  }

  function Join(ps: seq<string>, c: char): string
    requires |ps| >= 1
  {
    if |ps| == 1 then ps[0] else ps[0] + [c] + Join(ps[1..], c)
  }

  lemma {:induction false} SplitAllFree(s: string, c: char)
    requires c !in s
    ensures SplitAll(s, c) == [s]
  {
    if s != [] {
      SplitAllFree(s[1..], c);
      assert s == [s[0]] + s[1..];
    }
  }

  lemma {:induction false} SplitAllCons(a: string, b: string, c: char)
    requires c !in a
    ensures SplitAll(a + [c] + b, c) == [a] + SplitAll(b, c)
  {
    var s := a + [c] + b;
    if a == [] {
      assert s[1..] == b;
    } else {
      assert s[1..] == a[1..] + [c] + b;
      SplitAllCons(a[1..], b, c);
      assert s[0] == a[0] && a == [a[0]] + a[1..];
    }
  }

  /** Cutting loses nothing and leaves no separator behind ... */
  lemma {:induction false} SplitAllJoins(s: string, c: char)
    ensures Join(SplitAll(s, c), c) == s
    ensures forall p :: p in SplitAll(s, c) ==> c !in p
  {
    if s != [] {
      SplitAllJoins(s[1..], c);
      var r := SplitAll(s[1..], c);
      if s[0] == c {
        assert ([""] + r)[1..] == r;
      } else {
        var h := [s[0]] + r[0];
        if |r| > 1 {
          assert ([h] + r[1..])[1..] == r[1..];
          assert h + [c] + Join(r[1..], c) == [s[0]] + (r[0] + [c] + Join(r[1..], c));
        }
      }
    }
  }

  /** ... and is the only such cut. */
  lemma {:induction false} SplitAllUnique(ps: seq<string>, c: char)
    requires |ps| >= 1
    requires forall p :: p in ps ==> c !in p
    ensures SplitAll(Join(ps, c), c) == ps
  {
    if |ps| == 1 {
      SplitAllFree(ps[0], c);
    } else {
      SplitAllUnique(ps[1..], c);
      SplitAllCons(ps[0], Join(ps[1..], c), c);
    }
  }

  lemma {:induction false} SplitAllCuts(s: string, c: char)
    requires c in s
    ensures |SplitAll(s, c)| >= 2
  {
    if s[0] != c {
      assert s == [s[0]] + s[1..];
      SplitAllCuts(s[1..], c);
    }
  }

  lemma {:induction false} PieceWithin(s: string, c: char, p: string, x: char)
    requires p in SplitAll(s, c) && x in p
    ensures x in s
  {
    if s != [] {
      var r := SplitAll(s[1..], c);
      assert forall y :: y in s[1..] ==> y in s;
      if p in r {
        PieceWithin(s[1..], c, p, x);
      } else if s[0] != c {
        assert p == [s[0]] + r[0];
        if x != s[0] {
          PieceWithin(s[1..], c, r[0], x);
        }
      }
    }
  }

  /** What repeated `std::getline(stream, line, c)` yields: no empty last line. */
  function GetLines(s: string, c: char): seq<string> {
    var r := SplitAll(s, c);
    if r[|r| - 1] == "" then r[..|r| - 1] else r
  }

  lemma GetLinesCons(a: string, b: string, c: char)
    requires c !in a
    ensures GetLines(a + [c] + b, c) == [a] + GetLines(b, c)
  {
    SplitAllCons(a, b, c);
  }

  lemma GetLinesFree(a: string, c: char)
    requires c !in a
    ensures GetLines(a, c) == if a == "" then [] else [a]
  {
    SplitAllFree(a, c);
  }

  /** One `std::getline` on the stream `s` from `pos`. */
  method GetLine(s: string, pos: nat, c: char) returns (ok: bool, line: string, next: nat)
    requires pos <= |s|
    ensures ok <==> pos < |s|
    ensures !ok ==> line == "" && next == pos && GetLines(s[pos..], c) == []
    ensures ok ==> pos < next <= |s| && GetLines(s[pos..], c) == [line] + GetLines(s[next..], c)
  {
    line, next := "", pos;
    ok := pos < |s|;
    if !ok {
      assert s[pos..] == "";
      GetLinesFree("", c);
      return;
    }
    while next < |s| && s[next] != c
      invariant pos <= next <= |s|
      invariant forall k :: pos <= k < next ==> s[k] != c
    {
      next := next + 1;
    }
    line := s[pos..next];
    LineEnds(s, pos, next, c);
    if next < |s| {
      next := next + 1;
    }
  }

  lemma LineEnds(s: string, pos: nat, next: nat, c: char)
    requires pos < |s| && pos <= next <= |s| && c !in s[pos..next] && (next < |s| ==> s[next] == c)
    ensures GetLines(s[pos..], c) == [s[pos..next]] + GetLines(s[if next < |s| then next + 1 else next..], c)
  {
    if next < |s| {
      assert s[pos..] == s[pos..next] + [c] + s[next + 1..];
      GetLinesCons(s[pos..next], s[next + 1..], c);
    } else {
      assert s[pos..] == s[pos..next];
      GetLinesFree(s[pos..], c);
      GetLinesFree(s[next..], c);
    }
  }

  /** Java's `s.split(c, 2)`: cut at the first `c` only. */
  function SplitFirst(s: string, c: char): (r: seq<string>)
    ensures 1 <= |r| <= 2
  {
    var r := SplitAll(s, c);
    if |r| == 1 then r else [r[0], Join(r[1..], c)]
  }

  lemma SplitFirstCons(a: string, b: string, c: char)
    requires c !in a
    ensures SplitFirst(a + [c] + b, c) == [a, b]
    ensures SplitFirst(a, c) == [a]
  {
    SplitAllCons(a, b, c);
    SplitAllFree(a, c);
    SplitAllJoins(b, c);
    assert ([a] + SplitAll(b, c))[1..] == SplitAll(b, c);
  }

  function DropTrailingEmpty(ps: seq<string>): seq<string> {
    if ps != [] && ps[|ps| - 1] == "" then DropTrailingEmpty(ps[..|ps| - 1]) else ps
  }

  /** Java's `s.split(c)`: trailing empty pieces go, unless nothing was cut. */
  function SplitJava(s: string, c: char): seq<string> {
    if c in s then DropTrailingEmpty(SplitAll(s, c)) else [s]
  }

  lemma {:induction false} DroppedAre(ps: seq<string>)
    ensures var r := DropTrailingEmpty(ps);
      && r <= ps && (forall i :: |r| <= i < |ps| ==> ps[i] == "")
      && (r != [] ==> r[|r| - 1] != "")
  {
    if ps != [] && ps[|ps| - 1] == "" {
      DroppedAre(ps[..|ps| - 1]);
    }
  }

  /** Java's split: the pieces up to the last one that is not empty; the whole text if there is nothing to cut. */
  lemma SplitJavaIs(s: string, c: char)
    ensures c !in s ==> SplitJava(s, c) == [s]
    ensures c in s ==>
      var r, all := SplitJava(s, c), SplitAll(s, c);
      && r <= all && (forall i :: |r| <= i < |all| ==> all[i] == "")
      && (r != [] ==> r[|r| - 1] != "") && Join(all, c) == s
  {
    DroppedAre(SplitAll(s, c));
    SplitAllJoins(s, c);
  }

  // ---------------------------------------------------------------- find

  predicate MatchesAt(s: string, t: string, i: int) {
    0 <= i && i + |t| <= |s| && s[i..i + |t|] == t
  }

  /** `s.find(t)`: where `t` first occurs in `s`, or -1. */
  function Find(s: string, t: string): (r: int)
    ensures -1 <= r && (r >= 0 ==> r + |t| <= |s|)
  {
    if |t| > |s| then -1
    else if s[..|t|] == t then 0
    else
      var r := Find(s[1..], t);
      if r == -1 then -1 else r + 1
  }

  lemma MatchesShift(s: string, t: string, i: int)
    requires s != "" && i >= 1
    ensures MatchesAt(s, t, i) <==> MatchesAt(s[1..], t, i - 1)
  {
    if i + |t| <= |s| {
      var u, v := s[1..][i - 1..i - 1 + |t|], s[i..i + |t|];
      assert |u| == |v| && forall k :: 0 <= k < |u| ==> u[k] == s[i + k] == v[k];
      assert u == v;
    }
  }

  lemma {:induction false} FindFirst(s: string, t: string)
    ensures Find(s, t) == -1 || MatchesAt(s, t, Find(s, t))
    ensures forall i :: MatchesAt(s, t, i) ==> 0 <= Find(s, t) <= i
  {
    if |t| <= |s| && s[..|t|] != t {
      var r := Find(s[1..], t);
      FindFirst(s[1..], t);
      if r != -1 {
        MatchesShift(s, t, r + 1);
      }
      forall i | MatchesAt(s, t, i)
        ensures 0 <= Find(s, t) <= i
      {
        assert i != 0;
        MatchesShift(s, t, i);
      }
    }
  }

  lemma FindIs(s: string, t: string, k: nat)
    requires MatchesAt(s, t, k)
    requires forall i :: 0 <= i < k ==> !MatchesAt(s, t, i)
    ensures Find(s, t) == k
  {
    FindFirst(s, t);
  }

  predicate Contains(s: string, t: string) {
    Find(s, t) != -1
  }

  lemma ContainsIff(s: string, t: string)
    ensures Contains(s, t) <==> exists i :: MatchesAt(s, t, i)
  {
    FindFirst(s, t);
  }

  // ---------------------------------------------------------------- trim

  /** The six characters that the client's `trim` strips. */
  predicate CppSpace(c: char) {
    c == ' ' || c == '\t' || c == '\n' || c == '\r' || c == '\U{000C}' || c == '\U{000B}'
  }

  /** Java's `String.trim` strips every character up to the blank. */
  predicate JavaSpace(c: char) {
    c <= ' '
  }

  /** Java trims all characters up to code 32; C++ the six blanks of its list. */
  lemma BlanksAre(c: char)
    ensures JavaSpace(c) <==> c as int <= 32
    ensures CppSpace(c) <==> c as int in {9, 10, 11, 12, 13, 32}
  {
  }

  predicate AllSpace(s: string, ws: char -> bool) {
    forall c :: c in s ==> ws(c)
  }

  predicate Trimmed(s: string, ws: char -> bool) {
    s == "" || (!ws(s[0]) && !ws(s[|s| - 1]))
  }

  function TrimBy(s: string, ws: char -> bool): (r: string)
    ensures Trimmed(r, ws)
  {
    if s != "" && ws(s[0]) then TrimBy(s[1..], ws)
    else if s != "" && ws(s[|s| - 1]) then TrimBy(s[..|s| - 1], ws)
    else s
  }

  function Trim(s: string): string {
    TrimBy(s, CppSpace)
  }

  function JavaTrim(s: string): string {
    TrimBy(s, JavaSpace)
  }

  /** The trimmed core is found whatever blanks surround it. */
  lemma {:induction false} TrimCore(l: string, m: string, r: string, ws: char -> bool)
    requires AllSpace(l, ws) && AllSpace(r, ws) && Trimmed(m, ws)
    ensures TrimBy(l + m + r, ws) == m
    decreases |l| + |r|
  {
    var s := l + m + r;
    if l != "" {
      assert s[0] == l[0] && s[1..] == l[1..] + m + r;
      TrimCore(l[1..], m, r, ws);
    } else if r != "" {
      assert s == m + r;
      if m == "" {
        assert s[0] == r[0] && s[1..] == "" + m + r[1..];
        TrimCore("", m, r[1..], ws);
      } else {
        assert s[|s| - 1] == r[|r| - 1];
        assert s[..|s| - 1] == "" + m + r[..|r| - 1];
        TrimCore("", m, r[..|r| - 1], ws);
      }
    } else {
      assert s == m;
    }
  }

  /** Every string is its trimmed core between blanks. */
  lemma {:induction false} TrimParts(s: string, ws: char -> bool) returns (l: string, r: string)
    ensures AllSpace(l, ws) && AllSpace(r, ws)
    ensures s == l + TrimBy(s, ws) + r
  {
    if s != "" && ws(s[0]) {
      l, r := TrimParts(s[1..], ws);
      l := [s[0]] + l;
      assert s == [s[0]] + s[1..];
    } else if s != "" && ws(s[|s| - 1]) {
      l, r := TrimParts(s[..|s| - 1], ws);
      r := r + [s[|s| - 1]];
      assert s == s[..|s| - 1] + [s[|s| - 1]];
    } else {
      l, r := "", "";
      assert s == l + s + r;
    }
  }

  /** Blanks put around a string do not survive trimming. */
  lemma TrimPadded(a: string, s: string, b: string, ws: char -> bool)
    requires AllSpace(a, ws) && AllSpace(b, ws)
    ensures TrimBy(a + s + b, ws) == TrimBy(s, ws)
  {
    var l, r := TrimParts(s, ws);
    assert a + s + b == (a + l) + TrimBy(s, ws) + (r + b);
    TrimCore(a + l, TrimBy(s, ws), r + b, ws);
  }

  lemma TrimWithin(s: string, ws: char -> bool, x: char)
    requires x in TrimBy(s, ws)
    ensures x in s
  {
    var l, r := TrimParts(s, ws);
    assert s == l + TrimBy(s, ws) + r;
  }

  lemma TrimOfTrimmed(s: string, ws: char -> bool)
    requires Trimmed(s, ws)
    ensures TrimBy(s, ws) == s
  {
  }

  // ---------------------------------------------------------------- decimal

  predicate IsDigit(c: char) {
    '0' <= c <= '9'
  }

  function DigitValue(c: char): nat
    requires IsDigit(c)
  {
    c as int - '0' as int
  }

  function Digit(d: nat): (c: char)
    requires d < 10
    ensures IsDigit(c) && DigitValue(c) == d
  {
    ('0' as int + d) as char
  }

  /** `std::to_string`, and Java's `"" + n`, of a non-negative number. */
  function NatText(n: nat): (s: string)
    ensures |s| >= 1 && forall c :: c in s ==> IsDigit(c)
  {
    if n < 10 then [Digit(n)] else NatText(n / 10) + [Digit(n % 10)]
  }

  lemma DigitsTrimmed(n: nat)
    ensures JavaTrim(NatText(n)) == NatText(n) && NL !in NatText(n)
  {
    assert NatText(n)[0] in NatText(n) && NatText(n)[|NatText(n)| - 1] in NatText(n);
    TrimOfTrimmed(NatText(n), JavaSpace);
  }

  function IntText(n: int): (s: string)
    ensures |s| >= 1 && forall c :: c in s ==> IsDigit(c) || c == '-'
  {
    if n < 0 then "-" + NatText(-n) else NatText(n)
  }

  /** Value of the leading digits of `s`, after `acc` has been read. */
  function DigitsValue(s: string, acc: nat): nat {
    if s == "" || !IsDigit(s[0]) then acc else DigitsValue(s[1..], acc * 10 + DigitValue(s[0]))
  }

  lemma {:induction false} DigitsOfNat(n: nat, r: string)
    ensures DigitsValue(NatText(n) + r, 0) == DigitsValue(r, n)
  {
    if n < 10 {
      assert (NatText(n) + r)[1..] == r;
    } else {
      var d := [Digit(n % 10)];
      assert NatText(n) + r == NatText(n / 10) + (d + r);
      DigitsOfNat(n / 10, d + r);
      assert (d + r)[1..] == r;
    }
  }

  datatype NumberError = InvalidArgument | OutOfRange

  const INT_MIN: int := -0x8000_0000
  const INT_MAX: int := 0x7fff_ffff

  function SkipSpace(s: string): string {
    if s != "" && CppSpace(s[0]) then SkipSpace(s[1..]) else s
  }

  /** `std::stoi`: blanks, an optional sign, then digits; the rest is ignored. */
  function Stoi(s: string): Result<int, NumberError> {
    var t := SkipSpace(s);
    var signed := t != "" && (t[0] == '-' || t[0] == '+');
    var u := if signed then t[1..] else t;
    if u == "" || !IsDigit(u[0]) then Err(InvalidArgument)
    else
      var v: int := DigitsValue(u, 0);
      var n: int := if signed && t[0] == '-' then -v else v;
      if INT_MIN <= n <= INT_MAX then Ok(n) else Err(OutOfRange)
  }

  /** Printing a 32-bit int and reading it back is the identity. */
  lemma StoiOfIntText(n: int)
    ensures Stoi(IntText(n)) == if INT_MIN <= n <= INT_MAX then Ok(n) else Err(OutOfRange)
  {
    var m: nat := if n < 0 then -n else n;
    DigitsOfNat(m, "");
    assert NatText(m) + "" == NatText(m);
    assert IsDigit(NatText(m)[0]);
    if n < 0 {
      assert IntText(n)[1..] == NatText(m);
    }
  }

  lemma {:induction false} SkipsSpace(blanks: string, s: string)
    requires AllSpace(blanks, CppSpace) && (s == "" || !CppSpace(s[0]))
    ensures SkipSpace(blanks + s) == s
  {
    if blanks == "" {
      assert blanks + s == s;
    } else {
      assert (blanks + s)[1..] == blanks[1..] + s;
      SkipsSpace(blanks[1..], s);
    }
  }

  lemma StoiSkips(blanks: string, s: string)
    requires AllSpace(blanks, CppSpace) && (s == "" || !CppSpace(s[0]))
    ensures Stoi(blanks + s) == Stoi(s)
  {
    SkipsSpace(blanks, s);
    SkipsSpace("", s);
    assert "" + s == s;
  }

  lemma StoiSigned(n: int, rest: string)
    requires rest == "" || !IsDigit(rest[0])
    ensures IntText(n) + rest != "" && !CppSpace((IntText(n) + rest)[0])
    ensures Stoi(IntText(n) + rest) == if -2147483648 <= n <= 2147483647 then Ok(n) else Err(OutOfRange)
    ensures n >= 0 ==> Stoi("+" + (IntText(n) + rest)) == Stoi(IntText(n) + rest)
  {
    var m: nat := if n < 0 then -n else n;
    var digits, t := NatText(m) + rest, IntText(n) + rest;
    DigitsOfNat(m, rest);
    assert IsDigit(NatText(m)[0]) && digits[0] == NatText(m)[0];
    assert n < 0 ==> t[1..] == digits;
    assert ("+" + t)[1..] == t;
  }

  /** `std::stoi` reads a number after blanks, a plus sign included, and whatever follows it. */
  lemma StoiReads(blanks: string, n: int, rest: string)
    requires AllSpace(blanks, CppSpace) && (rest == "" || !IsDigit(rest[0]))
    ensures Stoi(blanks + (IntText(n) + rest)) == if -2147483648 <= n <= 2147483647 then Ok(n) else Err(OutOfRange)
    ensures n >= 0 ==> Stoi(blanks + ("+" + (IntText(n) + rest))) == Stoi(blanks + (IntText(n) + rest))
  {
    StoiSigned(n, rest);
    StoiSkips(blanks, IntText(n) + rest);
    StoiSkips(blanks, "+" + (IntText(n) + rest));
  }

  /** It throws where no number starts. */
  lemma StoiThrows(blanks: string, rest: string)
    requires AllSpace(blanks, CppSpace) && (rest == "" || (!IsDigit(rest[0]) && !CppSpace(rest[0])))
    requires rest != "" && rest[0] in {'-', '+'} ==> |rest| == 1 || !IsDigit(rest[1])
    ensures Stoi(blanks + rest) == Err(InvalidArgument)
  {
    SkipsSpace(blanks, rest);
  }

  /** Numbers look as they should: decimal, the most significant digit first. */
  lemma NumbersLook(d: nat)
    ensures d < 10 ==> NatText(d) == ["0123456789"[d]]
    ensures NatText(190) == "190" && IntText(-35) == "-35"
  {
    assert NatText(19) == NatText(1) + "9";
  }

  lemma NatTextInjective(m: nat, n: nat)
    requires NatText(m) == NatText(n)
    ensures m == n
  {
    DigitsOfNat(m, "");
    DigitsOfNat(n, "");
    assert NatText(m) + "" == NatText(m);
    assert NatText(n) + "" == NatText(n);
  }
}
