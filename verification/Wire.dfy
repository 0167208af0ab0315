/**
 The NUL-delimited byte stream between client and server: what its frames are,
 and the growing-buffer decoder that finds them one byte at a time.
 */
module Wire {
  import opened Wrappers

  const NUL: char := '\0'

  /** Bytes received since the last NUL. */
  function Rest(s: string): string {
    if s == "" || s[|s| - 1] == NUL then "" else Rest(s[..|s| - 1]) + [s[|s| - 1]]
  }

  /** Frames completed by `s`. */
  function Frames(s: string): seq<string> {
    if s == "" then []
    else
      var init := s[..|s| - 1];
      if s[|s| - 1] == NUL then Frames(init) + [Rest(init)] else Frames(init)
  }

  /** One more byte. */
  lemma NextByte(s: string, b: char)
    ensures Rest(s + [b]) == if b == NUL then "" else Rest(s) + [b]
    ensures Frames(s + [b]) == if b == NUL then Frames(s) + [Rest(s)] else Frames(s)
  {
    assert (s + [b])[..|s + [b]| - 1] == s;
  }

  /** What a decoder has made of `input`: frames, and a partial one. */
  predicate DecodedAs(partial: string, frames: seq<string>, input: string) {
    partial == Rest(input) && frames == Frames(input)
  }

  lemma DecodedNext(partial: string, frames: seq<string>, input: string, b: char)
    requires DecodedAs(partial, frames, input)
    ensures if b == NUL then DecodedAs("", frames + [partial], input + [b])
            else DecodedAs(partial + [b], frames, input + [b])
  {
    NextByte(input, b);
  }

  /** `LineMessageEncoderDecoder.encode`: the message and a NUL. */
  function Encode(m: string): string {
    m + [NUL]
  }

  function EncodeAll(ms: seq<string>): string {
    if ms == [] then "" else Encode(ms[0]) + EncodeAll(ms[1..])
  }

  predicate NulFree(ms: seq<string>) {
    forall m :: m in ms ==> NUL !in m
  }

  lemma {:induction false} EncodeAllAppend(a: seq<string>, b: seq<string>)
    ensures EncodeAll(a + b) == EncodeAll(a) + EncodeAll(b)
  {
    if a == [] {
      assert a + b == b;
    } else {
      assert (a + b)[1..] == a[1..] + b;
      EncodeAllAppend(a[1..], b);
    }
  }

  lemma EncodeAllSnoc(a: seq<string>, m: string)
    ensures EncodeAll(a + [m]) == EncodeAll(a) + Encode(m)
  {
    EncodeAllAppend(a, [m]);
    assert EncodeAll([m]) == Encode(m) + EncodeAll([][..]) == Encode(m);
  }

  /** Every stream is its frames, each closed by a NUL, and an unfinished rest. */
  lemma {:induction false} FramesAndRest(s: string)
    ensures s == EncodeAll(Frames(s)) + Rest(s)
    ensures NulFree(Frames(s)) && NUL !in Rest(s)
  {
    if s != "" {
      var init := s[..|s| - 1];
      FramesAndRest(init);
      if s[|s| - 1] == NUL {
        EncodeAllSnoc(Frames(init), Rest(init));
      }
      assert s == init + [s[|s| - 1]];
    }
  }

  lemma {:induction false} FramesOfTail(s: string, r: string)
    requires NUL !in r
    ensures Frames(s + r) == Frames(s) && Rest(s + r) == Rest(s) + r
  {
    if r == "" {
      assert s + r == s;
    } else {
      var init := r[..|r| - 1];
      assert (s + r)[..|s + r| - 1] == s + init;
      FramesOfTail(s, init);
      assert r == init + [r[|r| - 1]];
    }
  }

  lemma FramesOfFrame(s: string, m: string)
    requires NUL !in m
    ensures Frames(s + Encode(m)) == Frames(s) + [Rest(s) + m] && Rest(s + Encode(m)) == ""
  {
    assert (s + Encode(m))[..|s + Encode(m)| - 1] == s + m;
    FramesOfTail(s, m);
  }

  /** That cut is unique: whoever encodes `ms` is read as having sent `ms`. */
  lemma {:induction false} FramesUnique(ms: seq<string>, r: string)
    requires NulFree(ms) && NUL !in r
    ensures Frames(EncodeAll(ms) + r) == ms && Rest(EncodeAll(ms) + r) == r
  {
    if ms == [] {
      assert EncodeAll(ms) + r == "" + r;
      FramesOfTail("", r);
    } else {
      var init, m := ms[..|ms| - 1], ms[|ms| - 1];
      assert ms == init + [m];
      EncodeAllSnoc(init, m);
      FramesUnique(init, "");
      assert EncodeAll(init) + "" == EncodeAll(init);
      FramesOfFrame(EncodeAll(init), m);
      assert "" + m == m;
      FramesOfTail(EncodeAll(ms), r);
      assert "" + r == r;
    }
  }

  /** Reading on never takes a frame back, however the bytes are chunked. */
  lemma {:induction false} FramesGrow(s: string, t: string)
    ensures Frames(s) <= Frames(s + t)
  {
    if t == "" {
      assert s + t == s;
    } else {
      var init := t[..|t| - 1];
      assert (s + t)[..|s + t| - 1] == s + init;
      FramesGrow(s, init);
    }
  }

  // ---------------------------------------------------------------- decoder

  /** Length of the longest frame, or unfinished frame, seen so far. */
  function Longest(s: string): nat {
    if s == "" then 0
    else
      var before := Longest(s[..|s| - 1]);
      if |Rest(s)| > before then |Rest(s)| else before
  }

  lemma {:induction false} LongestBounds(s: string)
    ensures |Rest(s)| <= Longest(s)
    ensures forall m :: m in Frames(s) ==> |m| <= Longest(s)
    ensures Longest(s) == |Rest(s)| || exists m :: m in Frames(s) && Longest(s) == |m|
  {
    if s != "" {
      var init := s[..|s| - 1];
      LongestBounds(init);
      if s[|s| - 1] == NUL {
        var f := Frames(init);
        assert Frames(s) == f + [Rest(init)];
        assert Rest(init) in Frames(s);
        assert forall m :: m in Frames(s) ==> m in f || m == Rest(init);
        assert forall m :: m in f ==> m in Frames(s);
      }
    }
  }

  const FIRST_CAPACITY: nat := 1024
  const MAX_FRAME: nat := 0x4000_0000

  /** Capacities a doubled 1024-byte array can have. */
  predicate Doubled(n: nat) {
    n == FIRST_CAPACITY || (n > FIRST_CAPACITY && n % 2 == 0 && Doubled(n / 2))
  }

  /** Java's 32-bit `len * 2`. */
  function Times2(len: nat): (r: int)
    requires len <= 0x7fff_ffff
  {
    var p := len * 2 % 0x1_0000_0000;
    if p < 0x8000_0000 then p else p - 0x1_0000_0000
  }

  lemma Times2Exact(len: nat)
    requires len <= MAX_FRAME
    ensures Times2(len) == if len < MAX_FRAME then 2 * len else -0x8000_0000
  {
  }

  /** A doubled capacity below 2^31 is 2^30 or at most half of it. */
  lemma {:induction false} DoubledBelow(n: nat, top: nat)
    requires Doubled(n) && Doubled(top) && n < top
    ensures 2 * n <= top
    decreases top
  {
    if n != FIRST_CAPACITY {
      DoubledBelow(n / 2, top / 2);
    } else if top / 2 != FIRST_CAPACITY {
      DoubledBelow(n, top / 2);
    }
  }

  lemma MaxFrameDoubled()
    ensures Doubled(MAX_FRAME)
  {
    assert Doubled(0x400) && Doubled(0x800) && Doubled(0x1000) && Doubled(0x2000);
    assert Doubled(0x4000) && Doubled(0x8000) && Doubled(0x1_0000) && Doubled(0x2_0000);
    assert Doubled(0x4_0000) && Doubled(0x8_0000) && Doubled(0x10_0000) && Doubled(0x20_0000);
    assert Doubled(0x40_0000) && Doubled(0x80_0000) && Doubled(0x100_0000) && Doubled(0x200_0000);
    assert Doubled(0x400_0000) && Doubled(0x800_0000) && Doubled(0x1000_0000) && Doubled(0x2000_0000);
  }

  datatype DecodeError = NegativeArraySize

  class LineMessageEncoderDecoder {
    var bytes: array<char>
    var len: nat

    /** Every byte decoded so far, and how many of them growth has copied. */
    ghost var input: string
    ghost var copied: nat

    ghost predicate Valid()
      reads this, bytes
    {
      && len <= bytes.Length <= MAX_FRAME
      && bytes[..len] == Rest(input)
      && Doubled(bytes.Length)
      && copied == bytes.Length - FIRST_CAPACITY
      && (bytes.Length > FIRST_CAPACITY ==> bytes.Length < 2 * Longest(input))
    }

    constructor ()
      ensures Valid() && input == "" && fresh(bytes)
    {
      bytes := new char[FIRST_CAPACITY];
      len := 0;
      input := "";
      copied := 0;
    }

    /**
     All growth together copies less than twice the longest frame, finished or
     not, and nothing if no frame filled the first array.
     */
    lemma GrowthIsCheap() returns (m: string)
      requires Valid()
      ensures m in Frames(input) || m == Rest(input)
      ensures copied == bytes.Length - FIRST_CAPACITY && (copied > 0 ==> bytes.Length < 2 * |m|)
      ensures forall f :: f in Frames(input) || f == Rest(input) ==> |f| <= |m|
    {
      LongestBounds(input);
      m := Rest(input);
      if Longest(input) != |m| {
        m :| m in Frames(input) && Longest(input) == |m|;
      }
    }

    /**
     Decoding a byte yields a message exactly on a NUL, namely the bytes since
     the last one. It fails exactly when a frame outgrows 2^30 bytes, because
     the doubled array length no longer fits an int; nothing changes then.
     */
    method DecodeNextByte(nextByte: char) returns (r: Result<Option<string>, DecodeError>)
      requires Valid()
      modifies this, bytes
      ensures Valid() && (bytes == old(bytes) || fresh(bytes))
      ensures r.Err? <==> nextByte != NUL && |Rest(old(input))| == MAX_FRAME
      ensures r.Err? ==> unchanged(this) && bytes[..] == old(bytes[..])
      ensures r.Ok? ==> input == old(input) + [nextByte]
      ensures r.Ok? ==> r.value == if nextByte == NUL then Some(Rest(old(input))) else None
    {
      if nextByte == NUL {
        var m := PopString();
        return Ok(Some(m));
      }
      var e := PushByte(nextByte);
      r := if e == None then Ok(None) else Err(e.value);
    }

    method PushByte(nextByte: char) returns (e: Option<DecodeError>)
      requires Valid() && nextByte != NUL
      modifies this, bytes
      ensures Valid() && (bytes == old(bytes) || fresh(bytes))
      ensures e.Some? <==> |Rest(old(input))| == MAX_FRAME
      ensures e.Some? ==> unchanged(this) && bytes[..] == old(bytes[..])
      ensures e.None? ==> input == old(input) + [nextByte]
    {
      NextByte(input, nextByte);
      if len >= bytes.Length {
        e := Grow();
        if e.Some? {
          return;
        }
      }
      label filled:
      bytes[len] := nextByte;
      assert bytes[..len] == old@filled(bytes[..len]);
      len := len + 1;
      input := input + [nextByte];
      assert bytes[..len] == bytes[..len - 1] + [nextByte];
      return None;
    }

    /** `bytes = Arrays.copyOf(bytes, len * 2)` */
    method Grow() returns (e: Option<DecodeError>)
      requires Valid() && len == bytes.Length
      modifies this
      ensures e.Some? <==> len == MAX_FRAME
      ensures e.Some? ==> unchanged(this)
      ensures e.None? ==> unchanged(`len) && unchanged(`input) && fresh(bytes)
      ensures e.None? ==> bytes.Length == 2 * len <= MAX_FRAME && bytes[..len] == Rest(input)
      ensures e.None? ==> Doubled(bytes.Length) && copied == bytes.Length - FIRST_CAPACITY
    {
      MaxFrameDoubled();
      if len < MAX_FRAME {
        DoubledBelow(len, MAX_FRAME);
      }
      Times2Exact(len);
      var size := Times2(len);
      if size < 0 {
        return Some(NegativeArraySize);
      }
      var bigger := new char[size];
      forall i | 0 <= i < len {
        bigger[i] := bytes[i];
      }
      assert bigger[..len] == bytes[..len];
      bytes := bigger;
      copied := copied + len;
      return None;
    }

    method PopString() returns (result: string)
      requires Valid()
      modifies this
      ensures Valid() && bytes == old(bytes)
      ensures result == Rest(old(input))
      ensures input == old(input) + [NUL]
    {
      result := bytes[..len];
      len := 0;
      NextByte(input, NUL);
      assert (input + [NUL])[..|input|] == input;
      input := input + [NUL];
      assert bytes[..0] == "";
    }
  }
}
