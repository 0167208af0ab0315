/** Outcomes shared by the other modules. */
module Wrappers {

  /** A Java reference that may be null, or a value that may be absent. */
  datatype Option<+T> = None | Some(value: T)

  /** A call that returns a value or ends in an exception. */
  datatype Result<+T, +E> = Ok(value: T) | Err(error: E)

  lemma AppendAssoc<T>(a: seq<T>, b: seq<T>, c: seq<T>)
    ensures (a + b) + c == a + (b + c)
  {
  }

  lemma Behind<T>(a: seq<T>, b: seq<T>)
    ensures (a + b)[|a|..|a| + |b|] == b
  {
  }

  lemma TakeMore<T>(s: seq<T>, i: nat)
    requires i < |s|
    ensures s[..i + 1] == s[..i] + [s[i]]
  {
  }

  lemma ConsAt<T>(s: seq<T>, x: T, r: seq<T>, i: nat)
    requires s == [x] + r && 0 < i < |s|
    ensures s[i] == r[i - 1]
  {
  }

  lemma HeadApart<T>(s: seq<T>)
    requires s != []
    ensures s == [s[0]] + s[1..]
  {
  }

  lemma LastApart<T>(s: seq<T>)
    requires s != []
    ensures s == s[..|s| - 1] + [s[|s| - 1]]
  {
  }
}
