/** `std::string` comparison, and the order in which a `std::map` is traversed. */
module Ordering {
  import opened Wrappers

  /** `a < b` */
  predicate Less(a: string, b: string) {
    b != "" && (a == "" || a[0] < b[0] || (a[0] == b[0] && Less(a[1..], b[1..])))
  }

  /** `b` is greater at the first place where they differ, or goes on where `a` ends. */
  predicate FirstDifference(a: string, b: string, k: nat) {
    k <= |a| && k < |b| && a[..k] == b[..k] && (k == |a| || a[k] < b[k])
  }

  ghost predicate Smaller(a: string, b: string) {
    exists k: nat :: FirstDifference(a, b, k)
  }

  lemma {:induction false} LessIs(a: string, b: string)
    ensures Less(a, b) <==> Smaller(a, b)
  {
    if a == "" {
      assert b != "" ==> FirstDifference(a, b, 0);
    } else if b != "" && a[0] == b[0] {
      LessIs(a[1..], b[1..]);
      HeadApart(a);
      HeadApart(b);
      if k: nat :| FirstDifference(a[1..], b[1..], k) {
        assert a[..k + 1] == [a[0]] + a[1..][..k] && b[..k + 1] == [b[0]] + b[1..][..k];
        assert FirstDifference(a, b, k + 1);
      }
      if k: nat :| FirstDifference(a, b, k) {
        assert k > 0;
        assert a[..k][1..] == a[1..][..k - 1] && b[..k][1..] == b[1..][..k - 1];
        assert FirstDifference(a[1..], b[1..], k - 1);
      }
    } else if b != "" {
      assert a[0] < b[0] ==> FirstDifference(a, b, 0);
      forall k: nat
        ensures FirstDifference(a, b, k) ==> k == 0
      {
        assert 0 < k <= |a| && k <= |b| ==> a[..k][0] == a[0] && b[..k][0] == b[0];
      }
    }
  }

  lemma {:induction false} LessIrreflexive(a: string)
    ensures !Less(a, a)
  {
    if a != "" {
      LessIrreflexive(a[1..]);
    }
  }

  lemma {:induction false} LessTransitive(a: string, b: string, c: string)
    requires Less(a, b) && Less(b, c)
    ensures Less(a, c)
  {
    if a != "" && a[0] == b[0] == c[0] {
      LessTransitive(a[1..], b[1..], c[1..]);
    }
  }

  lemma {:induction false} LessTotal(a: string, b: string)
    ensures Less(a, b) || Less(b, a) || a == b
  {
    if a != "" && b != "" && a[0] == b[0] {
      LessTotal(a[1..], b[1..]);
      assert a == [a[0]] + a[1..] && b == [b[0]] + b[1..];
    }
  }

  predicate IsFirst(keys: set<string>, k: string) {
    k in keys && forall j :: j in keys && j != k ==> Less(k, j)
  }

  /** The key a traversal visits first. */
  method FirstOf(keys: set<string>) returns (first: string)
    requires keys != {}
    ensures IsFirst(keys, first)
  {
    first :| first in keys;
    var rest := keys - {first};
    while rest != {}
      invariant rest <= keys && first in keys && first !in rest
      invariant forall j :: j in keys && j !in rest && j != first ==> Less(first, j)
      decreases |rest|
    {
      var k :| k in rest;
      LessTotal(k, first);
      if Less(k, first) {
        forall j | j in keys && j !in rest && j != first
          ensures Less(k, j)
        {
          LessTransitive(k, first, j);
        }
        first := k;
      }
      rest := rest - {k};
    }
  }

  lemma {:induction false} FirstExists(keys: set<string>)
    requires keys != {}
    ensures exists k :: IsFirst(keys, k)
    decreases |keys|
  {
    var k :| k in keys;
    var rest := keys - {k};
    assert forall j :: j in keys && j != k ==> j in rest;
    if rest == {} {
      assert IsFirst(keys, k);
    } else {
      FirstExists(rest);
      var j :| IsFirst(rest, j);
      LessTotal(j, k);
      if Less(j, k) {
        assert IsFirst(keys, j);
      } else {
        forall i | i in keys && i != k
          ensures Less(k, i)
        {
          if i != j {
            LessTransitive(k, j, i);
          }
        }
        assert IsFirst(keys, k);
      }
    }
  }

  lemma FirstUnique(keys: set<string>, j: string, k: string)
    requires IsFirst(keys, j) && IsFirst(keys, k)
    ensures j == k
  {
    if j != k {
      LessTransitive(j, k, j);
      LessIrreflexive(j);
    }
  }

  /** The entries of a `std::map` in the order it is traversed. */
  ghost function Items(m: map<string, string>): (r: seq<(string, string)>)
    ensures |r| == |m|
  {
    if m == map[] then []
    else
      FirstExists(m.Keys);
      var k :| IsFirst(m.Keys, k);
      [(k, m[k])] + Items(m - {k})
  }

  lemma ItemsFrom(m: map<string, string>, k: string)
    requires IsFirst(m.Keys, k)
    ensures Items(m) == [(k, m[k])] + Items(m - {k})
  {
    var j :| IsFirst(m.Keys, j) && Items(m) == [(j, m[j])] + Items(m - {j});
    FirstUnique(m.Keys, j, k);
  }

  /** A traversal visits exactly the map's entries. */
  lemma {:induction false} ItemsComplete(m: map<string, string>)
    ensures forall k, v :: (k, v) in Items(m) <==> k in m && m[k] == v
  {
    if m != map[] {
      FirstExists(m.Keys);
      var k :| IsFirst(m.Keys, k);
      ItemsFrom(m, k);
      ItemsComplete(m - {k});
      forall j, v
        ensures (j, v) in Items(m) <==> j in m && m[j] == v
      {
        assert (j, v) in Items(m) <==> (j, v) == (k, m[k]) || (j, v) in Items(m - {k});
      }
    }
  }
}
