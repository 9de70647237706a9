/** Shared vocabulary: optional values and the array helpers the screens use
    (`filter`, `filter(...).length`, `slice`). */
module Base {

  /** JavaScript's `undefined`/`null` versus a present value. */
  datatype Option<T> = None | Some(value: T) {
    /** `x ?? d` / `x || d` for a value whose only falsy form is its absence. */
    function GetOr(d: T): T {
      match this
      case Some(v) => v
      case None => d
    }
  }

  /** `a` occurs in `b` in the same order, possibly with gaps. */
  predicate IsSubsequence<T(==)>(a: seq<T>, b: seq<T>)
    decreases |b|
  {
    a == [] || (b != [] && ((a[0] == b[0] && IsSubsequence(a[1..], b[1..])) || IsSubsequence(a, b[1..])))
  }

  /** `Array.prototype.filter`: keeps, in order, the elements that satisfy `p`. */
  function Filter<T(==)>(s: seq<T>, p: T -> bool): (r: seq<T>)
    ensures |r| <= |s|
    ensures forall i :: 0 <= i < |r| ==> r[i] in s && p(r[i])
    ensures forall i :: 0 <= i < |s| && p(s[i]) ==> s[i] in r
    ensures IsSubsequence(r, s)
    ensures (forall i :: 0 <= i < |s| ==> p(s[i])) ==> r == s
    ensures (exists i :: 0 <= i < |s| && !p(s[i])) ==> |r| < |s|
  {
    if s == [] then []
    else if p(s[0]) then [s[0]] + Filter(s[1..], p)
    else Filter(s[1..], p)
  }

  /** Filtering a concatenation filters each part. */
  lemma {:induction false} FilterAppend<T>(a: seq<T>, b: seq<T>, p: T -> bool)
    ensures Filter(a + b, p) == Filter(a, p) + Filter(b, p)
  {
    if a == [] {
      assert a + b == b;
    } else {
      assert (a + b)[0] == a[0];
      assert (a + b)[1..] == a[1..] + b;
      FilterAppend(a[1..], b, p);
    }
  }

  /** `s.filter(p).length`. */
  function Count<T(==)>(s: seq<T>, p: T -> bool): nat {
    |Filter(s, p)|
  }

  /** No element occurs twice. */
  predicate NoDup<T(==)>(s: seq<T>) {
    forall i, j :: 0 <= i < j < |s| ==> s[i] != s[j]
  }

  /** Filtering a duplicate-free sequence leaves it duplicate-free. */
  lemma {:induction false} FilterNoDup<T>(s: seq<T>, p: T -> bool)
    requires NoDup(s)
    ensures NoDup(Filter(s, p))
  {
    if s != [] {
      assert NoDup(s[1..]) by {
        forall i, j | 0 <= i < j < |s[1..]| ensures s[1..][i] != s[1..][j] {
          assert s[1..][i] == s[i + 1] && s[1..][j] == s[j + 1];
        }
      }
      FilterNoDup(s[1..], p);
      if p(s[0]) {
        var r := Filter(s[1..], p);
        assert s[0] !in s[1..] by {
          forall k | 0 <= k < |s[1..]| ensures s[1..][k] != s[0] {
            assert s[1..][k] == s[k + 1];
          }
        }
        assert s[0] !in r;
        var t := [s[0]] + r;
        forall i, j | 0 <= i < j < |t| ensures t[i] != t[j] {
          if i == 0 {
            assert t[j] == r[j - 1];
            assert t[j] in r;
          } else {
            assert t[i] == r[i - 1] && t[j] == r[j - 1];
          }
        }
      }
    }
  }

  /** A duplicate-free sequence has as many distinct elements as entries. */
  lemma {:induction false} NoDupCardinality<T>(s: seq<T>)
    requires NoDup(s)
    ensures |set x | x in s| == |s|
  {
    if s != [] {
      var tail := s[1..];
      assert NoDup(tail) by {
        forall i, j | 0 <= i < j < |tail| ensures tail[i] != tail[j] {
          assert tail[i] == s[i + 1] && tail[j] == s[j + 1];
        }
      }
      NoDupCardinality(tail);
      assert s[0] !in tail by {
        forall k | 0 <= k < |tail| ensures tail[k] != s[0] {
          assert tail[k] == s[k + 1];
        }
      }
      assert (set x | x in s) == (set x | x in tail) + {s[0]} by {
        assert s == [s[0]] + tail;
      }
    }
  }
}
