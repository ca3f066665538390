/** `Array.prototype.filter` over sequences, the building block of every delete in the app. */
module Seqs {

  /** The elements of `s` that satisfy `keep`, in their original order. */
  function Filter<T>(s: seq<T>, keep: T -> bool): seq<T> {
    if s == [] then [] else (if keep(s[0]) then [s[0]] else []) + Filter(s[1..], keep)
  }

  /** The filtered sequence is no longer than the original and holds only elements of it that pass. */
  lemma {:induction false} FilterSound<T>(s: seq<T>, keep: T -> bool)
    ensures |Filter(s, keep)| <= |s|
    ensures forall k :: 0 <= k < |Filter(s, keep)| ==> Filter(s, keep)[k] in s && keep(Filter(s, keep)[k])
    decreases |s|
  {
    if s != [] {
      FilterSound(s[1..], keep);
      var head := if keep(s[0]) then [s[0]] else [];
      var r := Filter(s, keep);
      assert r == head + Filter(s[1..], keep);
      forall k | 0 <= k < |r| ensures r[k] in s && keep(r[k]) {
        if k >= |head| {
          assert r[k] == Filter(s[1..], keep)[k - |head|];
        }
      }
    }
  }

  /** Every element that passes is in the filtered sequence. */
  lemma {:induction false} FilterComplete<T>(s: seq<T>, keep: T -> bool)
    ensures forall k :: 0 <= k < |s| && keep(s[k]) ==> s[k] in Filter(s, keep)
    decreases |s|
  {
    if s != [] {
      FilterComplete(s[1..], keep);
      var r := Filter(s, keep);
      forall k | 0 <= k < |s| && keep(s[k]) ensures s[k] in r {
        if k > 0 {
          assert s[k] == s[1..][k - 1];
        }
      }
    }
  }

  /** When every element passes, filtering changes nothing. */
  lemma {:induction false} FilterAll<T>(s: seq<T>, keep: T -> bool)
    requires forall k :: 0 <= k < |s| ==> keep(s[k])
    ensures Filter(s, keep) == s
    decreases |s|
  {
    if s != [] {
      forall k | 0 <= k < |s[1..]| ensures keep(s[1..][k]) {
        assert s[1..][k] == s[k + 1];
      }
      FilterAll(s[1..], keep);
      assert s == [s[0]] + s[1..];
    }
  }

  /** Filtering distributes over concatenation, so the kept elements stay in order. */
  lemma {:induction false} FilterConcat<T>(a: seq<T>, b: seq<T>, keep: T -> bool)
    ensures Filter(a + b, keep) == Filter(a, keep) + Filter(b, keep)
    decreases |a|
  {
    if a == [] {
      assert a + b == b;
    } else {
      var h := if keep(a[0]) then [a[0]] else [];
      assert (a + b)[0] == a[0];
      assert (a + b)[1..] == a[1..] + b;
      assert Filter(a + b, keep) == h + Filter(a[1..] + b, keep);
      FilterConcat(a[1..], b, keep);
      assert h + (Filter(a[1..], keep) + Filter(b, keep)) == (h + Filter(a[1..], keep)) + Filter(b, keep);
    }
  }

  /** Every kept value occurs as often as before; every dropped value is gone. */
  lemma {:induction false} FilterCounts<T>(s: seq<T>, keep: T -> bool, x: T)
    ensures multiset(Filter(s, keep))[x] == if keep(x) then multiset(s)[x] else 0
    decreases |s|
  {
    if s != [] {
      assert s == [s[0]] + s[1..];
      FilterCounts(s[1..], keep, x);
    }
  }

  /** Filtering out one dropped element between two runs that are kept whole cuts it out. */
  lemma FilterCutOne<T>(pre: seq<T>, x: T, post: seq<T>, keep: T -> bool)
    requires forall k :: 0 <= k < |pre| ==> keep(pre[k])
    requires forall k :: 0 <= k < |post| ==> keep(post[k])
    requires !keep(x)
    ensures Filter(pre + [x] + post, keep) == pre + post
  {
    FilterAll(pre, keep);
    FilterAll(post, keep);
    assert Filter([x], keep) == [] by {
      assert [x][1..] == [];
    }
    FilterConcat(pre, [x], keep);
    assert Filter(pre + [x], keep) == pre;
    FilterConcat(pre + [x], post, keep);
  }
}
