/** Generic helpers shared by every screen: an optional value and the
    order-keeping `Array.prototype.filter` over sequences. */
module Util {

  datatype Option<T> = None | Some(value: T)

  /** `s.filter(p)` */
  function Filter<T>(s: seq<T>, p: T -> bool): (r: seq<T>)
    ensures |r| <= |s|
    ensures forall i :: 0 <= i < |r| ==> p(r[i])
  {
    if s == [] then []
    else if p(s[0]) then [s[0]] + Filter(s[1..], p)
    else Filter(s[1..], p)
  }

  /** An element survives the filter exactly when it was in the list and
      passes the test. */
  lemma {:induction false} FilterMembership<T>(s: seq<T>, p: T -> bool, x: T)
    ensures x in Filter(s, p) <==> x in s && p(x)
  {
    if s != [] {
      FilterMembership(s[1..], p, x);
      assert s == [s[0]] + s[1..];
    }
  }

  /** Filtering distributes over concatenation: the kept elements stay in
      the order they had. */
  lemma {:induction false} FilterConcat<T>(a: seq<T>, b: seq<T>, p: T -> bool)
    ensures Filter(a + b, p) == Filter(a, p) + Filter(b, p)
  {
    if a == [] {
      assert a + b == b;
    } else {
      assert (a + b)[0] == a[0];
      assert (a + b)[1..] == a[1..] + b;
      FilterConcat(a[1..], b, p);
    }
  }

  /** A filter that keeps every element returns the list unchanged. */
  lemma {:induction false} FilterAll<T>(s: seq<T>, p: T -> bool)
    requires forall i :: 0 <= i < |s| ==> p(s[i])
    ensures Filter(s, p) == s
  {
    if s != [] {
      FilterAll(s[1..], p);
    }
  }

  /** A filter that keeps nothing returns the empty list. */
  lemma {:induction false} FilterNone<T>(s: seq<T>, p: T -> bool)
    requires forall i :: 0 <= i < |s| ==> !p(s[i])
    ensures Filter(s, p) == []
  {
    if s != [] {
      FilterNone(s[1..], p);
    }
  }

  /** Filtering keeps a middle part alone when every element of it passes
      and no element around it does. */
  lemma FilterMiddle<T>(pre: seq<T>, mid: seq<T>, post: seq<T>, p: T -> bool)
    requires forall x :: x in pre ==> !p(x)
    requires forall x :: x in mid ==> p(x)
    requires forall x :: x in post ==> !p(x)
    ensures Filter(pre + mid + post, p) == mid
  {
    FilterConcat(pre + mid, post, p);
    FilterConcat(pre, mid, p);
    FilterNone(pre, p);
    FilterAll(mid, p);
    FilterNone(post, p);
  }

  /** Six parts concatenated in two groupings give the same sequence. */
  lemma Regroup<T>(h: seq<T>, s: seq<T>, b: seq<T>, t: seq<T>, o: seq<T>, u: seq<T>)
    ensures h + (s + b) + (t + o) + u == h + s + b + t + o + u
  {
  }

  /** Appending one element to a list and then filtering is the same as
      filtering and then appending it when it passes. */
  lemma FilterSnoc<T>(s: seq<T>, x: T, p: T -> bool)
    ensures Filter(s + [x], p) == Filter(s, p) + (if p(x) then [x] else [])
  {
    FilterConcat(s, [x], p);
  }

  /** `s.map(f)` */
  function Map<T, U>(s: seq<T>, f: T -> U): (r: seq<U>)
    ensures |r| == |s| && forall i :: 0 <= i < |s| ==> r[i] == f(s[i])
  {
    seq(|s|, i requires 0 <= i < |s| => f(s[i]))
  }
}
