/** The `_received_q` list and `list.remove`, which drops the first equal element. */
module ReceivedQueue {

  /** The index of the first occurrence of `x` in `s`. */
  function FirstIndex<T(==)>(s: seq<T>, x: T): (k: nat)
    requires x in s
    ensures k < |s| && s[k] == x && x !in s[..k]
  {
    if s[0] == x then 0
    else
      assert s == [s[0]] + s[1..];
      var k := FirstIndex(s[1..], x);
      assert s[..k + 1] == [s[0]] + s[1..][..k];
      k + 1
  }

  /** `s` without the first occurrence of `x`. */
  function RemoveFirst<T(==)>(s: seq<T>, x: T): seq<T> {
    if s == [] then []
    else if s[0] == x then s[1..]
    else [s[0]] + RemoveFirst(s[1..], x)
  }

  /** Removing `x` leaves `s` as it is when `x` does not occur. */
  lemma {:induction false} RemoveAbsent<T>(s: seq<T>, x: T)
    requires x !in s
    ensures RemoveFirst(s, x) == s
  {
    if s != [] {
      assert s[0] != x && x !in s[1..];
      RemoveAbsent(s[1..], x);
      assert s == [s[0]] + s[1..];
    }
  }

  /** When `x` occurs, removing it cuts out exactly the element at its first index. */
  lemma {:induction false} RemovePresent<T>(s: seq<T>, x: T)
    requires x in s
    ensures RemoveFirst(s, x) == s[..FirstIndex(s, x)] + s[FirstIndex(s, x) + 1..]
  {
    if s[0] == x {
      assert FirstIndex(s, x) == 0;
      assert s[..0] + s[1..] == s[1..];
    } else {
      var t := s[1..];
      assert s == [s[0]] + t;
      assert x in t;
      var k := FirstIndex(t, x);
      assert FirstIndex(s, x) == k + 1;
      RemovePresent(t, x);
      calc {
        RemoveFirst(s, x);
        [s[0]] + RemoveFirst(t, x);
        [s[0]] + (t[..k] + t[k + 1..]);
        ([s[0]] + t[..k]) + t[k + 1..];
        { assert [s[0]] + t[..k] == s[..k + 1]; assert t[k + 1..] == s[k + 2..]; }
        s[..k + 1] + s[k + 2..];
      }
    }
  }

  lemma {:induction false} MultisetCut<T>(a: seq<T>, x: T, b: seq<T>)
    ensures multiset(a + [x] + b) == multiset(a + b) + multiset{x}
    ensures multiset(a + [x] + b) - multiset{x} == multiset(a + b)
  {
    calc {
      multiset(a + [x] + b);
      multiset(a) + multiset([x]) + multiset(b);
      multiset(a) + multiset(b) + multiset{x};
      { assert multiset(a + b) == multiset(a) + multiset(b); }
      multiset(a + b) + multiset{x};
    }
    var m := multiset(a + b);
    assert forall y :: (m + multiset{x} - multiset{x})[y] == m[y];
  }

  /** Exactly one copy of `x` is removed when there is one, and nothing otherwise. */
  lemma {:induction false} RemoveFirstCount<T>(s: seq<T>, x: T)
    ensures x in s ==> |RemoveFirst(s, x)| == |s| - 1 &&
                       multiset(RemoveFirst(s, x)) == multiset(s) - multiset{x}
    ensures x !in s ==> multiset(RemoveFirst(s, x)) == multiset(s)
  {
    if x in s {
      var k := FirstIndex(s, x);
      var a, b := s[..k], s[k + 1..];
      assert RemoveFirst(s, x) == a + b by { RemovePresent(s, x); }
      assert s == a + [x] + b;
      MultisetCut(a, x, b);
    } else {
      RemoveAbsent(s, x);
    }
  }
}
