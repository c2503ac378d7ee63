/** The abstract value of a worker or request queue: a sequence without duplicates, and what the
    queue operations do to it. */
module OrderedSet {
  datatype Option<+T> = None | Some(value: T)

  predicate Distinct<T(==)>(s: seq<T>) {
    forall i, j :: 0 <= i < j < |s| ==> s[i] != s[j]
  }

  function Insert<T(==)>(s: seq<T>, x: T): seq<T> {
    if x in s then s else s + [x]
  }

  function Delete<T(==)>(s: seq<T>, x: T): seq<T> {
    if s == [] then []
    else if s[0] == x then s[1..]
    else [s[0]] + Delete(s[1..], x)
  }

  lemma {:induction false} InsertKeepsDistinct<T>(s: seq<T>, x: T)
    requires Distinct(s)
    ensures Distinct(Insert(s, x))
    ensures forall y :: y in Insert(s, x) <==> y in s || y == x
  {
    var r := Insert(s, x);
    if x !in s {
      assert r[|s|] == x;
      forall y | y in s ensures y in r {
        var i :| 0 <= i < |s| && s[i] == y;
        assert r[i] == y;
      }
    }
  }

  lemma {:induction false} DeleteKeepsDistinct<T>(s: seq<T>, x: T)
    requires Distinct(s)
    ensures Distinct(Delete(s, x))
    ensures forall y :: y in Delete(s, x) <==> y in s && y != x
  {
    if s != [] {
      var tail := s[1..];
      assert s == [s[0]] + tail;
      assert forall y :: y in s <==> y == s[0] || y in tail;
      assert forall i :: 0 <= i < |tail| ==> tail[i] == s[i + 1];
      DeleteKeepsDistinct(tail, x);
      if s[0] != x {
        var r := Delete(s, x);
        assert r == [s[0]] + Delete(tail, x);
        assert forall y :: y in r <==> y == s[0] || y in Delete(tail, x);
        assert s[0] !in Delete(tail, x);
      }
    }
  }

  /** Deleting the element at a known position closes the gap. */
  lemma {:induction false} DeleteAt<T>(s: seq<T>, i: nat)
    requires i < |s| && Distinct(s)
    ensures Delete(s, s[i]) == s[..i] + s[i + 1..]
  {
    if i > 0 {
      var tail := s[1..];
      assert tail[i - 1] == s[i];
      DeleteAt(tail, i - 1);
      assert tail[..i - 1] + tail[i..] == s[1..i] + s[i + 1..];
      assert s[..i] == [s[0]] + s[1..i];
    }
  }

  lemma {:induction false} DeleteAbsent<T>(s: seq<T>, x: T)
    requires x !in s
    ensures Delete(s, x) == s
  {
    if s != [] {
      DeleteAbsent(s[1..], x);
      assert s == [s[0]] + s[1..];
    }
  }
}
