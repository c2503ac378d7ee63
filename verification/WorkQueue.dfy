/** The de-duplicating FIFO queue of the pool: a window of a backing array plus a set of its members. */
module WorkQueue {
  import opened OrderedSet

  datatype Op<T> = Add(item: T) | Get | Remove(item: T)

  // ----- the reference: what a sequence of operations makes of an empty ordered set -----

  function Apply<T(==)>(s: seq<T>, op: Op<T>): seq<T> {
    match op
    case Add(x) => Insert(s, x)
    case Get => if s == [] then s else s[1..]
    case Remove(x) => Delete(s, x)
  }

  function ApplyAll<T(==)>(s: seq<T>, ops: seq<Op<T>>): seq<T> {
    if ops == [] then s else Apply(ApplyAll(s, ops[..|ops| - 1]), ops[|ops| - 1])
  }

  lemma ApplyKeepsDistinct<T>(s: seq<T>, op: Op<T>)
    requires Distinct(s)
    ensures Distinct(Apply(s, op))
  {
    match op
    case Add(x) => InsertKeepsDistinct(s, x);
    case Get =>
    case Remove(x) => DeleteKeepsDistinct(s, x);
  }

  lemma {:induction false} ApplyAllKeepsDistinct<T>(s: seq<T>, ops: seq<Op<T>>)
    requires Distinct(s)
    ensures Distinct(ApplyAll(s, ops))
  {
    if ops != [] {
      ApplyAllKeepsDistinct(s, ops[..|ops| - 1]);
      ApplyKeepsDistinct(ApplyAll(s, ops[..|ops| - 1]), ops[|ops| - 1]);
    }
  }

  /** The adds of `x` that were not dropped as duplicates. */
  function Accepted<T(==)>(ops: seq<Op<T>>, x: T): nat {
    if ops == [] then 0
    else
      var before := ops[..|ops| - 1];
      Accepted(before, x) + if ops[|ops| - 1] == Add(x) && x !in ApplyAll([], before) then 1 else 0
  }

  /** The times `x` was handed out by Get. */
  function HandedOut<T(==)>(ops: seq<Op<T>>, x: T): nat {
    if ops == [] then 0
    else
      var before := ops[..|ops| - 1];
      var s := ApplyAll([], before);
      HandedOut(before, x) + if ops[|ops| - 1].Get? && s != [] && s[0] == x then 1 else 0
  }

  /** The removals of `x` that found it. */
  function Removed<T(==)>(ops: seq<Op<T>>, x: T): nat {
    if ops == [] then 0
    else
      var before := ops[..|ops| - 1];
      Removed(before, x) + if ops[|ops| - 1] == Remove(x) && x in ApplyAll([], before) then 1 else 0
  }

  /** Every accepted item is in the queue, or was handed out, or was removed: never twice, never lost. */
  lemma {:induction false} Conservation<T>(ops: seq<Op<T>>, x: T)
    ensures Accepted(ops, x) == HandedOut(ops, x) + Removed(ops, x) + if x in ApplyAll([], ops) then 1 else 0
  {
    if ops != [] {
      var before := ops[..|ops| - 1];
      var s := ApplyAll([], before);
      Conservation(before, x);
      ApplyAllKeepsDistinct([], before);
      match ops[|ops| - 1]
      case Add(y) => InsertKeepsDistinct(s, y);
      case Get => if s != [] { assert s == [s[0]] + s[1..]; assert x in s <==> x == s[0] || x in s[1..]; }
      case Remove(y) => DeleteKeepsDistinct(s, y);
    }
  }

  /** The time of the last accepted add of `x`, or -1. */
  function LastAccepted<T(==)>(ops: seq<Op<T>>, x: T): int {
    if ops == [] then -1
    else
      var before := ops[..|ops| - 1];
      if ops[|ops| - 1] == Add(x) && x !in ApplyAll([], before) then |ops| - 1 else LastAccepted(before, x)
  }

  lemma {:induction false} LastAcceptedInPast<T>(ops: seq<Op<T>>, x: T)
    ensures LastAccepted(ops, x) < |ops|
  {
    if ops != [] { LastAcceptedInPast(ops[..|ops| - 1], x); }
  }

  /** The queue holds its members in the order in which they were accepted; with `Conservation` this pins the
      contents down completely. */
  lemma {:induction false} FirstInFirstOut<T>(ops: seq<Op<T>>, i: nat, j: nat)
    requires i < j < |ApplyAll([], ops)|
    ensures LastAccepted(ops, ApplyAll([], ops)[i]) < LastAccepted(ops, ApplyAll([], ops)[j])
  {
    if ops != [] {
      var before, op := ops[..|ops| - 1], ops[|ops| - 1];
      var s, r := ApplyAll([], before), ApplyAll([], ops);
      ApplyAllKeepsDistinct([], before);
      match op
      case Add(x) =>
        if x in s || j < |s| {
          FirstInFirstOut(before, i, j);
        } else {
          LastAcceptedInPast(before, r[i]);
        }
      case Get => FirstInFirstOut(before, i + 1, j + 1);
      case Remove(x) =>
        var i', j' := SurvivorsKeepOrder(s, x, i, j);
        FirstInFirstOut(before, i', j');
    }
  }

  /** Two items that survive a removal were there before, in the same order. */
  lemma SurvivorsKeepOrder<T>(s: seq<T>, x: T, i: nat, j: nat) returns (i': nat, j': nat)
    requires Distinct(s) && i < j < |Delete(s, x)|
    ensures i' < j' < |s| && Delete(s, x)[i] == s[i'] && Delete(s, x)[j] == s[j']
  {
    if x in s {
      var k :| 0 <= k < |s| && s[k] == x;
      DeleteAt(s, k);
      i', j' := if i < k then i else i + 1, if j < k then j else j + 1;
    } else {
      DeleteAbsent(s, x);
      i', j' := i, j;
    }
  }

  // ----- the implementation -----

  ghost function Values<T>(slots: seq<Option<T>>): (s: seq<T>)
    requires forall i :: 0 <= i < |slots| ==> slots[i].Some?
    ensures |s| == |slots| && forall i :: 0 <= i < |s| ==> s[i] == slots[i].value
  {
    seq(|slots|, i requires 0 <= i < |slots| => slots[i].value)
  }

  /** What is left in the window once its tail has moved one slot down. */
  lemma GapClosed<T>(before: seq<Option<T>>, now: seq<Option<T>>, start: nat, len: nat, idx: nat)
    requires |now| == |before| && start + len < |before| && idx <= len
    requires forall a :: start <= a <= start + len ==> before[a].Some?
    requires forall a :: start <= a < start + len ==> now[a] == before[if a < start + idx then a else a + 1]
    ensures forall a :: start <= a < start + len ==> now[a].Some?
    ensures var was := Values(before[start..start + len + 1]);
            Values(now[start..start + len]) == was[..idx] + was[idx + 1..]
  {
    forall a | start <= a < start + len ensures now[a].Some? {
      assert before[if a < start + idx then a else a + 1].Some?;
    }
    var was := Values(before[start..start + len + 1]);
    var left := Values(now[start..start + len]);
    forall j | 0 <= j < len ensures left[j] == (was[..idx] + was[idx + 1..])[j] {
      assert left[j] == now[start + j].value;
    }
  }

  class Queue<T(==, !new)> {
    var data: array<Option<T>>  // the backing array; a slot whose item was handed out is None
    var start: nat              // the slice is data[start..start + len]
    var len: nat
    var dirty: set<T>

    ghost predicate Shaped()
      reads this, data
    {
      start + len <= data.Length && forall i :: start <= i < start + len ==> data[i].Some?
    }

    ghost function Contents(): seq<T>
      requires Shaped()
      reads this, data
    {
      Values(data[start..start + len])
    }

    ghost predicate Valid()
      reads this, data
    {
      Shaped() && Distinct(Contents()) && forall x :: x in dirty <==> x in Contents()
    }

    constructor ()
      ensures Valid() && Contents() == [] && fresh(data)
    {
      data := new Option<T>[0];
      start, len, dirty := 0, 0, {};
    }

    method Add(item: T)
      requires Valid()
      modifies this, data
      ensures Valid() && Contents() == Insert(old(Contents()), item)
      ensures data == old(data) || fresh(data)
    {
      if item in dirty { return; }
      InsertKeepsDistinct(Contents(), item);
      if start + len == data.Length { Grow(); }
      dirty := dirty + {item};
      data[start + len] := Some(item);
      len := len + 1;
      assert Contents() == old(Contents()) + [item];
    }

    /** What append does when the slice has reached the end of its array: it moves to a larger one. */
    method Grow()
      requires Valid()
      modifies this
      ensures Valid() && Contents() == old(Contents()) && dirty == old(dirty) && len == old(len)
      ensures fresh(data) && start + len < data.Length
    {
      var larger: array<Option<T>> := new Option<T>[2 * len + 1](_ => None);
      var i := 0;
      while i < len
        invariant 0 <= i <= len && larger.Length == 2 * len + 1
        invariant forall j :: 0 <= j < i ==> larger[j] == data[start + j]
        modifies larger
      {
        larger[i] := data[start + i];
        i := i + 1;
      }
      ghost var was := Contents();
      data, start := larger, 0;
      assert Contents() == was;
    }

    method Len() returns (n: nat)
      requires Valid()
      ensures n == |Contents()|
    {
      n := len;
    }

    method Has(item: T) returns (b: bool)
      requires Valid()
      ensures b <==> item in Contents()
    {
      b := item in dirty;
    }

    /** The oldest item, or None when the queue is empty. */
    method Get() returns (item: Option<T>)
      requires Valid()
      modifies this, data
      ensures Valid() && data == old(data)
      ensures item == if old(Contents()) == [] then None else Some(old(Contents())[0])
      ensures Contents() == Apply(old(Contents()), Op.Get)
    {
      if len == 0 { return None; }
      item := data[start];
      data[start] := None;
      start, len := start + 1, len - 1;
      dirty := dirty - {item.value};
      ghost var was := old(Contents());
      assert Contents() == was[1..];
      assert was == [was[0]] + was[1..];
    }

    method Remove(item: T)
      requires Valid()
      modifies this, data
      ensures Valid() && data == old(data)
      ensures Contents() == Delete(old(Contents()), item)
    {
      ghost var was := Contents();
      if len == 0 || item !in dirty {
        DeleteAbsent(was, item);
        return;
      }
      var idx := IndexOf(item);
      DeleteAt(was, idx);
      DeleteKeepsDistinct(was, item);
      CloseGap(idx);
      dirty := dirty - {item};
    }

    /** The position of a queued item. */
    method IndexOf(item: T) returns (idx: nat)
      requires Valid() && item in dirty
      ensures idx < len && Contents()[idx] == item
    {
      ghost var was := Contents();
      idx := 0;
      while data[start + idx] != Some(item)
        invariant 0 <= idx < len
        invariant forall j :: 0 <= j < idx ==> was[j] != item
        decreases len - idx
      {
        assert was[idx] != item;
        idx := idx + 1;
      }
    }

    /** append(queue[:idx], queue[idx+1:]...): the tail moves one slot down in the same array. */
    method CloseGap(idx: nat)
      requires Shaped() && idx < len
      modifies data, this`len
      ensures Shaped() && len == old(len) - 1 && data == old(data)
      ensures Contents() == old(Contents())[..idx] + old(Contents())[idx + 1..]
    {
      ghost var was, slots := Contents(), data[..];
      var i := idx;
      while i + 1 < len
        invariant idx <= i < len == old(len)
        invariant forall a :: 0 <= a < data.Length ==>
                    data[a] == slots[if start + idx <= a < start + i then a + 1 else a]
      {
        data[start + i] := data[start + i + 1];
        i := i + 1;
      }
      len := len - 1;
      GapClosed(slots, data[..], start, len, idx);
      assert Contents() == was[..idx] + was[idx + 1..];
    }

    /** A copy of the contents in an array of its own. */
    method All() returns (items: array<T>)
      requires Valid()
      ensures fresh(items) && items[..] == Contents()
    {
      var copied: seq<T> := [];
      var i := 0;
      while i < len
        invariant 0 <= i <= len && copied == Contents()[..i]
      {
        copied := copied + [data[start + i].value];
        i := i + 1;
      }
      items := new T[len](j requires 0 <= j < |copied| => copied[j]);
      assert items[..] == copied == Contents();
    }
  }

  /** Any sequence of operations on the implementation does what it does on the ordered set, and leaves every array
      that the queue does not own as it was. */
  method Execute<T(==, !new)>(q: Queue<T>, ops: seq<Op<T>>)
    requires q.Valid()
    modifies q, q.data
    ensures q.Valid() && q.Contents() == ApplyAll(old(q.Contents()), ops)
    ensures q.data == old(q.data) || fresh(q.data)
  {
    var i := 0;
    ghost var was := q.Contents();
    while i < |ops|
      invariant 0 <= i <= |ops| && q.Valid() && q.Contents() == ApplyAll(was, ops[..i])
      invariant q.data == old(q.data) || fresh(q.data)
    {
      match ops[i] {
        case Add(x) => q.Add(x);
        case Get => var _ := q.Get();
        case Remove(x) => q.Remove(x);
      }
      assert ops[..i + 1][..i] == ops[..i];
      i := i + 1;
    }
    assert ops[..|ops|] == ops;
  }

  /** A snapshot taken by All is never changed by later operations. */
  method SnapshotIsStable<T(==, !new)>(q: Queue<T>, ops: seq<Op<T>>) returns (items: array<T>)
    requires q.Valid()
    modifies q, q.data
    ensures items[..] == old(q.Contents()) && q.Valid() && q.Contents() == ApplyAll(old(q.Contents()), ops)
  {
    items := q.All();
    Execute(q, ops);
  }
}
