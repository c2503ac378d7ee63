/** The shared route tables: the paths of one Ingress and the routes of one VirtualService.  Both are lists that are
    searched, overwritten in place, extended and filtered, and both have to agree with a finite map from path to
    service. */
module RouteTable {
  import opened OrderedSet

  // ----- the reference -----

  type Routes = map<string, string>

  /** What one call asks for; a call whose API write fails changes nothing. */
  datatype Op = Put(path: string, service: string, ok: bool) | Drop(path: string, ok: bool)

  function Apply(m: Routes, op: Op): Routes {
    match op
    case Put(path, service, ok) => if ok then m[path := service] else m
    case Drop(path, ok) => if ok then m - {path} else m
  }

  function ApplyAll(ops: seq<Op>): Routes {
    if ops == [] then map[] else Apply(ApplyAll(ops[..|ops| - 1]), ops[|ops| - 1])
  }

  /** After `ops`, the last successful call about `path` was the one that set it to `service`. */
  ghost predicate LastSet(ops: seq<Op>, path: string, service: string) {
    exists i :: 0 <= i < |ops| && ops[i] == Put(path, service, true)
                && forall j :: i < j < |ops| && ops[j].ok ==> ops[j].path != path
  }

  /** The map after any sequence of calls holds exactly what the last successful call about each path left there. */
  lemma {:induction false} LastCallWins(ops: seq<Op>, path: string, service: string)
    ensures path in ApplyAll(ops) && ApplyAll(ops)[path] == service <==> LastSet(ops, path, service)
  {
    if ops != [] {
      LastCallWins(ops[..|ops| - 1], path, service);
      LastSetStep(ops[..|ops| - 1], ops[|ops| - 1], path, service);
      assert ops == ops[..|ops| - 1] + [ops[|ops| - 1]];
    }
  }

  lemma LastSetStep(front: seq<Op>, last: Op, path: string, service: string)
    ensures LastSet(front + [last], path, service)
            <==> last == Put(path, service, true)
                 || (LastSet(front, path, service) && !(last.ok && last.path == path))
  {
    var ops := front + [last];
    assert ops[|front|] == last;
    if LastSet(front, path, service) && !(last.ok && last.path == path) {
      var i :| 0 <= i < |front| && front[i] == Put(path, service, true)
               && forall j :: i < j < |front| && front[j].ok ==> front[j].path != path;
      assert ops[i] == Put(path, service, true);
    }
    if LastSet(ops, path, service) && last != Put(path, service, true) {
      var i :| 0 <= i < |ops| && ops[i] == Put(path, service, true)
               && forall j :: i < j < |ops| && ops[j].ok ==> ops[j].path != path;
      assert front[i] == Put(path, service, true);
      assert forall j :: i < j < |front| ==> front[j] == ops[j];
    }
  }

  // ----- lists of entries -----

  datatype Entry = Entry(path: string, service: string)

  predicate DistinctPaths(s: seq<Entry>) {
    forall i, j :: 0 <= i < j < |s| ==> s[i].path != s[j].path
  }

  function PathsOf(s: seq<Entry>): set<string> { set i | 0 <= i < |s| :: s[i].path }

  /** The list read as a map. */
  ghost predicate Represents(s: seq<Entry>, m: Routes) {
    && DistinctPaths(s) && PathsOf(s) == m.Keys
    && forall i :: 0 <= i < |s| ==> s[i].path in m && m[s[i].path] == s[i].service
  }

  /** Every entry for `path` gets the new service; without one, a new entry is appended. */
  function Upserted(s: seq<Entry>, path: string, service: string): seq<Entry> {
    var t := seq(|s|, i requires 0 <= i < |s| => if s[i].path == path then Entry(path, service) else s[i]);
    if exists i :: 0 <= i < |s| && s[i].path == path then t else t + [Entry(path, service)]
  }

  function Filtered(s: seq<Entry>, path: string): seq<Entry> {
    if s == [] then []
    else Filtered(s[..|s| - 1], path) + if s[|s| - 1].path != path then [s[|s| - 1]] else []
  }

  /** The order of the other entries is kept and they are not touched. */
  lemma UpsertedRepresents(s: seq<Entry>, m: Routes, path: string, service: string)
    requires Represents(s, m)
    ensures Represents(Upserted(s, path, service), m[path := service])
    ensures Upserted(s, path, service) != []
    ensures forall i :: 0 <= i < |s| && s[i].path != path ==> Upserted(s, path, service)[i] == s[i]
  {
    var t := Upserted(s, path, service);
    assert forall i :: 0 <= i < |s| ==> t[i].path == s[i].path;
    forall p ensures p in PathsOf(t) <==> p in m[path := service] {
      if p in PathsOf(s) { var i :| 0 <= i < |s| && s[i].path == p; assert t[i].path == p; }
      if p == path && p !in PathsOf(s) { assert t[|s|].path == path; }
    }
    assert PathsOf(t) == m[path := service].Keys;
  }

  lemma {:induction false} FilteredIs(s: seq<Entry>, path: string)
    ensures forall e :: e in Filtered(s, path) <==> e in s && e.path != path
    ensures DistinctPaths(s) ==> DistinctPaths(Filtered(s, path))
  {
    if s != [] {
      var front, last := s[..|s| - 1], s[|s| - 1];
      FilteredIs(front, path);
      assert s == front + [last];
      assert forall e :: e in s <==> e in front || e == last;
      assert DistinctPaths(s) ==> forall e :: e in front ==> e.path != last.path;
    }
  }

  /** The entries that stay keep their order. */
  lemma {:induction false} FilteredKeepsOrder(s: seq<Entry>, path: string, i: nat, j: nat) returns (i': nat, j': nat)
    requires i < j < |Filtered(s, path)|
    ensures i' < j' < |s| && s[i'] == Filtered(s, path)[i] && s[j'] == Filtered(s, path)[j]
  {
    var front, last := s[..|s| - 1], s[|s| - 1];
    var kept := Filtered(front, path);
    if j < |kept| {
      i', j' := FilteredKeepsOrder(front, path, i, j);
    } else {
      FilteredIs(front, path);
      assert kept[i] in kept && kept[i] in front;
      i' :| 0 <= i' < |front| && front[i'] == kept[i];
      j' := |front|;
    }
  }

  lemma FilteredRepresents(s: seq<Entry>, m: Routes, path: string)
    requires Represents(s, m)
    ensures Represents(Filtered(s, path), m - {path})
  {
    FilteredIs(s, path);
    var t := Filtered(s, path);
    forall p ensures p in PathsOf(t) <==> p in m - {path} {
      if p in m && p != path {
        var i :| 0 <= i < |s| && s[i].path == p;
        assert s[i] in t;
      }
    }
    assert PathsOf(t) == (m - {path}).Keys;
  }

  // ----- Ingress -----

  /** The paths of every rule; the controller works on the first rule. */
  type IngressSpec = seq<seq<Entry>>

  /** The Ingress as it stands in the API server, and what it means. */
  ghost predicate IngressIs(t: Option<IngressSpec>, m: Routes) {
    if t.None? then m == map[] else |t.value| == 1 && t.value[0] != [] && Represents(t.value[0], m)
  }

  class IngressTable {
    var stored: Option<IngressSpec>   // None: there is no such object

    constructor ()
      ensures stored == None
    {
      stored := None;
    }

    /** CreateIngressForCloudshell: create the object with one path, or overwrite and extend the paths of the object
        that is there. */
    method CreateIngress(path: string, service: string, ok: bool, ghost m: Routes)
      requires IngressIs(stored, m)
      modifies this
      ensures IngressIs(stored, if ok then m[path := service] else m)
    {
      if stored.None? {
        var only := [Entry(path, service)];
        UpsertedRepresents([], m, path, service);
        assert Upserted([], path, service) == only;
        if ok { stored := Some([only]); }
        return;
      }
      var paths := stored.value[0];
      UpsertedRepresents(paths, m, path, service);
      paths := UpsertPaths(paths, path, service);
      if ok { stored := Some(stored.value[0 := paths]); }
    }

    /** removeCloudshellRoute, Ingress case: filter the paths; an Ingress without paths is deleted. */
    method RemovePath(path: string, ok: bool, ghost m: Routes)
      requires IngressIs(stored, m)
      modifies this
      ensures IngressIs(stored, if ok then m - {path} else m)
    {
      if stored.None? { return; }
      var paths := stored.value[0];
      FilteredRepresents(paths, m, path);
      paths := FilterPaths(paths, path);
      if !ok { return; }
      if |paths| == 0 {
        assert m - {path} == map[] by { EmptyList(m - {path}); }
        stored := None;
      } else {
        stored := Some(stored.value[0 := paths]);
      }
    }
  }

  lemma EmptyList(m: Routes)
    requires Represents([], m)
    ensures m == map[]
  {}

  method UpsertPaths(paths: seq<Entry>, path: string, service: string) returns (r: seq<Entry>)
    ensures r == Upserted(paths, path, service)
  {
    r := paths;
    var found := false;
    var i := 0;
    while i < |r|
      invariant 0 <= i <= |r| == |paths|
      invariant found <==> exists j :: 0 <= j < i && paths[j].path == path
      invariant forall j :: 0 <= j < i ==> r[j] == if paths[j].path == path then Entry(path, service) else paths[j]
      invariant forall j :: i <= j < |r| ==> r[j] == paths[j]
    {
      if path == r[i].path {
        r := r[i := r[i].(service := service)];
        found := true;
      }
      i := i + 1;
    }
    if !found { r := r + [Entry(path, service)]; }
  }

  method FilterPaths(paths: seq<Entry>, path: string) returns (r: seq<Entry>)
    ensures r == Filtered(paths, path)
  {
    r := [];
    var i := 0;
    while i < |paths|
      invariant 0 <= i <= |paths| && r == Filtered(paths[..i], path)
    {
      assert paths[..i + 1][..i] == paths[..i];
      if path != paths[i].path { r := r + [paths[i]]; }
      i := i + 1;
    }
    assert paths[..|paths|] == paths;
  }

  /** Read off a list that represents the map of a sequence of calls. */
  lemma RepresentedEntries(s: seq<Entry>, ops: seq<Op>)
    requires Represents(s, ApplyAll(ops))
    ensures forall path, service :: Entry(path, service) in s <==> LastSet(ops, path, service)
    ensures forall i, j :: 0 <= i < j < |s| ==> s[i].path != s[j].path
  {
    forall path, service ensures Entry(path, service) in s <==> LastSet(ops, path, service) {
      LastCallWins(ops, path, service);
      if path in ApplyAll(ops) {
        assert path in PathsOf(s);
        var i :| 0 <= i < |s| && s[i].path == path;
        assert s[i] == Entry(path, ApplyAll(ops)[path]);
      }
    }
  }

  /** Any sequence of calls from no object at all: the Ingress exists exactly when the map is not empty, and then the
      paths of its only rule are those whose last successful call set them, each once and with that service. */
  method RunIngress(ops: seq<Op>) returns (t: IngressTable)
    ensures fresh(t) && IngressIs(t.stored, ApplyAll(ops))
    ensures t.stored.Some? <==> ApplyAll(ops) != map[]
    ensures t.stored.Some? <==> exists path, service :: LastSet(ops, path, service)
    ensures t.stored.Some? ==>
              && |t.stored.value| == 1
              && (forall path, service :: Entry(path, service) in t.stored.value[0] <==> LastSet(ops, path, service))
              && forall i, j :: 0 <= i < j < |t.stored.value[0]| ==>
                                  t.stored.value[0][i].path != t.stored.value[0][j].path
  {
    t := new IngressTable();
    var i := 0;
    while i < |ops|
      invariant 0 <= i <= |ops| && IngressIs(t.stored, ApplyAll(ops[..i]))
    {
      assert ops[..i + 1][..i] == ops[..i];
      match ops[i] {
        case Put(path, service, ok) => t.CreateIngress(path, service, ok, ApplyAll(ops[..i]));
        case Drop(path, ok) => t.RemovePath(path, ok, ApplyAll(ops[..i]));
      }
      i := i + 1;
    }
    assert ops[..|ops|] == ops;
    if t.stored.Some? {
      var e := t.stored.value[0][0];
      RepresentedEntries(t.stored.value[0], ops);
      assert e == Entry(e.path, e.service) && e.path in ApplyAll(ops) && LastSet(ops, e.path, e.service);
    } else {
      forall path, service ensures !LastSet(ops, path, service) { LastCallWins(ops, path, service); }
    }
  }
}
