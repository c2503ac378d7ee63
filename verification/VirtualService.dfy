/** The VirtualService variant of the route table.  Its routes are pointers: a route has match conditions and
    destinations of its own, an existing route is changed through its destination, and a new one starts as a deep copy
    of the first. */
module VirtualService {
  import opened OrderedSet
  import opened RouteTable

  datatype MatchType = Prefix(prefix: string) | OtherMatch(pattern: string)

  // ----- the routes as values -----

  /** A route read as a value; None is a match condition without a URI. */
  datatype RouteVal = RouteVal(matches: seq<Option<MatchType>>, hosts: seq<string>)

  /** The prefix that the first match condition asks for, if it asks for one. */
  function PathOf(v: RouteVal): Option<string> {
    if |v.matches| > 0 && v.matches[0].Some? && v.matches[0].value.Prefix?
    then Some(v.matches[0].value.prefix) else None
  }

  predicate HitBy(v: RouteVal, path: string) { PathOf(v) == Some(path) }

  predicate AnyHit(vs: seq<RouteVal>, path: string) {
    exists i :: 0 <= i < |vs| && HitBy(vs[i], path)
  }

  function SetHost(v: RouteVal, path: string, host: string): RouteVal
    requires HitBy(v, path) ==> |v.hosts| > 0
  {
    if HitBy(v, path) then v.(hosts := v.hosts[0 := host]) else v
  }

  /** The first route can serve as a pattern. */
  predicate Copyable(v: RouteVal) {
    |v.matches| > 0 && v.matches[0].Some? && |v.hosts| > 0
  }

  function CopyFor(v: RouteVal, path: string, host: string): RouteVal
    requires Copyable(v)
  {
    RouteVal(v.matches[0 := Some(Prefix(path))], v.hosts[0 := host])
  }

  /** The accesses Route[0] of the routes that are hit, and Http[0], Match[0], Uri, Route[0] of the pattern, are in
      range. */
  predicate InRange(vs: seq<RouteVal>, path: string) {
    && (forall i :: 0 <= i < |vs| && HitBy(vs[i], path) ==> |vs[i].hosts| > 0)
    && (AnyHit(vs, path) || (|vs| > 0 && Copyable(vs[0])))
  }

  function UpsertedRoutes(vs: seq<RouteVal>, path: string, host: string): seq<RouteVal>
    requires InRange(vs, path)
  {
    var changed := seq(|vs|, i requires 0 <= i < |vs| => SetHost(vs[i], path, host));
    if AnyHit(vs, path) then changed else changed + [CopyFor(vs[0], path, host)]
  }

  // ----- the meaning of the routes that the controller writes -----

  /** The shape of the template: one prefix, one destination. */
  predicate Plain(v: RouteVal) {
    |v.matches| == 1 && v.matches[0].Some? && v.matches[0].value.Prefix? && |v.hosts| == 1
  }

  predicate AllPlain(vs: seq<RouteVal>) {
    forall i :: 0 <= i < |vs| ==> Plain(vs[i])
  }

  function EntriesOf(vs: seq<RouteVal>): seq<Entry>
    requires AllPlain(vs)
  {
    seq(|vs|, i requires 0 <= i < |vs| => Entry(vs[i].matches[0].value.prefix, vs[i].hosts[0]))
  }

  /** On plain routes every access is in range, and the routes change exactly as a list of entries does. */
  lemma UpsertRefines(vs: seq<RouteVal>, path: string, host: string)
    requires AllPlain(vs) && vs != []
    ensures InRange(vs, path) && AllPlain(UpsertedRoutes(vs, path, host))
    ensures EntriesOf(UpsertedRoutes(vs, path, host)) == Upserted(EntriesOf(vs), path, host)
  {
    var s := EntriesOf(vs);
    assert forall i :: 0 <= i < |vs| ==> (HitBy(vs[i], path) <==> s[i].path == path);
    assert AnyHit(vs, path) <==> exists i :: 0 <= i < |s| && s[i].path == path;
  }

  function FilteredRoutes(vs: seq<RouteVal>, path: string): seq<RouteVal> {
    if vs == [] then []
    else FilteredRoutes(vs[..|vs| - 1], path) + if HitBy(vs[|vs| - 1], path) then [] else [vs[|vs| - 1]]
  }

  lemma {:induction false} FilterRefines(vs: seq<RouteVal>, path: string)
    requires AllPlain(vs)
    ensures AllPlain(FilteredRoutes(vs, path))
    ensures EntriesOf(FilteredRoutes(vs, path)) == Filtered(EntriesOf(vs), path)
  {
    if vs != [] {
      var front := vs[..|vs| - 1];
      FilterRefines(front, path);
      assert EntriesOf(vs)[..|vs| - 1] == EntriesOf(front);
    }
  }

  /** On any routes: removal takes away exactly those whose first match condition is this prefix. */
  lemma {:induction false} FilteredRoutesAre(vs: seq<RouteVal>, path: string, v: RouteVal)
    ensures v in FilteredRoutes(vs, path) <==> v in vs && !(|v.matches| > 0 && v.matches[0] == Some(Prefix(path)))
  {
    if vs != [] {
      var front, last := vs[..|vs| - 1], vs[|vs| - 1];
      FilteredRoutesAre(front, path, v);
      assert vs == front + [last];
      assert v in vs <==> v in front || v == last;
    }
  }

  /** And the upsert changes the first destination of exactly those, or adds a route like the first one. */
  lemma UpsertedRoutesAre(vs: seq<RouteVal>, path: string, host: string)
    requires InRange(vs, path)
    ensures var r := UpsertedRoutes(vs, path, host);
            && |r| >= |vs|
            && (forall i :: 0 <= i < |vs| ==>
                  if |vs[i].matches| > 0 && vs[i].matches[0] == Some(Prefix(path))
                  then |vs[i].hosts| > 0 && r[i] == RouteVal(vs[i].matches, [host] + vs[i].hosts[1..]) else r[i] == vs[i])
            && if exists i :: 0 <= i < |vs| && |vs[i].matches| > 0 && vs[i].matches[0] == Some(Prefix(path))
               then |r| == |vs|
               else |r| == |vs| + 1 && |vs| > 0 && |vs[0].matches| > 0 && |vs[0].hosts| > 0
                    && r[|vs|] == RouteVal([Some(Prefix(path))] + vs[0].matches[1..], [host] + vs[0].hosts[1..])
  {
    var r := UpsertedRoutes(vs, path, host);
    assert forall i :: 0 <= i < |vs| ==>
      (HitBy(vs[i], path) <==> |vs[i].matches| > 0 && vs[i].matches[0] == Some(Prefix(path)));
    forall i | 0 <= i < |vs| && HitBy(vs[i], path) ensures r[i] == RouteVal(vs[i].matches, [host] + vs[i].hosts[1..]) {
      assert vs[i].hosts[0 := host] == [host] + vs[i].hosts[1..];
    }
    if !AnyHit(vs, path) {
      assert vs[0].hosts[0 := host] == [host] + vs[0].hosts[1..];
      assert vs[0].matches[0 := Some(Prefix(path))] == [Some(Prefix(path))] + vs[0].matches[1..];
    }
  }

  // ----- the routes as objects -----

  class Uri {
    var kind: MatchType

    constructor (kind: MatchType)
      ensures this.kind == kind
    {
      this.kind := kind;
    }
  }

  class Destination {
    var host: string

    constructor (host: string)
      ensures this.host == host
    {
      this.host := host;
    }
  }

  class HttpRoute {
    const matches: seq<Option<Uri>>
    const dests: seq<Destination>

    constructor (matches: seq<Option<Uri>>, dests: seq<Destination>)
      ensures this.matches == matches && this.dests == dests
    {
      this.matches, this.dests := matches, dests;
    }

    ghost function Parts(): set<object> {
      (set i | 0 <= i < |matches| && matches[i].Some? :: matches[i].value as object)
      + (set i | 0 <= i < |dests| :: dests[i] as object)
    }

    /** The value that this route has now. */
    ghost predicate Is(v: RouteVal)
      reads Parts()
    {
      && |v.matches| == |matches| && |v.hosts| == |dests|
      && (forall i :: 0 <= i < |matches| ==>
            if matches[i].Some? then InParts(matches[i].value) && v.matches[i] == Some(matches[i].value.kind)
            else v.matches[i] == None)
      && (forall i :: 0 <= i < |dests| ==> InParts(dests[i]) && v.hosts[i] == dests[i].host)
    }

    ghost predicate InParts(o: object) { o in Parts() }

    /** The match conditions of one route are different objects, and so are its destinations. */
    ghost predicate Apart() {
      && (forall i, j :: 0 <= i < j < |dests| ==> dests[i] != dests[j])
      && (forall i, j :: 0 <= i < j < |matches| && matches[i].Some? ==> matches[i] != matches[j])
    }

    /** Whether the first match condition is this prefix. */
    method Hit(path: string, ghost v: RouteVal) returns (b: bool)
      requires Is(v)
      ensures b <==> HitBy(v, path)
    {
      b := false;
      if |matches| > 0 && matches[0].Some? {
        match matches[0].value.kind
        case Prefix(p) => b := p == path;
        case OtherMatch(_) =>
      }
    }

    method SetFirstHost(host: string, ghost v: RouteVal)
      requires Is(v) && |dests| > 0 && Apart()
      modifies dests[0]
      ensures Is(v.(hosts := v.hosts[0 := host]))
    {
      dests[0].host := host;
    }

    method SetFirstPrefix(path: string, ghost v: RouteVal)
      requires Is(v) && |matches| > 0 && matches[0].Some? && Apart()
      modifies matches[0].value
      ensures Is(v.(matches := v.matches[0 := Some(Prefix(path))]))
    {
      matches[0].value.kind := Prefix(path);
    }

    /** A copy that shares nothing with this route. */
    method DeepCopy(ghost v: RouteVal) returns (r: HttpRoute)
      requires Is(v)
      ensures fresh(r) && fresh(r.Parts()) && r.Apart() && r.Is(v)
    {
      var now := EncodeRoute(this, v);
      r := DecodeRoute(now);
    }
  }

  ghost function AllParts(routes: seq<HttpRoute>): set<object> {
    set i, o | 0 <= i < |routes| && o in routes[i].Parts() :: o
  }

  ghost predicate Are(routes: seq<HttpRoute>, vs: seq<RouteVal>)
    reads AllParts(routes)
  {
    |routes| == |vs| && forall i :: 0 <= i < |routes| ==> routes[i].Parts() <= AllParts(routes) && routes[i].Is(vs[i])
  }

  /** No two routes share a part. */
  ghost predicate Separate(routes: seq<HttpRoute>) {
    && (forall i :: 0 <= i < |routes| ==> routes[i].Apart())
    && (forall i, j :: 0 <= i < |routes| && 0 <= j < |routes| && i != j ==> routes[i].Parts() !! routes[j].Parts())
  }

  /** A write to one route leaves the others alone. */
  method SetHostAt(routes: seq<HttpRoute>, i: nat, host: string, ghost ws: seq<RouteVal>)
    requires |ws| == |routes| && i < |routes| && Separate(routes) && |routes[i].dests| > 0 && |ws[i].hosts| > 0
    requires forall j :: 0 <= j < |routes| ==> routes[j].Is(ws[j])
    modifies routes[i].dests[0]
    ensures routes[i].Is(ws[i].(hosts := ws[i].hosts[0 := host]))
    ensures forall j :: 0 <= j < |routes| && j != i ==> routes[j].Is(ws[j])
  {
    assert routes[i].dests[0] in routes[i].Parts();
    assert forall j :: 0 <= j < |routes| && j != i ==> routes[i].dests[0] !in routes[j].Parts();
    routes[i].SetFirstHost(host, ws[i]);
  }

  /** The first loop: the routes for `path` get the new host. */
  method SetHosts(routes: seq<HttpRoute>, path: string, host: string, ghost vs: seq<RouteVal>)
    returns (found: bool, ghost ws: seq<RouteVal>)
    requires Are(routes, vs) && Separate(routes)
    requires forall i :: 0 <= i < |vs| && HitBy(vs[i], path) ==> |vs[i].hosts| > 0
    modifies AllParts(routes)
    ensures found <==> AnyHit(vs, path)
    ensures Are(routes, ws) && forall i :: 0 <= i < |ws| ==> ws[i] == SetHost(vs[i], path, host)
  {
    found := false;
    ws := vs;
    var i := 0;
    while i < |routes|
      invariant 0 <= i <= |routes| && Are(routes, ws)
      invariant found <==> exists j :: 0 <= j < i && HitBy(vs[j], path)
      invariant forall j :: 0 <= j < i ==> ws[j] == SetHost(vs[j], path, host)
      invariant forall j :: i <= j < |routes| ==> ws[j] == vs[j]
    {
      var hit := SetHostIfHit(routes, i, path, host, ws);
      ws := ws[i := SetHost(vs[i], path, host)];
      found := found || hit;
      i := i + 1;
    }
  }

  method SetHostIfHit(routes: seq<HttpRoute>, i: nat, path: string, host: string, ghost ws: seq<RouteVal>)
    returns (hit: bool)
    requires Are(routes, ws) && Separate(routes) && i < |routes| && (HitBy(ws[i], path) ==> |ws[i].hosts| > 0)
    modifies AllParts(routes)
    ensures hit <==> HitBy(ws[i], path)
    ensures Are(routes, ws[i := SetHost(ws[i], path, host)])
  {
    hit := routes[i].Hit(path, ws[i]);
    if hit {
      assert routes[i].InParts(routes[i].dests[0]);
      SetHostAt(routes, i, host, ws);
    }
  }

  /** The update part of CreateVirtualServiceForCloudshell.  The new route shares nothing with the old ones. */
  method Upsert(routes: seq<HttpRoute>, path: string, host: string, ghost vs: seq<RouteVal>) returns (r: seq<HttpRoute>)
    requires Are(routes, vs) && Separate(routes) && InRange(vs, path)
    modifies AllParts(routes)
    ensures Are(r, UpsertedRoutes(vs, path, host)) && Separate(r)
    ensures routes <= r && fresh(AllParts(r) - AllParts(routes))
  {
    var found, ws := SetHosts(routes, path, host, vs);
    if found {
      assert ws == UpsertedRoutes(vs, path, host);
      return routes;
    }
    assert ws == vs;
    var copy := CopyOf(routes[0], path, host, vs[0]);
    r := Appended(routes, copy, vs, path, host);
  }

  /** A deep copy of the pattern, turned towards the new path and host. */
  method CopyOf(pattern: HttpRoute, path: string, host: string, ghost v: RouteVal) returns (copy: HttpRoute)
    requires pattern.Is(v) && Copyable(v)
    ensures fresh(copy) && fresh(copy.Parts()) && copy.Apart() && copy.Is(CopyFor(v, path, host))
  {
    copy := pattern.DeepCopy(v);
    assert copy.InParts(copy.dests[0]) && copy.InParts(copy.matches[0].value);
    copy.SetFirstPrefix(path, v);
    copy.SetFirstHost(host, v.(matches := v.matches[0 := Some(Prefix(path))]));
  }

  method Appended(routes: seq<HttpRoute>, copy: HttpRoute, ghost vs: seq<RouteVal>, path: string, host: string)
    returns (r: seq<HttpRoute>)
    requires InRange(vs, path) && !AnyHit(vs, path) && Are(routes, vs) && Separate(routes) && copy.Apart()
    requires copy.Is(CopyFor(vs[0], path, host)) && copy.Parts() !! AllParts(routes)
    ensures r == routes + [copy] && Are(r, UpsertedRoutes(vs, path, host)) && Separate(r)
    ensures AllParts(r) == AllParts(routes) + copy.Parts()
  {
    r := routes + [copy];
    assert UpsertedRoutes(vs, path, host) == vs + [CopyFor(vs[0], path, host)] by {
      assert forall i :: 0 <= i < |vs| ==> !HitBy(vs[i], path);
    }
    Extend(routes, vs, copy, CopyFor(vs[0], path, host));
  }

  lemma Extend(routes: seq<HttpRoute>, vs: seq<RouteVal>, copy: HttpRoute, v: RouteVal)
    requires Are(routes, vs) && Separate(routes) && copy.Apart() && copy.Is(v) && copy.Parts() !! AllParts(routes)
    ensures Are(routes + [copy], vs + [v]) && Separate(routes + [copy])
    ensures AllParts(routes + [copy]) == AllParts(routes) + copy.Parts()
  {
    var r := routes + [copy];
    assert r[|routes|] == copy;
    assert forall i :: 0 <= i < |routes| ==> r[i] == routes[i];
    assert AllParts(r) == AllParts(routes) + copy.Parts();
  }

  /** The removal loop: every route but those for `path` is kept, in order. */
  method Remove(routes: seq<HttpRoute>, path: string, ghost vs: seq<RouteVal>) returns (r: seq<HttpRoute>)
    requires Are(routes, vs)
    ensures Are(r, FilteredRoutes(vs, path))
  {
    r := [];
    var i := 0;
    while i < |routes|
      invariant 0 <= i <= |routes| && Are(r, FilteredRoutes(vs[..i], path))
    {
      var hit := routes[i].Hit(path, vs[i]);
      assert vs[..i + 1][..i] == vs[..i];
      if !hit {
        AreGrows(r, FilteredRoutes(vs[..i], path), routes[i], vs[i]);
        r := r + [routes[i]];
      }
      i := i + 1;
    }
    assert vs[..|vs|] == vs;
  }

  lemma AreGrows(routes: seq<HttpRoute>, vs: seq<RouteVal>, last: HttpRoute, v: RouteVal)
    requires Are(routes, vs) && last.Is(v)
    ensures Are(routes + [last], vs + [v])
  {
    var r := routes + [last];
    assert r[|routes|] == last;
    assert forall i :: 0 <= i < |routes| ==> r[i] == routes[i];
  }

  // ----- the object in the API server -----

  /** Reading the object gives a private tree of new objects. */
  method Decode(vs: seq<RouteVal>) returns (routes: seq<HttpRoute>)
    ensures Are(routes, vs) && Separate(routes) && fresh(AllParts(routes))
  {
    routes := [];
    var i := 0;
    while i < |vs|
      invariant 0 <= i <= |vs| && Are(routes, vs[..i]) && Separate(routes) && fresh(AllParts(routes))
    {
      var route := DecodeRoute(vs[i]);
      assert route.Parts() !! AllParts(routes);
      Extend(routes, vs[..i], route, vs[i]);
      routes := routes + [route];
      assert vs[..i] + [vs[i]] == vs[..i + 1];
      i := i + 1;
    }
    assert vs[..|vs|] == vs;
  }

  method DecodeRoute(v: RouteVal) returns (route: HttpRoute)
    ensures fresh(route) && fresh(route.Parts()) && route.Apart() && route.Is(v)
  {
    var ms := DecodeUris(v.matches);
    var ds := DecodeDests(v.hosts);
    route := new HttpRoute(ms, ds);
  }

  method DecodeUris(kinds: seq<Option<MatchType>>) returns (ms: seq<Option<Uri>>)
    ensures |ms| == |kinds|
    ensures forall j :: 0 <= j < |ms| ==>
      if kinds[j].None? then ms[j].None?
      else ms[j].Some? && fresh(ms[j].value) && ms[j].value.kind == kinds[j].value
    ensures forall j, k :: 0 <= j < k < |ms| && ms[j].Some? ==> ms[j] != ms[k]
  {
    ms := [];
    var i := 0;
    while i < |kinds|
      invariant 0 <= i <= |kinds| && |ms| == i
      invariant forall j :: 0 <= j < i ==>
        if kinds[j].None? then ms[j].None?
        else ms[j].Some? && fresh(ms[j].value) && ms[j].value.kind == kinds[j].value
      invariant forall j, k :: 0 <= j < k < i && ms[j].Some? ==> ms[j] != ms[k]
    {
      if kinds[i].Some? {
        var u := new Uri(kinds[i].value);
        ms := ms + [Some(u)];
      } else {
        ms := ms + [None];
      }
      i := i + 1;
    }
  }

  method DecodeDests(hosts: seq<string>) returns (ds: seq<Destination>)
    ensures |ds| == |hosts| && forall j :: 0 <= j < |ds| ==> fresh(ds[j]) && ds[j].host == hosts[j]
    ensures forall j, k :: 0 <= j < k < |ds| ==> ds[j] != ds[k]
  {
    ds := [];
    var i := 0;
    while i < |hosts|
      invariant 0 <= i <= |hosts| && |ds| == i
      invariant forall j :: 0 <= j < i ==> fresh(ds[j]) && ds[j].host == hosts[j]
      invariant forall j, k :: 0 <= j < k < i ==> ds[j] != ds[k]
    {
      var d := new Destination(hosts[i]);
      ds := ds + [d];
      i := i + 1;
    }
  }

  method Encode(routes: seq<HttpRoute>, ghost vs: seq<RouteVal>) returns (r: seq<RouteVal>)
    requires Are(routes, vs)
    ensures r == vs
  {
    r := [];
    var i := 0;
    while i < |routes|
      invariant 0 <= i <= |routes| && r == vs[..i]
    {
      var v := EncodeRoute(routes[i], vs[i]);
      r := r + [v];
      i := i + 1;
    }
  }

  method EncodeRoute(route: HttpRoute, ghost v: RouteVal) returns (r: RouteVal)
    requires route.Is(v)
    ensures r == v
  {
    var ms: seq<Option<MatchType>> := [];
    var i := 0;
    while i < |route.matches|
      invariant 0 <= i <= |route.matches| && ms == v.matches[..i]
    {
      ms := ms + [if route.matches[i].Some? then Some(route.matches[i].value.kind) else None];
      i := i + 1;
    }
    var hs: seq<string> := [];
    i := 0;
    while i < |route.dests|
      invariant 0 <= i <= |route.dests| && hs == v.hosts[..i]
    {
      hs := hs + [route.dests[i].host];
      i := i + 1;
    }
    r := RouteVal(ms, hs);
  }

  /** The VirtualService as it stands in the API server, and what it means: a map from path to destination host. */
  ghost predicate VirtualServiceIs(t: Option<seq<RouteVal>>, m: Routes) {
    if t.None? then m == map[] else t.value != [] && AllPlain(t.value) && Represents(EntriesOf(t.value), m)
  }

  class VirtualServiceTable {
    var stored: Option<seq<RouteVal>>

    constructor ()
      ensures stored == None
    {
      stored := None;
    }

    /** CreateVirtualServiceForCloudshell: create the object with one route, or change and extend the routes of the
        object that is there. */
    method CreateRoute(path: string, host: string, ok: bool, ghost m: Routes)
      requires VirtualServiceIs(stored, m)
      modifies this
      ensures VirtualServiceIs(stored, if ok then m[path := host] else m)
    {
      if stored.None? {
        var only := [RouteVal([Some(Prefix(path))], [host])];
        UpsertedRepresents([], m, path, host);
        assert Upserted([], path, host) == EntriesOf(only);
        if ok { stored := Some(only); }
        return;
      }
      ghost var vs := stored.value;
      UpsertRefines(vs, path, host);
      UpsertedRepresents(EntriesOf(vs), m, path, host);
      var routes := Decode(stored.value);
      routes := Upsert(routes, path, host, vs);
      var r := Encode(routes, UpsertedRoutes(vs, path, host));
      if ok { stored := Some(r); }
    }

    /** removeCloudshellRoute, VirtualService case: a VirtualService without routes is deleted. */
    method RemoveRoute(path: string, ok: bool, ghost m: Routes)
      requires VirtualServiceIs(stored, m)
      modifies this
      ensures VirtualServiceIs(stored, if ok then m - {path} else m)
    {
      if stored.None? { return; }
      ghost var vs := stored.value;
      FilterRefines(vs, path);
      FilteredRepresents(EntriesOf(vs), m, path);
      var routes := Decode(stored.value);
      routes := Remove(routes, path, vs);
      if !ok { return; }
      if |routes| == 0 {
        assert m - {path} == map[] by { EmptyList(m - {path}); }
        stored := None;
      } else {
        var r := Encode(routes, FilteredRoutes(vs, path));
        stored := Some(r);
      }
    }
  }

  /** Read off routes that represent the map of a sequence of calls. */
  lemma StoredRoutes(vs: seq<RouteVal>, ops: seq<Op>)
    requires AllPlain(vs) && Represents(EntriesOf(vs), ApplyAll(ops))
    ensures forall path, host :: RouteVal([Some(Prefix(path))], [host]) in vs <==> LastSet(ops, path, host)
    ensures forall i, j :: 0 <= i < j < |vs| ==> vs[i].matches != vs[j].matches
  {
    var s := EntriesOf(vs);
    RepresentedEntries(s, ops);
    forall i, j | 0 <= i < j < |vs| ensures vs[i].matches != vs[j].matches {
      assert s[i].path != s[j].path;
    }
    forall path, host ensures RouteVal([Some(Prefix(path))], [host]) in vs <==> Entry(path, host) in s {
      PlainRoute(vs, path, host);
    }
  }

  lemma PlainRoute(vs: seq<RouteVal>, path: string, host: string)
    requires AllPlain(vs)
    ensures RouteVal([Some(Prefix(path))], [host]) in vs <==> Entry(path, host) in EntriesOf(vs)
  {
    var v, s := RouteVal([Some(Prefix(path))], [host]), EntriesOf(vs);
    if v in vs {
      var i :| 0 <= i < |vs| && vs[i] == v;
      assert s[i] == Entry(path, host);
    }
    if Entry(path, host) in s {
      var i :| 0 <= i < |s| && s[i] == Entry(path, host);
      assert vs[i].matches == [Some(Prefix(path))] && vs[i].hosts == [host];
    }
  }

  /** Any sequence of calls from no object at all; the VirtualService exists exactly when the map is not empty, and then
      its routes are those whose last successful call set them.  The Ingress ends up with the same map. */
  method RunVirtualService(ops: seq<Op>) returns (t: VirtualServiceTable)
    ensures fresh(t) && VirtualServiceIs(t.stored, ApplyAll(ops))
    ensures t.stored.Some? <==> ApplyAll(ops) != map[]
    ensures t.stored.Some? <==> exists path, host :: LastSet(ops, path, host)
    ensures t.stored.Some? ==>
              && (forall path, host :: RouteVal([Some(Prefix(path))], [host]) in t.stored.value <==>
                                         LastSet(ops, path, host))
              && forall i, j :: 0 <= i < j < |t.stored.value| ==> t.stored.value[i].matches != t.stored.value[j].matches
  {
    t := new VirtualServiceTable();
    var i := 0;
    while i < |ops|
      invariant 0 <= i <= |ops| && VirtualServiceIs(t.stored, ApplyAll(ops[..i]))
    {
      assert ops[..i + 1][..i] == ops[..i];
      match ops[i] {
        case Put(path, host, ok) => t.CreateRoute(path, host, ok, ApplyAll(ops[..i]));
        case Drop(path, ok) => t.RemoveRoute(path, ok, ApplyAll(ops[..i]));
      }
      i := i + 1;
    }
    assert ops[..|ops|] == ops;
    if t.stored.Some? {
      var e := EntriesOf(t.stored.value)[0];
      StoredRoutes(t.stored.value, ops);
      assert e == Entry(e.path, e.service) && e.path in ApplyAll(ops);
      RepresentedEntries(EntriesOf(t.stored.value), ops);
      assert LastSet(ops, e.path, e.service);
    } else {
      forall path, host ensures !LastSet(ops, path, host) { LastCallWins(ops, path, host); }
    }
  }
}
