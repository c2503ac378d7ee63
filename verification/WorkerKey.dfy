/** The textual keys of the worker queue: namespace//image//name. */
module WorkerKey {
  import opened OrderedSet

  const SEP := "//"

  // ----- strings.Split(s, "//") -----

  predicate SepAt(s: string, i: int) {
    0 <= i && i + 2 <= |s| && s[i] == '/' && s[i + 1] == '/'
  }

  /** The position of the first separator at or after `from`, or |s|. */
  function FirstSep(s: string, from: nat): (i: nat)
    requires from <= |s|
    ensures from <= i <= |s| && (i < |s| ==> SepAt(s, i)) && forall j :: from <= j < i ==> !SepAt(s, j)
    decreases |s| - from
  {
    if from == |s| then from else if SepAt(s, from) then from else FirstSep(s, from + 1)
  }

  function Split(s: string): seq<string>
    decreases |s|
  {
    var i := FirstSep(s, 0);
    if i == |s| then [s] else [s[..i]] + Split(s[i + 2..])
  }

  /** No separator inside. */
  predicate Unsplit(s: string) {
    forall i :: 0 <= i < |s| ==> !SepAt(s, i)
  }

  /** A part after which a separator can follow and still be found where it was put. */
  predicate Clean(s: string) {
    Unsplit(s) && !(|s| > 0 && s[|s| - 1] == '/')
  }

  lemma SplitUnsplit(s: string)
    ensures Split(s) == [s] <==> Unsplit(s)
  {
    var i := FirstSep(s, 0);
    if i < |s| { SplitNonEmpty(s[i + 2..]); }
  }

  lemma SplitNonEmpty(s: string)
    ensures |Split(s)| >= 1
  {}

  /** The first part of `a//b` is `a` exactly when `a` is clean. */
  lemma FirstPart(a: string, b: string)
    ensures FirstSep(a + SEP + b, 0) == |a| <==> Clean(a)
    ensures Clean(a) ==> Split(a + SEP + b) == [a] + Split(b)
    ensures !Clean(a) ==> Split(a + SEP + b)[0] != a
  {
    var s := a + SEP + b;
    assert SepAt(s, |a|);
    var i := FirstSep(s, 0);
    assert i <= |a|;
    if Clean(a) {
      forall j | 0 <= j < |a| ensures !SepAt(s, j) {
        assert !SepAt(a, j);
        if j == |a| - 1 { assert s[j] == a[|a| - 1]; } else { assert s[j] == a[j] && s[j + 1] == a[j + 1]; }
      }
      assert s[..|a|] == a && s[|a| + 2..] == b;
    } else {
      if |a| > 0 && a[|a| - 1] == '/' {
        assert SepAt(s, |a| - 1);
      } else {
        var j :| 0 <= j < |a| && SepAt(a, j);
        assert SepAt(s, j);
      }
      assert |Split(s)[0]| == i;
    }
  }

  // ----- WorkerKeyFunc and SplitWorkerKey -----

  /** A container of a pod. */
  datatype Container = Container(name: string, image: string)

  datatype Worker = Worker(ns: string, name: string, containers: seq<Container>)

  function Encode(ns: string, image: string, name: string): string {
    if |ns| > 0 then ns + SEP + (image + SEP + name) else image + SEP + name
  }

  /** Container `i` is the first one called web-tty. */
  predicate IsTty(containers: seq<Container>, i: int) {
    && 0 <= i < |containers| && containers[i].name == "web-tty"
    && forall j :: 0 <= j < i ==> containers[j].name != "web-tty"
  }

  /** The key of a worker, or None when it has no web-tty container with an image. */
  method WorkerKeyFunc(w: Worker) returns (key: Option<string>)
    ensures key.Some? ==>
      exists i :: IsTty(w.containers, i) && w.containers[i].image != "" &&
                  key.value == if w.ns == "" then w.containers[i].image + "//" + w.name
                               else w.ns + "//" + w.containers[i].image + "//" + w.name
    ensures key.None? ==> forall i :: IsTty(w.containers, i) ==> w.containers[i].image == ""
  {
    var image := "";
    var i := 0;
    while i < |w.containers|
      invariant 0 <= i <= |w.containers| && image == ""
      invariant forall j :: 0 <= j < i ==> w.containers[j].name != "web-tty"
    {
      if w.containers[i].name == "web-tty" {
        image := w.containers[i].image;
        break;
      }
      i := i + 1;
    }
    assert i < |w.containers| ==> IsTty(w.containers, i);
    if |image| == 0 { return None; }
    EncodeIs(w.ns, image, w.name);
    key := Some(Encode(w.ns, image, w.name));
  }

  /** The textual form of a key. */
  lemma EncodeIs(ns: string, image: string, name: string)
    ensures Encode(ns, image, name) == if ns == "" then image + "//" + name else ns + "//" + image + "//" + name
  {
    assert ns + "//" + image + "//" + name == ns + SEP + (image + SEP + name);
  }

  datatype Parts = Parts(ns: string, name: string, image: string)

  /** SplitWorkerKey; None is the error case, in which the source returns three empty strings. */
  function Decode(key: string): Option<Parts> {
    var parts := Split(key);
    if |parts| == 2 then Some(Parts("", parts[1], parts[0]))
    else if |parts| == 3 then Some(Parts(parts[0], parts[2], parts[1]))
    else None
  }

  /** What namespace, image and name have to look like. */
  predicate Encodable(ns: string, image: string, name: string) {
    Clean(ns) && Clean(image) && Unsplit(name)
  }

  /** Two parts come back exactly when the first is clean and the second has no separator. */
  lemma PairComesBack(image: string, name: string)
    ensures Split(image + SEP + name) == [image, name] <==> Clean(image) && Unsplit(name)
  {
    FirstPart(image, name);
    SplitUnsplit(name);
    if Clean(image) {
      assert Split(image + SEP + name)[1..] == Split(name);
      assert [image, name][1..] == [name];
      if Unsplit(name) { assert [image] + [name] == [image, name]; }
    }
  }

  /** SplitWorkerKey undoes WorkerKeyFunc if and only if the parts are encodable. */
  lemma DecodeUndoesEncode(ns: string, image: string, name: string)
    ensures Decode(Encode(ns, image, name)) == Some(Parts(ns, name, image)) <==> Encodable(ns, image, name)
    ensures ns != "" ==>
            (Decode(ns + "//" + image + "//" + name) == Some(Parts(ns, name, image)) <==> Encodable(ns, image, name))
  {
    EncodeIs(ns, image, name);
    if |ns| == 0 { TwoPartsComeBack(image, name); } else { ThreePartsComeBack(ns, image, name); }
  }

  lemma TwoPartsComeBack(image: string, name: string)
    ensures Decode(image + SEP + name) == Some(Parts("", name, image)) <==> Clean(image) && Unsplit(name)
  {
    PairComesBack(image, name);
    var parts := Split(image + SEP + name);
    if |parts| == 2 {
      assert parts == [parts[0], parts[1]];
    } else if |parts| == 3 {
      ThreePartsAreNotTwo(image, name);
    }
  }

  lemma ThreePartsComeBack(ns: string, image: string, name: string)
    requires |ns| > 0
    ensures Decode(ns + SEP + (image + SEP + name)) == Some(Parts(ns, name, image)) <==> Encodable(ns, image, name)
  {
    var rest := image + SEP + name;
    FirstPart(ns, rest);
    PairComesBack(image, name);
    if Clean(ns) {
      var parts := Split(rest);
      assert Split(ns + SEP + rest)[1..] == parts;
      SplitNonEmpty(rest);
      if |parts| == 2 { assert parts == [parts[0], parts[1]]; }
    }
  }

  /** With an empty namespace a third part cannot be read back as the name. */
  lemma ThreePartsAreNotTwo(image: string, name: string)
    requires |Split(image + SEP + name)| == 3
    ensures Decode(image + SEP + name) != Some(Parts("", name, image))
  {
    var s := image + SEP + name;
    var parts := Split(s);
    PartsAreShort(s);
    TotalOfThree(parts);
  }

  /** The parts of a split together are shorter than the string by two per separator. */
  function Total(parts: seq<string>): nat {
    if parts == [] then 0 else |parts[0]| + Total(parts[1..])
  }

  lemma TotalOfThree(parts: seq<string>)
    requires |parts| == 3
    ensures Total(parts) == |parts[0]| + |parts[1]| + |parts[2]|
  {
    assert parts[1..] == [parts[1], parts[2]];
    assert [parts[1], parts[2]][1..] == [parts[2]];
    assert Total([parts[2]]) == |parts[2]|;
    assert Total([parts[1], parts[2]]) == |parts[1]| + |parts[2]|;
  }

  lemma {:induction false} PartsAreShort(s: string)
    ensures Total(Split(s)) + 2 * (|Split(s)| - 1) == |s|
    decreases |s|
  {
    var i := FirstSep(s, 0);
    if i == |s| {
      assert Split(s)[1..] == [];
    } else {
      PartsAreShort(s[i + 2..]);
      assert Split(s)[1..] == Split(s[i + 2..]);
      SplitNonEmpty(s[i + 2..]);
    }
  }

  /** Encodable workers with the same key are the same worker. */
  lemma EncodeIsInjective(v: Parts, w: Parts)
    requires Encodable(v.ns, v.image, v.name) && Encodable(w.ns, w.image, w.name)
    requires Encode(v.ns, v.image, v.name) == Encode(w.ns, w.image, w.name)
    ensures v == w
  {
    DecodeUndoesEncode(v.ns, v.image, v.name);
    DecodeUndoesEncode(w.ns, w.image, w.name);
  }

  /** An image that ends in a slash is read back as another one. */
  lemma TrailingSlashIsLost()
    ensures !Encodable("ns", "repo/", "w") && Decode(Encode("ns", "repo/", "w")) != Some(Parts("ns", "w", "repo/"))
  {
    var image := "repo/";
    assert image[|image| - 1] == '/';
    DecodeUndoesEncode("ns", image, "w");
  }

  // ----- matchWorkerFor on the queued keys -----

  /** The source goes on with three empty strings when a key is malformed. */
  function PartsOf(key: string): Parts {
    if Decode(key).Some? then Decode(key).value else Parts("", "", "")
  }

  predicate Hits(key: string, ns: string, image: string) {
    PartsOf(key).ns == ns && PartsOf(key).image == image
  }

  /** Position `i` holds the oldest key for this namespace and image. */
  predicate FirstHit(keys: seq<string>, ns: string, image: string, i: int) {
    0 <= i < |keys| && Hits(keys[i], ns, image) && forall j :: 0 <= j < i ==> !Hits(keys[j], ns, image)
  }

  /** The name of the worker that the search picks, or None for ErrNotWorker. */
  method MatchWorkerFor(keys: seq<string>, ns: string, image: string) returns (r: Option<string>)
    ensures r.Some? ==> r.value != "" && exists i :: FirstHit(keys, ns, image, i) && PartsOf(keys[i]).name == r.value
    ensures r.None? ==> forall i :: FirstHit(keys, ns, image, i) ==> PartsOf(keys[i]).name == ""
  {
    var workerName := "";
    var i := 0;
    while i < |keys|
      invariant 0 <= i <= |keys| && workerName == ""
      invariant forall j :: 0 <= j < i ==> !Hits(keys[j], ns, image)
    {
      var parts := PartsOf(keys[i]);
      if parts.ns == ns && parts.image == image {
        workerName := parts.name;
        break;
      }
      i := i + 1;
    }
    assert i < |keys| ==> FirstHit(keys, ns, image, i);
    if |workerName| != 0 { r := Some(workerName); } else { r := None; }
  }

  ghost predicate KeyOf(key: string, w: Parts) {
    w.name != "" && Encodable(w.ns, w.image, w.name) && key == Encode(w.ns, w.image, w.name)
  }

  /** `keys` are the keys of `workers`, oldest first. */
  ghost predicate KeysOf(keys: seq<string>, workers: seq<Parts>) {
    |keys| == |workers| && Distinct(workers) && forall i :: 0 <= i < |keys| ==> KeyOf(keys[i], workers[i])
  }

  lemma KeyDecodes(key: string, w: Parts)
    requires KeyOf(key, w)
    ensures PartsOf(key) == w
  {
    DecodeUndoesEncode(w.ns, w.image, w.name);
  }

  lemma KeysAreDistinct(keys: seq<string>, workers: seq<Parts>)
    requires KeysOf(keys, workers)
    ensures Distinct(keys)
  {
    forall j, k | 0 <= j < k < |keys| ensures keys[j] != keys[k] {
      KeyDecodes(keys[j], workers[j]);
      KeyDecodes(keys[k], workers[k]);
    }
  }

  /** Position `i` holds the oldest worker of this namespace and image. */
  predicate OldestWorker(workers: seq<Parts>, ns: string, image: string, i: int) {
    && 0 <= i < |workers| && workers[i].ns == ns && workers[i].image == image
    && forall j :: 0 <= j < i ==> !(workers[j].ns == ns && workers[j].image == image)
  }

  /** On the keys of encodable workers the search finds the oldest worker whose namespace and image are the
      requested ones. */
  lemma SearchFindsOldestWorker(keys: seq<string>, workers: seq<Parts>, ns: string, image: string, i: int)
    requires KeysOf(keys, workers)
    ensures FirstHit(keys, ns, image, i) <==> OldestWorker(workers, ns, image, i)
    ensures FirstHit(keys, ns, image, i) ==> PartsOf(keys[i]).name == workers[i].name
  {
    forall j | 0 <= j < |keys|
      ensures PartsOf(keys[j]) == workers[j]
      ensures Hits(keys[j], ns, image) <==> workers[j].ns == ns && workers[j].image == image
    {
      KeyDecodes(keys[j], workers[j]);
    }
  }

  /** Taking the key of a worker off the queue takes off that worker and no other. */
  lemma RemovalTakesOneWorker(keys: seq<string>, workers: seq<Parts>, i: nat)
    requires KeysOf(keys, workers) && i < |keys|
    ensures KeysOf(Delete(keys, keys[i]), workers[..i] + workers[i + 1..])
  {
    KeysAreDistinct(keys, workers);
    DeleteAt(keys, i);
    DeleteAt(workers, i);
    DeleteKeepsDistinct(workers, workers[i]);
    OthersKeepTheirKeys(keys, workers, i);
  }

  lemma OthersKeepTheirKeys(keys: seq<string>, workers: seq<Parts>, i: nat)
    requires |keys| == |workers| && i < |keys| && forall j :: 0 <= j < |keys| ==> KeyOf(keys[j], workers[j])
    ensures var ks, ws := keys[..i] + keys[i + 1..], workers[..i] + workers[i + 1..];
            forall j :: 0 <= j < |ks| ==> KeyOf(ks[j], ws[j])
  {
    var ks, ws := keys[..i] + keys[i + 1..], workers[..i] + workers[i + 1..];
    forall j | 0 <= j < |ks| ensures KeyOf(ks[j], ws[j]) {
      var j' := if j < i then j else j + 1;
      assert ks[j] == keys[j'] && ws[j] == workers[j'];
    }
  }
}
