/** The ttyd client options travel from the controller to the startup script as one string, k1=v1|k2=v2|... */
module ClientOptions {
  import opened OrderedSet

  const DELIMITER := '|'
  const NEWLINE := '\n'

  function Item(k: string, v: string): string { k + "=" + v }

  // ----- the controller -----

  function Join(items: seq<string>): string {
    if items == [] then "" else if |items| == 1 then items[0] else items[0] + [DELIMITER] + Join(items[1..])
  }

  /** `order` is some order in which the runtime iterates over the map. */
  ghost predicate Iterates(order: seq<string>, options: map<string, string>) {
    Distinct(order) && forall k :: k in order <==> k in options
  }

  function ItemsOf(order: seq<string>, options: map<string, string>): (items: seq<string>)
    requires forall k :: k in order ==> k in options
    ensures |items| == |order| && forall i :: 0 <= i < |order| ==> items[i] == order[i] + "=" + options[order[i]]
  {
    seq(|order|, i requires 0 <= i < |order| => Item(order[i], options[order[i]]))
  }

  predicate Plain(k: string, v: string) { DELIMITER !in k && DELIMITER !in v }

  /** The string for the startup script, or None when a key or a value contains the delimiter. */
  method JoinOptions(options: map<string, string>, order: seq<string>) returns (r: Option<string>)
    requires Iterates(order, options)
    ensures r.Some? <==> forall k :: k in options ==> '|' !in k && '|' !in options[k]
    ensures r.Some? ==> r.value == Join(ItemsOf(order, options))
  {
    var items: seq<string> := [];
    var i := 0;
    while i < |order|
      invariant 0 <= i <= |order| && |items| == i
      invariant forall j :: 0 <= j < i ==> Plain(order[j], options[order[j]])
      invariant forall j :: 0 <= j < i ==> items[j] == Item(order[j], options[order[j]])
    {
      var k := order[i];
      var v := options[k];
      if DELIMITER in k || DELIMITER in v { return None; }
      items := items + [Item(k, v)];
      i := i + 1;
    }
    assert items == ItemsOf(order, options);
    r := Some(Join(items));
  }

  // ----- the startup script -----

  /** Up to the first newline: what `read` reads. */
  function FirstLine(s: string): string {
    if s == "" || s[0] == NEWLINE then "" else [s[0]] + FirstLine(s[1..])
  }

  /** Everything before the first delimiter. */
  function Head(s: string): (h: string)
    ensures |h| <= |s|
  {
    if s == "" || s[0] == DELIMITER then "" else [s[0]] + Head(s[1..])
  }

  /** Field splitting with IFS='|': a delimiter ends a field, so one at the very end starts no further field. */
  function Fields(s: string): seq<string>
    decreases |s|
  {
    if s == "" then []
    else
      var h := Head(s);
      if |h| == |s| then [s] else [h] + Fields(s[|h| + 1..])
  }

  /** What the startup script reads from the option string; an empty string is not read at all. */
  function ReadOptions(s: string): seq<string> {
    if s == "" then [] else Fields(FirstLine(s))
  }

  // ----- the round trip -----

  predicate Field(s: string) { s != "" && DELIMITER !in s }

  lemma {:induction false} HeadOfField(a: string, rest: string)
    requires DELIMITER !in a
    ensures Head(a) == a && Head(a + [DELIMITER] + rest) == a
  {
    if a == "" {
      assert a + [DELIMITER] + rest == [DELIMITER] + rest;
    } else {
      assert a[0] in a;
      assert DELIMITER !in a[1..] by { assert forall c :: c in a[1..] ==> c in a; }
      HeadOfField(a[1..], rest);
      assert (a + [DELIMITER] + rest)[1..] == a[1..] + [DELIMITER] + rest;
    }
  }

  lemma {:induction false} FieldsUndoJoin(items: seq<string>)
    requires forall i :: 0 <= i < |items| ==> Field(items[i])
    ensures Fields(Join(items)) == items
  {
    if |items| == 1 {
      HeadOfField(items[0], "");
    } else if |items| > 1 {
      var rest := Join(items[1..]);
      HeadOfField(items[0], rest);
      assert Join(items) == items[0] + [DELIMITER] + rest;
      assert Join(items)[|items[0]| + 1..] == rest;
      FieldsUndoJoin(items[1..]);
    }
  }

  lemma {:induction false} FirstLineIs(s: string)
    ensures FirstLine(s) == s <==> NEWLINE !in s
    ensures NEWLINE !in FirstLine(s) && FirstLine(s) <= s
    ensures NEWLINE in s ==> |FirstLine(s)| < |s| && s[|FirstLine(s)|] == NEWLINE
  {
    if s != "" && s[0] != NEWLINE {
      FirstLineIs(s[1..]);
      assert s == [s[0]] + s[1..];
      assert NEWLINE in s <==> NEWLINE in s[1..];
    }
  }

  lemma {:induction false} HeadIs(s: string)
    ensures Head(s) <= s && DELIMITER !in Head(s) && (|Head(s)| < |s| ==> s[|Head(s)|] == DELIMITER)
  {
    if s != "" && s[0] != DELIMITER { HeadIs(s[1..]); }
  }

  predicate EndsInDelimiter(s: string) { s != "" && s[|s| - 1] == DELIMITER }

  function Trimmed(s: string): string { if EndsInDelimiter(s) then s[..|s| - 1] else s }

  lemma TrimmedBehind(h: string, rest: string)
    ensures Trimmed(h + [DELIMITER] + rest) == if rest == "" then h else h + [DELIMITER] + Trimmed(rest)
  {
    var s := h + [DELIMITER] + rest;
    if rest != "" { assert s[|s| - 1] == rest[|rest| - 1]; }
  }

  /** Joining what was split gives the text back, but for a delimiter at its very end. */
  lemma {:induction false} JoinUndoesFields(s: string)
    ensures Join(Fields(s)) == Trimmed(s)
    decreases |s|
  {
    if s != "" {
      var h := Head(s);
      HeadIs(s);
      if |h| < |s| {
        var rest := s[|h| + 1..];
        JoinUndoesFields(rest);
        assert s == h + [DELIMITER] + rest;
        TrimmedBehind(h, rest);
        JoinCons(h, Fields(rest));
        assert Fields(s) == [h] + Fields(rest);
        assert rest != "" ==> Fields(rest) != [];
      }
    }
  }

  lemma JoinCons(h: string, fields: seq<string>)
    ensures Join([h] + fields) == if fields == [] then h else h + [DELIMITER] + Join(fields)
  {
    assert ([h] + fields)[1..] == fields;
  }

  /** The script gets back exactly the items that the controller joined if and only if there is no newline in them. */
  lemma ScriptReadsItemsIff(items: seq<string>)
    requires forall i :: 0 <= i < |items| ==> Field(items[i])
    ensures ReadOptions(Join(items)) == items <==> NEWLINE !in Join(items)
  {
    var s := Join(items);
    FieldsUndoJoin(items);
    FirstLineIs(s);
    if NEWLINE in s { JoinUndoesFields(FirstLine(s)); }
  }

  lemma {:induction false} JoinHasNewline(items: seq<string>)
    ensures NEWLINE in Join(items) <==> exists i :: 0 <= i < |items| && NEWLINE in items[i]
  {
    if |items| > 1 {
      JoinHasNewline(items[1..]);
      var rest := Join(items[1..]);
      assert NEWLINE in Join(items) <==> NEWLINE in items[0] || NEWLINE in rest;
      if i :| 0 <= i < |items| && NEWLINE in items[i] { assert i > 0 ==> items[1..][i - 1] == items[i]; }
      if i :| 0 <= i < |items[1..]| && NEWLINE in items[1..][i] { assert items[i + 1] == items[1..][i]; }
    }
  }

  predicate NoNewline(options: map<string, string>) {
    forall k :: k in options ==> NEWLINE !in k && NEWLINE !in options[k]
  }

  /** For every map that passes the delimiter check and every iteration order, the script passes on exactly the k=v
      items, in that order, if and only if no key and no value contains a newline. */
  lemma OptionsArriveIff(options: map<string, string>, order: seq<string>)
    requires Iterates(order, options) && forall k :: k in options ==> Plain(k, options[k])
    ensures ReadOptions(Join(ItemsOf(order, options))) == ItemsOf(order, options) <==>
            forall k :: k in options ==> NEWLINE !in k && NEWLINE !in options[k]
  {
    var items := ItemsOf(order, options);
    forall i | 0 <= i < |items| ensures Field(items[i]) {
      assert Plain(order[i], options[order[i]]);
      assert items[i][|order[i]|] == '=';
    }
    ScriptReadsItemsIff(items);
    JoinHasNewline(items);
    forall i | 0 <= i < |items|
      ensures NEWLINE in items[i] <==> NEWLINE in order[i] || NEWLINE in options[order[i]]
    {
      ItemHasNewline(order[i], options[order[i]]);
    }
    if !NoNewline(options) {
      var k :| k in options && (NEWLINE in k || NEWLINE in options[k]);
      var i :| 0 <= i < |order| && order[i] == k;
    }
  }

  lemma ItemHasNewline(k: string, v: string)
    ensures NEWLINE in Item(k, v) <==> NEWLINE in k || NEWLINE in v
  {
    var s := Item(k, v);
    assert forall i :: 0 <= i < |k| ==> s[i] == k[i];
    assert forall i :: 0 <= i < |v| ==> s[|k| + 1 + i] == v[i];
  }
}
