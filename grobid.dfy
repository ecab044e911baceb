/** The response-reshaping helpers of the GROBID connector: they turn the
    parsed JSON of the extraction service into the flat lists the connector
    stores (author display names, the ordered section ids, and one
    title/content pair per section). */
module Grobid {
  import opened Json

  // ---------------------------------------------------------------------
  // create_authors
  // ---------------------------------------------------------------------

  /** The record is a dict whose `full_name` is present and truthy. */
  predicate HasTruthyName(rec: Value) {
    HasKey(rec, "full_name") && Truthy(rec.fields["full_name"])
  }

  /** One display name per author record: its `full_name` when that is
      truthy, otherwise None. The source gets there by subscripting
      inside a bare `try`/`except`, so a record that is not a dict, or has no
      `full_name`, never raises. */
  method CreateAuthors(x: Value) returns (r: Result<seq<Value>>)
    ensures r.Ok? <==> Iterable(x)
    ensures !Iterable(x) ==> r == Err(TypeError)
    ensures x.Arr? ==> r.Ok? && |r.value| == |x.items|
    ensures x.Arr? ==> forall i :: 0 <= i < |x.items| && HasTruthyName(x.items[i]) ==>
                          r.value[i] == x.items[i].fields["full_name"]
    ensures x.Arr? ==> forall i :: 0 <= i < |x.items| && !HasTruthyName(x.items[i]) ==>
                          r.value[i] == Null
    ensures x.Str? ==> r == Ok(seq(|x.s|, _ => Null))
    ensures x.Obj? ==> r == Ok(seq(|x.fields|, _ => Null))
    ensures r.Ok? ==> forall i :: 0 <= i < |r.value| ==> r.value[i] == Null || Truthy(r.value[i])
  {
    var elems :- Iterate(x);
    var authors: seq<Value> := [];
    for i := 0 to |elems|
      invariant |authors| == i
      invariant forall j :: 0 <= j < i && HasTruthyName(elems[j]) ==>
                  authors[j] == elems[j].fields["full_name"]
      invariant forall j :: 0 <= j < i && !HasTruthyName(elems[j]) ==> authors[j] == Null
    {
      var name: Value;
      match Subscript(elems[i], Str("full_name")) {
        case Ok(v) => name := if Truthy(v) then v else Null;
        case Err(_) => name := Null;
      }
      authors := authors + [name];
    }
    if !x.Arr? {
      // a string yields one-character strings and a dict yields its keys:
      // subscripting a string with "full_name" always fails
      assert forall j :: 0 <= j < |elems| ==> elems[j].Str?;
      assert authors == seq(|elems|, _ => Null);
    }
    return Ok(authors);
  }

  // ---------------------------------------------------------------------
  // get_value_nested_dict
  // ---------------------------------------------------------------------

  /** Subscripting `d` by each key of `path` in turn, stopping at the first
      subscript that raises. */
  function Lookup(d: Value, path: seq<Value>): Result<Value>
    decreases |path|
  {
    if path == [] then Ok(d)
    else match Subscript(d, path[0])
      case Err(e) => Err(e)
      case Ok(v) => Lookup(v, path[1..])
  }

  /** Following `p + q` is following `p`, then `q` from where `p` ended. */
  lemma {:induction false} LookupAppend(d: Value, p: seq<Value>, q: seq<Value>)
    ensures Lookup(d, p + q) ==
            match Lookup(d, p)
            case Err(e) => Err(e)
            case Ok(v) => Lookup(v, q)
    decreases |p|
  {
    if p != [] {
      assert (p + q)[0] == p[0];
      assert (p + q)[1..] == p[1..] + q;
      match Subscript(d, p[0])
      case Err(_) =>
      case Ok(v) => LookupAppend(v, p[1..], q);
    } else {
      assert p + q == q;
    }
  }

  /** The walk stops at the first key that is missing at its level: if the
      first `i` keys lead to `v` and `v[path[i]]` raises, the whole lookup
      raises that same error, whatever keys follow. */
  lemma LookupStopsAtFirstFailure(d: Value, path: seq<Value>, i: nat)
    requires i < |path|
    requires Lookup(d, path[..i]).Ok?
    requires Subscript(Lookup(d, path[..i]).value, path[i]).Err?
    ensures Lookup(d, path) == Err(Subscript(Lookup(d, path[..i]).value, path[i]).error)
  {
    assert path == path[..i] + path[i..];
    LookupAppend(d, path[..i], path[i..]);
    assert path[i..][0] == path[i];
  }

  /** A path made only of string keys. */
  function StrKeys(ks: seq<string>): seq<Value> {
    seq(|ks|, i requires 0 <= i < |ks| => Str(ks[i]))
  }

  /** Descending through nested dicts only: each level must be a dict
      holding the next key. */
  function Dig(d: Value, ks: seq<string>): Result<Value>
    decreases |ks|
  {
    if ks == [] then Ok(d)
    else if !d.Obj? then Err(TypeError)
    else if ks[0] !in d.fields then Err(KeyError(Str(ks[0])))
    else Dig(d.fields[ks[0]], ks[1..])
  }

  /** On a path of string keys, Python's subscripting is exactly nested
      dict lookup, with the same KeyError or TypeError where it fails. */
  lemma {:induction false} LookupStringPath(d: Value, ks: seq<string>)
    ensures Lookup(d, StrKeys(ks)) == Dig(d, ks)
    decreases |ks|
  {
    if ks != [] {
      assert StrKeys(ks)[1..] == StrKeys(ks[1..]);
      if HasKey(d, ks[0]) {
        LookupStringPath(d.fields[ks[0]], ks[1..]);
      }
    }
  }

  /** `for level in key: d = d[level]`. */
  method GetValueNestedDict(d: Value, key: seq<Value>) returns (r: Result<Value>)
    ensures key == [] ==> r == Ok(d)
    ensures r == Lookup(d, key)
  {
    var cur := d;
    for i := 0 to |key|
      invariant Lookup(d, key) == Lookup(cur, key[i..])
    {
      assert key[i..][1..] == key[i + 1..];
      cur :- Subscript(cur, key[i]);
    }
    return Ok(cur);
  }

  // ---------------------------------------------------------------------
  // extract_structure
  // ---------------------------------------------------------------------

  /** `j` is the first element of `a` that is not a dict holding `k`. */
  ghost predicate FirstWithout(a: seq<Value>, k: string, j: int) {
    0 <= j < |a| && !HasKey(a[j], k) && forall i :: 0 <= i < j ==> HasKey(a[i], k)
  }

  /** The `_id` of every entry of `x['structure']`, in order. */
  method ExtractStructure(x: Value) returns (r: Result<seq<Value>>)
    ensures !HasKey(x, "structure") ==> r == Err(MissingKeyError(x, "structure"))
    ensures HasKey(x, "structure") && !Iterable(x.fields["structure"]) ==> r == Err(TypeError)
    ensures HasKey(x, "structure") && x.fields["structure"].Arr? ==>
              var a := x.fields["structure"].items;
              (r.Ok? <==> forall i :: 0 <= i < |a| ==> HasKey(a[i], "_id")) &&
              (r.Ok? ==> |r.value| == |a| && forall i :: 0 <= i < |a| ==> r.value[i] == a[i].fields["_id"]) &&
              (r.Err? ==> exists j :: FirstWithout(a, "_id", j) && r.error == MissingKeyError(a[j], "_id"))
    ensures HasKey(x, "structure") && x.fields["structure"].Str? ==>
              r == if x.fields["structure"].s == [] then Ok([]) else Err(TypeError)
    ensures HasKey(x, "structure") && x.fields["structure"].Obj? ==>
              r == if x.fields["structure"].fields == map[] then Ok([]) else Err(TypeError)
  {
    var s :- Subscript(x, Str("structure"));
    var elems :- Iterate(s);
    var ids: seq<Value> := [];
    for i := 0 to |elems|
      invariant |ids| == i
      invariant forall j :: 0 <= j < i ==> HasKey(elems[j], "_id") && ids[j] == elems[j].fields["_id"]
      invariant !s.Arr? ==> i == 0
    {
      var id := Subscript(elems[i], Str("_id"));
      if id.Err? {
        assert FirstWithout(elems, "_id", i);
        return Err(id.error);
      }
      ids := ids + [id.value];
    }
    return Ok(ids);
  }

  // ---------------------------------------------------------------------
  // extract_sections
  // ---------------------------------------------------------------------

  /** One stored section: the `{'title': ..., 'content': ...}` dict. */
  datatype Section = Section(title: Value, content: Value)

  /** The key tuple `("content", name, field)`. */
  function SectionPath(name: Value, field: string): seq<Value> {
    [Str("content"), name, Str(field)]
  }

  /** Both lookups for `name` succeed. */
  ghost predicate Resolves(d: Value, name: Value) {
    Lookup(d, SectionPath(name, "title")).Ok? && Lookup(d, SectionPath(name, "content")).Ok?
  }

  /** The error the first failing lookup for `name` raises (title first). */
  ghost function SectionError(d: Value, name: Value): Error
    requires !Resolves(d, name)
  {
    if Lookup(d, SectionPath(name, "title")).Err? then Lookup(d, SectionPath(name, "title")).error
    else Lookup(d, SectionPath(name, "content")).error
  }

  /** `j` is the first name whose section cannot be looked up. */
  ghost predicate FirstUnresolved(d: Value, names: seq<Value>, j: int) {
    0 <= j < |names| && !Resolves(d, names[j]) && forall i :: 0 <= i < j ==> Resolves(d, names[i])
  }

  /** For a string name, the section lookups are `d['content'][name][field]`
      on nested dicts: they succeed exactly when each level is a dict with
      the key, and then give that field. */
  lemma SectionField(d: Value, name: string, field: string)
    ensures Lookup(d, SectionPath(Str(name), field)).Ok? <==>
              HasKey(d, "content") && HasKey(d.fields["content"], name) &&
              HasKey(d.fields["content"].fields[name], field)
    ensures Lookup(d, SectionPath(Str(name), field)).Ok? ==>
              Lookup(d, SectionPath(Str(name), field)).value ==
              d.fields["content"].fields[name].fields[field]
  {
    var ks := ["content", name, field];
    assert SectionPath(Str(name), field) == StrKeys(ks);
    LookupStringPath(d, ks);
    assert ks[1..] == [name, field];
    if HasKey(d, "content") {
      var c := d.fields["content"];
      assert Dig(d, ks) == Dig(c, [name, field]);
      assert [name, field][1..] == [field];
      if HasKey(c, name) {
        var e := c.fields[name];
        assert Dig(c, [name, field]) == Dig(e, [field]);
        assert [field][1..] == [];
        if HasKey(e, field) {
          assert Dig(e, [field]) == Ok(e.fields[field]);
        } else {
          assert Dig(e, [field]).Err?;
        }
      } else {
        assert Dig(c, [name, field]).Err?;
      }
    } else {
      assert Dig(d, ks).Err?;
    }
  }

  /** One `{title, content}` pair per name, in the order of `names`. */
  method ExtractSections(d: Value, names: seq<Value>) returns (r: Result<seq<Section>>)
    ensures r.Ok? <==> forall i :: 0 <= i < |names| ==> Resolves(d, names[i])
    ensures r.Ok? ==> |r.value| == |names|
    ensures r.Ok? ==> forall i :: 0 <= i < |names| ==>
              r.value[i] == Section(Lookup(d, SectionPath(names[i], "title")).value,
                                    Lookup(d, SectionPath(names[i], "content")).value)
    ensures r.Err? ==> exists j :: FirstUnresolved(d, names, j) && r.error == SectionError(d, names[j])
  {
    var sections: seq<Section> := [];
    for i := 0 to |names|
      invariant |sections| == i
      invariant forall j :: 0 <= j < i ==> Resolves(d, names[j])
      invariant forall j :: 0 <= j < i ==>
                  sections[j] == Section(Lookup(d, SectionPath(names[j], "title")).value,
                                         Lookup(d, SectionPath(names[j], "content")).value)
    {
      var title := GetValueNestedDict(d, SectionPath(names[i], "title"));
      if title.Err? {
        assert FirstUnresolved(d, names, i);
        return Err(title.error);
      }
      var content := GetValueNestedDict(d, SectionPath(names[i], "content"));
      if content.Err? {
        assert FirstUnresolved(d, names, i);
        return Err(content.error);
      }
      sections := sections + [Section(title.value, content.value)];
    }
    return Ok(sections);
  }
}
