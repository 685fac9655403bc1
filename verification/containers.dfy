/** Key lookup in `pyhipp.core.DataDict`: a mapping whose key may be a path 'a/b/c' that
    descends through nested `DataDict`s one segment at a time.

    The key is split at every '/' as Python's `str.split('/')` does. Each segment must be a
    key of the mapping reached so far, and every segment but the last must lead to a nested
    mapping. The value found is returned as stored: an int stays an int, a str a str, and a
    list is returned whole.
 */
module Containers {
  import opened Wrappers

  /** A stored value. */
  datatype Value =
    | Int(i: int)
    | Str(s: string)
    | List(items: seq<Value>)
    | Dict(entries: map<string, Value>)

  // ---------------------------------------------------------------------------------------
  // Key paths

  /** `key.split('/')`: the segments between slashes, empty ones included. */
  function Split(key: string): (r: seq<string>)
    ensures |r| >= 1
    ensures forall i :: 0 <= i < |r| ==> '/' !in r[i]
    ensures '/' !in key ==> r == [key]
    decreases |key|
  {
    if |key| == 0 then [""]
    else
      var rest := Split(key[1..]);
      if key[0] == '/' then [""] + rest
      else
        assert '/' !in [key[0]] + rest[0];
        assert [key[0]] + key[1..] == key;
        assert '/' !in key ==> '/' !in key[1..];
        [[key[0]] + rest[0]] + rest[1..]
  }

  /** `'/'.join(parts)`. */
  function JoinPath(parts: seq<string>): (k: string)
    requires |parts| >= 1
    decreases |parts|
  {
    if |parts| == 1 then parts[0] else parts[0] + "/" + JoinPath(parts[1..])
  }

  /** Splitting then joining gives the key back. */
  lemma {:induction false} JoinSplit(key: string)
    ensures JoinPath(Split(key)) == key
    decreases |key|
  {
    if |key| > 0 {
      var rest := Split(key[1..]);
      JoinSplit(key[1..]);
      if key[0] == '/' {
        assert ([""] + rest)[1..] == rest;
      } else if |rest| > 1 {
        assert ([[key[0]] + rest[0]] + rest[1..])[1..] == rest[1..];
        assert rest[1..][1..] == rest[2..];
        assert JoinPath(rest) == rest[0] + "/" + JoinPath(rest[1..]);
        assert key == [key[0]] + key[1..];
      } else {
        assert key == [key[0]] + key[1..];
      }
    }
  }

  /** A segment without '/' followed by a slash splits off as the first segment. */
  lemma {:induction false} SplitAtSlash(a: string, rest: string)
    requires '/' !in a
    ensures Split(a + "/" + rest) == [a] + Split(rest)
    decreases |a|
  {
    if |a| == 0 {
      assert a + "/" + rest == "/" + rest;
      assert ("/" + rest)[1..] == rest;
    } else {
      var k := a + "/" + rest;
      assert k[0] == a[0];
      assert k[1..] == a[1..] + "/" + rest;
      SplitAtSlash(a[1..], rest);
      assert [a[0]] + a[1..] == a;
    }
  }

  /** Joining parts free of '/' then splitting gives the parts back. */
  lemma {:induction false} SplitJoin(parts: seq<string>)
    requires |parts| >= 1
    requires forall i :: 0 <= i < |parts| ==> '/' !in parts[i]
    ensures Split(JoinPath(parts)) == parts
    decreases |parts|
  {
    if |parts| > 1 {
      SplitJoin(parts[1..]);
      SplitAtSlash(parts[0], JoinPath(parts[1..]));
      assert [parts[0]] + parts[1..] == parts;
    }
  }

  // ---------------------------------------------------------------------------------------
  // Lookup

  /** Follows the segments from the mapping `d`. */
  function Descend(d: map<string, Value>, path: seq<string>): (r: Result<Value>)
    requires |path| >= 1
    ensures |path| == 1 ==> r == (if path[0] in d then Success(d[path[0]]) else Failure(KeyError(path[0])))
    ensures r.Failure? ==> (r.error.KeyError? && r.error.key in path) || (r.error.NotADict? && r.error.segment in path)
    decreases |path|
  {
    var k := path[0];
    if k !in d then Failure(KeyError(k))
    else if |path| == 1 then Success(d[k])
    else if !d[k].Dict? then Failure(NotADict(k))
    else
      var r := Descend(d[k].entries, path[1..]);
      assert r.Failure? ==> r.error.KeyError? ==> r.error.key in path;
      assert r.Failure? ==> r.error.NotADict? ==> r.error.segment in path;
      r
  }

  /** `DataDict.__getitem__(key)`. */
  function Get(d: map<string, Value>, key: string): (r: Result<Value>)
    ensures r.Failure? ==> r.error.KeyError? || r.error.NotADict?
  {
    Descend(d, Split(key))
  }

  /** A key without '/' is an ordinary lookup, returning the stored value unchanged. */
  lemma FlatLookup(d: map<string, Value>, key: string)
    requires '/' !in key
    ensures Get(d, key) == if key in d then Success(d[key]) else Failure(KeyError(key))
  {
  }

  /** 'a/rest' looks up 'rest' inside the mapping stored at 'a'. */
  lemma PathLookup(d: map<string, Value>, a: string, rest: string)
    requires '/' !in a
    ensures Get(d, a + "/" + rest) ==
      if a !in d then Failure(KeyError(a))
      else if !d[a].Dict? then Failure(NotADict(a))
      else Get(d[a].entries, rest)
  {
    SplitAtSlash(a, rest);
    assert ([a] + Split(rest))[1..] == Split(rest);
  }

  /** A key that names a chain of nested mappings reaches the innermost value. */
  lemma {:induction false} NestedLookup(d: map<string, Value>, parts: seq<string>, v: Value)
    requires |parts| >= 1
    requires forall i :: 0 <= i < |parts| ==> '/' !in parts[i]
    requires Reaches(d, parts, v)
    ensures Get(d, JoinPath(parts)) == Success(v)
    decreases |parts|
  {
    SplitJoin(parts);
    DescendReaches(d, parts, v);
  }

  /** Following `parts` from `d` through nested mappings ends at `v`. */
  predicate Reaches(d: map<string, Value>, parts: seq<string>, v: Value)
    requires |parts| >= 1
    decreases |parts|
  {
    parts[0] in d
    && if |parts| == 1 then d[parts[0]] == v
       else d[parts[0]].Dict? && Reaches(d[parts[0]].entries, parts[1..], v)
  }

  lemma {:induction false} DescendReaches(d: map<string, Value>, parts: seq<string>, v: Value)
    requires |parts| >= 1
    requires Reaches(d, parts, v)
    ensures Descend(d, parts) == Success(v)
    decreases |parts|
  {
    if |parts| > 1 {
      DescendReaches(d[parts[0]].entries, parts[1..], v);
    }
  }

  // ---------------------------------------------------------------------------------------
  // Example

  /** {'a': 1, 'b': '2', 'c': {'d': 3, 'e': 4}}. */
  function Example(): map<string, Value>
  {
    map["a" := Int(1), "b" := Str("2"), "c" := Dict(map["d" := Int(3), "e" := Int(4)])]
  }

  /** Flat lookups keep the stored type, and 'c/d' and 'c/e' reach the nested ints. */
  lemma ExampleLookups()
    ensures Get(Example(), "a") == Success(Int(1))
    ensures Get(Example(), "b") == Success(Str("2"))
    ensures Get(Example(), "c/d") == Success(Int(3))
    ensures Get(Example(), "c/e") == Success(Int(4))
  {
    FlatLookup(Example(), "a");
    FlatLookup(Example(), "b");
    PathLookup(Example(), "c", "d");
    assert "c" + "/" + "d" == "c/d";
    FlatLookup(Example()["c"].entries, "d");
    PathLookup(Example(), "c", "e");
    assert "c" + "/" + "e" == "c/e";
    FlatLookup(Example()["c"].entries, "e");
  }

  /** The list [4, 5, ..., 16]. */
  function Run(): seq<Value>
  {
    seq(13, i => Int(i + 4))
  }

  /** {'a': 1, 'b': 2, 'c': {'d': 3, 'e': [4, ..., 16]}, 'e': {'d': 3, 'e': [4, ..., 16]}}:
      two nested mappings with the same inner keys. */
  function ExampleTwo(): map<string, Value>
  {
    var inner := Dict(map["d" := Int(3), "e" := List(Run())]);
    map["a" := Int(1), "b" := Int(2), "c" := inner, "e" := inner]
  }

  /** 'c/e' returns the nested list whole, and 'e/d' is resolved inside 'e', not 'c'. */
  lemma ExampleTwoLookups()
    ensures Get(ExampleTwo(), "c/e") == Success(List(Run()))
    ensures Get(ExampleTwo(), "e/d") == Success(Int(3))
  {
    var d := ExampleTwo();
    PathLookup(d, "c", "e");
    assert "c" + "/" + "e" == "c/e";
    FlatLookup(d["c"].entries, "e");
    PathLookup(d, "e", "d");
    assert "e" + "/" + "d" == "e/d";
    FlatLookup(d["e"].entries, "d");
  }
}
