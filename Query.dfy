/**
 * `QueryParameters`: an ordered name-to-value map that the endpoints fill in and
 * the request services turn into an HTTP query and a cache key.
 */
module Query {
  import opened Wrappers
  import Php
  import Text
  import Collections

  /** A value handed to `add`; `Null` stands for PHP's null, which `add` skips. */
  datatype Value = Null | Bool(b: bool) | Int(i: int) | FloatNum(f: Php.Float) | Str(s: string)

  /** The stored parameters, in insertion order. */
  type Params = seq<(string, Value)>

  predicate HasName(ps: Params, name: string)
  {
    exists i :: 0 <= i < |ps| && ps[i].0 == name
  }

  /** Each name occurs at most once, as in a PHP array. */
  predicate UniqueNames(ps: Params)
  {
    forall i, j :: 0 <= i < j < |ps| ==> ps[i].0 != ps[j].0
  }

  /** Null is never stored. */
  predicate NoNulls(ps: Params)
  {
    forall i :: 0 <= i < |ps| ==> !ps[i].1.Null?
  }

  /** The map view: the value stored under a name, if any. */
  function Lookup(ps: Params, name: string): (r: Option<Value>)
    ensures r.None? <==> !HasName(ps, name)
    ensures r.Some? ==> exists i :: 0 <= i < |ps| && ps[i] == (name, r.value)
  {
    if ps == [] then None
    else if ps[0].0 == name then Some(ps[0].1)
    else
      var r := Lookup(ps[1..], name);
      assert forall i :: 1 <= i < |ps| ==> ps[i] == ps[1..][i - 1];
      assert HasName(ps[1..], name) ==> HasName(ps, name);
      r
  }

  /** `$params[$name] = $value`: overwrite the entry in place when the name is stored, append it otherwise. */
  function Put(ps: Params, name: string, v: Value): Params
  {
    if HasName(ps, name) then
      seq(|ps|, i requires 0 <= i < |ps| => if ps[i].0 == name then (name, v) else ps[i])
    else ps + [(name, v)]
  }

  /** `add`: store a non-null value under its name; null leaves the parameters as they were. */
  function Added(ps: Params, name: string, v: Value): Params
  {
    if v.Null? then ps else Put(ps, name, v)
  }

  /** Storing a value makes it the one read back under that name and changes no other name's value. */
  /** At a position already stored, `Put` overwrites only the pair with that name. */
  lemma PutAt(ps: Params, name: string, v: Value, i: nat)
    requires i < |ps|
    ensures i < |Put(ps, name, v)| && Put(ps, name, v)[i] == if ps[i].0 == name then (name, v) else ps[i]
  {
  }

  lemma PutLookup(ps: Params, name: string, v: Value, other: string)
    requires UniqueNames(ps)
    ensures Lookup(Put(ps, name, v), name) == Some(v)
    ensures other != name ==> Lookup(Put(ps, name, v), other) == Lookup(ps, other)
  {
    var r := Put(ps, name, v);
    PutKeepsUnique(ps, name, v);
    if HasName(ps, name) {
      var i :| 0 <= i < |ps| && ps[i].0 == name;
      PutAt(ps, name, v, i);
    } else {
      assert r[|ps|] == (name, v);
    }
    LookupUnique(r, name, v);
    if other != name {
      match Lookup(ps, other)
      case None =>
        assert !HasName(r, other);
      case Some(w) =>
        var i :| 0 <= i < |ps| && ps[i] == (other, w);
        PutAt(ps, name, v, i);
        LookupUnique(r, other, w);
    }
  }

  /** In a map with unique names, a stored pair is what Lookup finds. */
  lemma {:induction false} LookupUnique(ps: Params, name: string, v: Value)
    requires UniqueNames(ps) && (exists i :: 0 <= i < |ps| && ps[i] == (name, v))
    ensures Lookup(ps, name) == Some(v)
  {
    var i :| 0 <= i < |ps| && ps[i] == (name, v);
    if i > 0 {
      assert ps[1..][i - 1] == (name, v);
      LookupUnique(ps[1..], name, v);
    }
  }

  /** A stored name keeps its position and a new name goes last, so names stay unique. */
  lemma PutKeepsUnique(ps: Params, name: string, v: Value)
    requires UniqueNames(ps)
    ensures UniqueNames(Put(ps, name, v))
    ensures Collections.Firsts(Put(ps, name, v)) ==
            if HasName(ps, name) then Collections.Firsts(ps) else Collections.Firsts(ps) + [name]
  {
    var r := Put(ps, name, v);
    if HasName(ps, name) {
      assert forall i :: 0 <= i < |ps| ==> r[i].0 == ps[i].0;
    } else {
      assert forall i :: 0 <= i < |ps| ==> r[i] == ps[i];
    }
  }

  /** `add` with null stores nothing; any other value, including 0, false and "", is stored. */
  lemma AddedSkipsOnlyNull(ps: Params, name: string, v: Value)
    requires UniqueNames(ps) && NoNulls(ps)
    ensures v.Null? ==> Added(ps, name, v) == ps
    ensures !v.Null? ==> Lookup(Added(ps, name, v), name) == Some(v)
    ensures UniqueNames(Added(ps, name, v)) && NoNulls(Added(ps, name, v))
  {
    if !v.Null? {
      PutLookup(ps, name, v, name);
      PutKeepsUnique(ps, name, v);
    }
  }

  /** `sprintf('%s', $value)`: how each stored value is written. */
  function ValueText(v: Value): string
  {
    match v
    case Null => ""
    case Bool(b) => if b then "1" else ""
    case Int(i) => Text.IntText(i)
    case FloatNum(f) => f.repr
    case Str(s) => s
  }

  /** `sprintf('&%s=%s', $key, $value)` for one stored parameter. */
  function Pair(p: (string, Value)): (r: string)
    ensures |r| >= 2 && r[0] == '&'
  {
    "&" + p.0 + "=" + ValueText(p.1)
  }

  /** What `encode` appends to the prefix: one `&name=value` per stored parameter, first to last. */
  function Suffix(ps: Params): string
  {
    if ps == [] then "" else Pair(ps[0]) + Suffix(ps[1..])
  }

  /** The suffix grows at its end as parameters are visited in order. */
  lemma {:induction false} SuffixSnoc(ps: Params, p: (string, Value))
    ensures Suffix(ps + [p]) == Suffix(ps) + Pair(p)
  {
    if ps == [] {
      assert Suffix([p]) == Pair(p) + Suffix([]);
    } else {
      assert (ps + [p])[1..] == ps[1..] + [p];
      SuffixSnoc(ps[1..], p);
    }
  }

  /** With nothing stored the suffix is empty; otherwise it starts with the first parameter's pair. */
  lemma {:induction false} SuffixShape(ps: Params)
    ensures ps == [] <==> Suffix(ps) == ""
    ensures ps != [] ==> Suffix(ps)[..|Pair(ps[0])|] == Pair(ps[0])
  {
  }

  /** The HTTP client options `getQuery` builds: none when nothing is stored, otherwise one `query` entry. */
  function QueryOptions(ps: Params): (r: seq<(string, Params)>)
    ensures r == [] <==> ps == []
    ensures r != [] ==> r == [("query", ps)]
  {
    if ps == [] then [] else [("query", ps)]
  }

  /** What one `add` appends to parameters that do not hold the name yet: nothing for null. */
  function Optional(name: string, v: Value): Params
  {
    if v.Null? then [] else [(name, v)]
  }

  /** A nullable argument as the value handed to `add`. */
  function OptionalInt(o: Option<int>): Value
  {
    match o
    case None => Null
    case Some(i) => Int(i)
  }

  function OptionalFloat(o: Option<Php.Float>): Value
  {
    match o
    case None => Null
    case Some(f) => FloatNum(f)
  }

  function OptionalText(o: Option<string>): Value
  {
    match o
    case None => Null
    case Some(s) => Str(s)
  }

  /** Adding a name not stored yet appends it, unless the value is null. */
  lemma AddedFresh(ps: Params, name: string, v: Value)
    requires !HasName(ps, name)
    ensures Added(ps, name, v) == ps + Optional(name, v)
  {
  }

  /** Appending a name not stored yet keeps the names unique and null-free. */
  lemma AppendFresh(ps: Params, name: string, v: Value)
    requires UniqueNames(ps) && NoNulls(ps) && !HasName(ps, name)
    ensures UniqueNames(ps + Optional(name, v)) && NoNulls(ps + Optional(name, v))
  {
    AddedFresh(ps, name, v);
    AddedSkipsOnlyNull(ps, name, v);
  }

  /**
   * The PHP array the parameters stand for, order forgotten: each stored name
   * mapped to the value `Lookup` finds for it.
   */
  function AsMap(ps: Params): (m: map<string, Value>)
    ensures forall name :: name in m <==> HasName(ps, name)
    ensures forall name :: name in m ==> Lookup(ps, name) == Some(m[name])
  {
    if ps == [] then map[]
    else
      var rest := AsMap(ps[1..]);
      assert forall i :: 1 <= i < |ps| ==> ps[i] == ps[1..][i - 1];
      assert forall name :: HasName(ps[1..], name) ==> HasName(ps, name);
      assert forall name :: HasName(ps, name) && name != ps[0].0 ==> HasName(ps[1..], name) by {
        forall name | HasName(ps, name) && name != ps[0].0
          ensures HasName(ps[1..], name)
        {
          var i :| 0 <= i < |ps| && ps[i].0 == name;
          assert ps[1..][i - 1].0 == name;
        }
      }
      rest[ps[0].0 := ps[0].1]
  }

  /** `add` on the array view: a non-null value is stored under the name. */
  function MapAdded(m: map<string, Value>, name: string, v: Value): map<string, Value>
  {
    if v.Null? then m else m[name := v]
  }

  /** Appending a name not stored yet adds that one entry to the array, unless the value is null. */
  lemma {:induction false} AppendAsMap(ps: Params, name: string, v: Value)
    requires !HasName(ps, name)
    ensures AsMap(ps + Optional(name, v)) == MapAdded(AsMap(ps), name, v)
  {
    var qs := ps + Optional(name, v);
    if ps == [] {
      assert qs == Optional(name, v);
      if !v.Null? {
        assert qs[1..] == [];
      }
    } else {
      assert qs[0] == ps[0];
      assert qs[1..] == ps[1..] + Optional(name, v);
      assert !HasName(ps[1..], name);
      AppendAsMap(ps[1..], name, v);
      assert ps[0].0 != name;
    }
  }

  /**
   * One `add` of a name not stored yet, seen three ways: as the sequence grown by
   * one entry (or none for null), as `Added`, and on the array view.
   */
  lemma AddStep(ps: Params, m: map<string, Value>, name: string, v: Value)
    requires UniqueNames(ps) && NoNulls(ps) && AsMap(ps) == m && name !in m
    ensures var qs := ps + Optional(name, v);
      && UniqueNames(qs) && NoNulls(qs) && AsMap(qs) == MapAdded(m, name, v) && qs == Added(ps, name, v)
  {
    AppendAsMap(ps, name, v);
    AppendFresh(ps, name, v);
    AddedFresh(ps, name, v);
  }

  /** The parameters a builder holds, or None for PHP's null. */
  function ParamsOf(parameters: QueryParameters?): Option<Params>
    reads parameters
  {
    if parameters == null then None else Some(parameters.params)
  }

  class QueryParameters {
    var params: Params

    ghost predicate Valid()
      reads this
    {
      UniqueNames(params) && NoNulls(params)
    }

    constructor()
      ensures params == [] && Valid()
    {
      params := [];
    }

    /** `add`: store the value unless it is null, and return this same builder so that calls chain. */
    method Add(name: string, value: Value) returns (self: QueryParameters)
      requires Valid()
      modifies this
      ensures self == this && Valid()
      ensures params == Added(old(params), name, value)
    {
      AddedSkipsOnlyNull(params, name, value);
      if !value.Null? {
        params := Put(params, name, value);
      }
      self := this;
    }

    /** `getQuery`. */
    function GetQuery(): seq<(string, Params)>
      reads this
    {
      QueryOptions(params)
    }

    /** `encode`: the prefix followed by `&name=value` for each stored parameter, in insertion order. */
    method Encode(prefix: string) returns (s: string)
      ensures s == prefix + Suffix(params)
    {
      s := prefix;
      var i := 0;
      while i < |params|
        invariant 0 <= i <= |params|
        invariant s == prefix + Suffix(params[..i])
      {
        SuffixSnoc(params[..i], params[i]);
        assert params[..i + 1] == params[..i] + [params[i]];
        s := s + Pair(params[i]);
        i := i + 1;
      }
      assert params[..i] == params;
    }
  }
}
