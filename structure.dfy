/**
 * The generic block tree of the text format: a named node with ordered,
 * possibly repeated key/value properties and ordered child nodes.
 * Parsing and printing the text form are not part of this model; the
 * accessors below are the ones the map reader and writer use.
 */
module Structure {
  import opened Wrappers
  import opened Text

  type Property = (string, string)

  datatype Node = Node(name: string, props: seq<Property>, children: seq<Node>)

  /** `new GenericStructure(name)`. */
  function Empty(name: string): Node
  {
    Node(name, [], [])
  }

  /** The value of the first property named `key`, if any. */
  function Lookup(ps: seq<Property>, key: string): (r: Option<string>)
    ensures r.Some? <==> exists i :: 0 <= i < |ps| && ps[i].0 == key
  {
    if ps == [] then None
    else if ps[0].0 == key then Some(ps[0].1)
    else Lookup(ps[1..], key)
  }

  /**
   * `node[key] = value`: replaces the value of the first property named
   * `key`, or appends the property when there is none.
   */
  function Assign(ps: seq<Property>, key: string, value: string): (r: seq<Property>)
    ensures Lookup(r, key) == Some(value)
    ensures forall k :: k != key ==> Lookup(r, k) == Lookup(ps, k)
    ensures Lookup(ps, key).None? ==> r == ps + [(key, value)]
    ensures Lookup(ps, key).Some? ==> |r| == |ps|
  {
    if ps == [] then [(key, value)]
    else if ps[0].0 == key then [(key, value)] + ps[1..]
    else
      var rest := Assign(ps[1..], key, value);
      assert ps == [ps[0]] + ps[1..];
      [ps[0]] + rest
  }

  /** All values of the properties named `key`, in order. */
  function Values(ps: seq<Property>, key: string): (r: seq<string>)
    ensures |r| <= |ps|
  {
    if ps == [] then []
    else (if ps[0].0 == key then [ps[0].1] else []) + Values(ps[1..], key)
  }

  lemma {:induction false} ValuesAppend(ps: seq<Property>, qs: seq<Property>, key: string)
    ensures Values(ps + qs, key) == Values(ps, key) + Values(qs, key)
  {
    if ps == [] {
      assert ps + qs == qs;
    } else {
      assert (ps + qs)[0] == ps[0];
      assert (ps + qs)[1..] == ps[1..] + qs;
      ValuesAppend(ps[1..], qs, key);
    }
  }

  /** The distinct property keys, in order of first occurrence. */
  function Keys(ps: seq<Property>): (r: seq<string>)
    ensures Distinct(r)
    ensures forall k :: k in r <==> Lookup(ps, k).Some?
  {
    if ps == [] then []
    else
      var rest := RemoveAll(Keys(ps[1..]), ps[0].0);
      ConsDistinct(ps[0].0, rest);
      [ps[0].0] + rest
  }

  predicate Distinct(s: seq<string>)
  {
    forall i, j :: 0 <= i < j < |s| ==> s[i] != s[j]
  }

  lemma ConsDistinct(x: string, s: seq<string>)
    requires Distinct(s) && x !in s
    ensures Distinct([x] + s)
  {
    var r := [x] + s;
    forall i, j | 0 <= i < j < |r| ensures r[i] != r[j] {
      assert r[j] == s[j - 1];
      if i > 0 { assert r[i] == s[i - 1]; }
    }
  }

  function RemoveAll(s: seq<string>, x: string): (r: seq<string>)
    ensures forall k :: k in r <==> k in s && k != x
    ensures Distinct(s) ==> Distinct(r)
  {
    if s == [] then []
    else if s[0] == x then RemoveAll(s[1..], x)
    else
      var rest := RemoveAll(s[1..], x);
      if Distinct(s) then
        assert Distinct(s[1..]) by {
          forall i, j | 0 <= i < j < |s[1..]| ensures s[1..][i] != s[1..][j] {
            assert s[1..][i] == s[i + 1] && s[1..][j] == s[j + 1];
          }
        }
        assert s[0] !in s[1..] by {
          forall k | 0 <= k < |s[1..]| ensures s[1..][k] != s[0] { assert s[1..][k] == s[k + 1]; }
        }
        ConsDistinct(s[0], rest);
        [s[0]] + rest
      else [s[0]] + rest
  }

  function Get(n: Node, key: string): Option<string>
  {
    Lookup(n.props, key)
  }

  function Set(n: Node, key: string, value: string): Node
  {
    n.(props := Assign(n.props, key, value))
  }

  /** `AddProperty(key, value)`: appends, even when `key` is already present. */
  function AddProperty(n: Node, key: string, value: string): Node
  {
    n.(props := n.props + [(key, value)])
  }

  function AddChild(n: Node, child: Node): Node
  {
    n.(children := n.children + [child])
  }

  /** `GetAllPropertyValues(key)`. */
  function AllValues(n: Node, key: string): seq<string>
  {
    Values(n.props, key)
  }

  /** `GetPropertyKeys()`. */
  function PropertyKeys(n: Node): seq<string>
  {
    Keys(n.props)
  }

  /** `GetChildren(name)`: the children with that name, in order. */
  function GetChildren(n: Node, name: string): seq<Node>
  {
    Named(n.children, name)
  }

  /** A block whose one child is not named `name` has no children of that name. */
  lemma LoneChildNamed(n: Node, child: Node, name: string)
    requires n.children == [] && child.name != name
    ensures GetChildren(AddChild(n, child), name) == []
  {
    assert AddChild(n, child).children == [child];
  }

  function Named(cs: seq<Node>, name: string): (r: seq<Node>)
    ensures |r| <= |cs|
    ensures forall c :: c in r ==> c in cs && c.name == name
    ensures forall c :: c in cs && c.name == name ==> c in r
  {
    if cs == [] then []
    else (if cs[0].name == name then [cs[0]] else []) + Named(cs[1..], name)
  }

  lemma {:induction false} NamedAppend(cs: seq<Node>, ds: seq<Node>, name: string)
    ensures Named(cs + ds, name) == Named(cs, name) + Named(ds, name)
  {
    if cs == [] {
      assert cs + ds == ds;
    } else {
      assert (cs + ds)[0] == cs[0];
      assert (cs + ds)[1..] == cs[1..] + ds;
      NamedAppend(cs[1..], ds, name);
    }
  }

  /** `GetChildren(name).FirstOrDefault()`. */
  function FirstChild(n: Node, name: string): (r: Option<Node>)
    ensures r.Some? <==> exists c :: c in n.children && c.name == name
    ensures r.Some? ==> r.value in n.children && r.value.name == name
  {
    var cs := GetChildren(n, name);
    if cs == [] then None
    else
      assert cs[0] in n.children && cs[0].name == name;
      Some(cs[0])
  }

  /** `GetChildren("editor").FirstOrDefault() ?? new GenericStructure("editor")`. */
  function EditorOf(n: Node): (e: Node)
    ensures e.name == "editor"
  {
    FirstChild(n, "editor").GetOr(Empty("editor"))
  }

  /**
   * `PropertyLong(key)` / `PropertyInteger(key, default)`: the first value
   * named `key` read as a decimal integer, or `default` when the key is
   * absent or its value does not parse.
   */
  function PropertyInteger(n: Node, key: string, default: int): (r: int)
    ensures Get(n, key).None? ==> r == default
    ensures forall v :: Get(n, key) == Some(v) && ParseInt(v).Some? ==> r == ParseInt(v).value
  {
    match Get(n, key)
    case None => default
    case Some(v) => ParseInt(v).GetOr(default)
  }

  function PropertyLong(n: Node, key: string): int
  {
    PropertyInteger(n, key, 0)
  }

  /** Setting one key leaves the value of every other key as it was. */
  lemma SetOther(n: Node, key: string, v: string, other: string)
    requires other != key
    ensures Get(Set(n, key, v), other) == Get(n, other)
  {
  }

  /** An integer written with `node[key] = i.ToString()` reads back as `i`. */
  lemma SetIntegerReadsBack(n: Node, key: string, i: int, default: int)
    ensures PropertyInteger(Set(n, key, IntToString(i)), key, default) == i
  {
    IntRoundTrip(i);
  }
}
