/** The two Python collaborators every helper works against: a mutable mapping
    (Python's `MutableMapping`, of which `dict` is the usual instance) and an object
    with dynamic attributes (`getattr`, `setattr`, `delattr`, `dir`). Both are
    classes because the helpers change them in place and share them by reference. */
module Builtins {
  import opened Wrappers

  /** Python's `KeyError`, carrying the key that was not found. */
  datatype KeyError<K> = KeyError(key: K)

  /** Python's `AttributeError`, carrying the attribute name. */
  datatype AttributeError = AttributeError(name: string)

  // ---------------------------------------------------------------------------
  // The order in which `dir()` lists names: Python sorts strings by code point.
  // ---------------------------------------------------------------------------

  /** Strict lexicographic order on strings, character by character. */
  predicate Below(a: string, b: string)
    decreases |a|
  {
    if a == [] then b != []
    else b != [] && (a[0] < b[0] || (a[0] == b[0] && Below(a[1..], b[1..])))
  }

  lemma {:induction false} BelowIrreflexive(a: string)
    ensures !Below(a, a)
    decreases |a|
  {
    if a != [] {
      BelowIrreflexive(a[1..]);
    }
  }

  lemma {:induction false} BelowTransitive(a: string, b: string, c: string)
    requires Below(a, b) && Below(b, c)
    ensures Below(a, c)
    decreases |a|
  {
    if a != [] && a[0] == b[0] && b[0] == c[0] {
      BelowTransitive(a[1..], b[1..], c[1..]);
    }
  }

  lemma {:induction false} BelowTotal(a: string, b: string)
    requires a != b
    ensures Below(a, b) || Below(b, a)
    decreases |a|
  {
    if a != [] && b != [] && a[0] == b[0] {
      assert a == [a[0]] + a[1..] && b == [b[0]] + b[1..];
      BelowTotal(a[1..], b[1..]);
    }
  }

  /** Strictly increasing, hence without repetition. */
  ghost predicate Sorted(s: seq<string>) {
    forall i, j :: 0 <= i < j < |s| ==> Below(s[i], s[j])
  }

  /** Adds `x` at its place in a sorted listing (no change if it is listed already). */
  function Insert(s: seq<string>, x: string): (r: seq<string>)
    requires Sorted(s)
    ensures Sorted(r)
    ensures forall y :: y in r <==> y in s || y == x
    decreases |s|
  {
    if s == [] then [x]
    else if x == s[0] then s
    else if Below(x, s[0]) then
      assert forall j :: 0 <= j < |s| ==> Below(x, s[j]) by {
        forall j | 0 <= j < |s| ensures Below(x, s[j]) {
          if j > 0 { BelowTransitive(x, s[0], s[j]); }
        }
      }
      [x] + s
    else
      BelowTotal(x, s[0]);
      var rest := Insert(s[1..], x);
      assert forall y :: y in rest ==> Below(s[0], y) by {
        forall y | y in rest ensures Below(s[0], y) {
          if y != x {
            var j :| 0 <= j < |s[1..]| && s[1..][j] == y;
            assert s[j + 1] == y;
          }
        }
      }
      [s[0]] + rest
  }

  /** Drops `x` from a sorted listing. */
  function Remove(s: seq<string>, x: string): (r: seq<string>)
    requires Sorted(s)
    ensures Sorted(r)
    ensures forall y :: y in r <==> y in s && y != x
    decreases |s|
  {
    if s == [] then []
    else
      var rest := Remove(s[1..], x);
      if s[0] == x then rest
      else
        assert forall y :: y in rest ==> Below(s[0], y) by {
          forall y | y in rest ensures Below(s[0], y) {
            var j :| 0 <= j < |s[1..]| && s[1..][j] == y;
            assert s[j + 1] == y;
          }
        }
        [s[0]] + rest
  }

  // ---------------------------------------------------------------------------
  // A mutable mapping.
  // ---------------------------------------------------------------------------

  /** A mutable mapping. `frozen` holds the keys whose assignment or deletion the
      mapping refuses by raising `KeyError`; for a plain `dict` it is empty. */
  class Dict<K(==), V> {
    var items: map<K, V>
    const frozen: set<K>

    constructor (items: map<K, V>, frozen: set<K>)
      ensures this.items == items && this.frozen == frozen
    {
      this.items := items;
      this.frozen := frozen;
    }

    /** `d[k]` */
    function GetItem(k: K): (r: Result<V, KeyError<K>>)
      reads this
      ensures r.Ok? <==> k in items
      ensures r.Ok? ==> r.value == items[k]
      ensures r.Err? ==> r.error == KeyError(k)
    {
      if k in items then Ok(items[k]) else Err(KeyError(k))
    }

    /** `d[k] = v` */
    method SetItem(k: K, v: V) returns (r: Result<(), KeyError<K>>)
      modifies this
      ensures r.Ok? <==> k !in frozen
      ensures r.Err? ==> r.error == KeyError(k)
      ensures items == if r.Ok? then old(items)[k := v] else old(items)
    {
      if k in frozen {
        return Err(KeyError(k));
      }
      items := items[k := v];
      return Ok(());
    }

    /** `del d[k]` */
    method DelItem(k: K) returns (r: Result<(), KeyError<K>>)
      modifies this
      ensures r.Ok? <==> k in old(items) && k !in frozen
      ensures r.Err? ==> r.error == KeyError(k)
      ensures items == if r.Ok? then old(items) - {k} else old(items)
    {
      if k !in items || k in frozen {
        return Err(KeyError(k));
      }
      items := items - {k};
      return Ok(());
    }
  }

  // ---------------------------------------------------------------------------
  // An object with dynamic attributes.
  // ---------------------------------------------------------------------------

  /** An object as attribute lookup sees it: `attrs` maps every name `getattr`
      finds to its value, and `names` is what `dir(obj)` returns, the same names
      sorted. `frozen` holds the names whose assignment or deletion the object
      refuses with `AttributeError` (read-only properties, missing slots). */
  class PyObject<V> {
    var attrs: map<string, V>
    var names: seq<string>
    const frozen: set<string>

    ghost predicate Valid()
      reads this
    {
      && Sorted(names)
      && forall n :: n in names <==> n in attrs
    }

    /** An object with no attributes yet. */
    constructor (frozen: set<string>)
      ensures Valid()
      ensures attrs == map[] && this.frozen == frozen
    {
      attrs := map[];
      names := [];
      this.frozen := frozen;
    }

    /** `getattr(obj, name)` */
    function GetAttr(name: string): (r: Result<V, AttributeError>)
      reads this
      ensures r.Ok? <==> name in attrs
      ensures r.Ok? ==> r.value == attrs[name]
      ensures r.Err? ==> r.error == AttributeError(name)
    {
      if name in attrs then Ok(attrs[name]) else Err(AttributeError(name))
    }

    /** `setattr(obj, name, v)` */
    method SetAttr(name: string, v: V) returns (r: Result<(), AttributeError>)
      requires Valid()
      modifies this
      ensures Valid()
      ensures r.Ok? <==> name !in frozen
      ensures r.Err? ==> r.error == AttributeError(name)
      ensures attrs == if r.Ok? then old(attrs)[name := v] else old(attrs)
    {
      if name in frozen {
        return Err(AttributeError(name));
      }
      attrs := attrs[name := v];
      names := Insert(names, name);
      return Ok(());
    }

    /** `delattr(obj, name)` */
    method DelAttr(name: string) returns (r: Result<(), AttributeError>)
      requires Valid()
      modifies this
      ensures Valid()
      ensures r.Ok? <==> name in old(attrs) && name !in frozen
      ensures r.Err? ==> r.error == AttributeError(name)
      ensures attrs == if r.Ok? then old(attrs) - {name} else old(attrs)
    {
      if name !in attrs || name in frozen {
        return Err(AttributeError(name));
      }
      attrs := attrs - {name};
      names := Remove(names, name);
      return Ok(());
    }
  }
}
