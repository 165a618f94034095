/** The four view adapters of `tclg/collections.py`.

    `AttrsItemsView` and `MutableAttrsItemsView` present a string-keyed mapping as
    an object whose attributes are the mapping's public keys; `ItemsAttrsView` and
    `MutableItemsAttrsView` present an object as a read-only or mutable mapping of
    its public attributes. A name is public when it does not start with `_`.

    A view holds a reference to the mapping or object it wraps, so the classes
    below hold a `Dict` or `PyObject` and the mutable views' methods change it in
    place. Reading through a view does not depend on which of the two classes of a
    pair it is (the mutable class inherits the reads), so the reads are functions
    of the wrapped mapping or object: `AttrNames` and `AttrLookup` for the
    attribute views, `ItemLookup`, `ItemNames` and `ItemCount` for the item views. */
module Collections {
  import opened Wrappers
  import opened Builtins

  /** `is_public`: the name does not start with an underscore. */
  function IsPublic(name: string): (public: bool)
    ensures public <==> name == [] || name[0] != '_'
  {
    !("_" <= name)
  }

  // ---------------------------------------------------------------------------
  // Construction.
  // ---------------------------------------------------------------------------

  /** The `TypeError`s a view constructor can raise. */
  datatype TypeError =
    | NotAMapping         // the argument is not a `Mapping`
    | NotAMutableMapping  // the argument is not a `MutableMapping`
    | ObjIsNone           // the wrapped object is `None`
    | NoneNotCallable     // the class's `__setattr__` or `__delattr__` is `None`

  datatype InitError = RaisesTypeError(t: TypeError) | RaisesAttributeError(a: AttributeError)

  /** `AttrsItemsView.__init__` as written: after the type check it runs
      `self._data = data`, which goes through the class's `__setattr__`, and that
      is `None`; calling it raises `TypeError`. */
  function AttrsItemsViewInitAsWritten(isMapping: bool): (r: Result<(), InitError>)
    ensures r.Err?
    ensures r.error == RaisesTypeError(if isMapping then NoneNotCallable else NotAMapping)
  {
    if !isMapping then Err(RaisesTypeError(NotAMapping))
    else Err(RaisesTypeError(NoneNotCallable))
  }

  /** `MutableAttrsItemsView.__init__` as written: `self._data = data` goes
      through the class's own `__setattr__`, which rejects the non-public name
      `_data` with `AttributeError`. */
  function MutableAttrsItemsViewInitAsWritten(isMutableMapping: bool): (r: Result<(), InitError>)
    ensures r.Err?
    ensures isMutableMapping ==> r.error == RaisesAttributeError(AttributeError("_data"))
    ensures !isMutableMapping ==> r.error == RaisesTypeError(NotAMutableMapping)
  {
    if !isMutableMapping then Err(RaisesTypeError(NotAMutableMapping))
    else if !IsPublic("_data") then Err(RaisesAttributeError(AttributeError("_data")))
    else Ok(())
  }

  /** No argument whatever lets either attribute view be constructed as written. */
  lemma AttributeViewsNeverConstructed(isMapping: bool, isMutableMapping: bool)
    ensures AttrsItemsViewInitAsWritten(isMapping) != Ok(())
    ensures MutableAttrsItemsViewInitAsWritten(isMutableMapping) != Ok(())
  {
  }

  /** `AttrsItemsView.__init__` storing the mapping past the class's own
      `__setattr__` (`object.__setattr__(self, "_data", data)`): only the type
      check can fail. */
  function AttrsItemsViewInit(isMapping: bool): (r: Result<(), InitError>)
    ensures r.Ok? <==> isMapping
    ensures r.Err? ==> r.error == RaisesTypeError(NotAMapping)
  {
    if !isMapping then Err(RaisesTypeError(NotAMapping)) else Ok(())
  }

  /** `MutableAttrsItemsView.__init__` storing the mapping past the class's own
      `__setattr__`: only the type check can fail. */
  function MutableAttrsItemsViewInit(isMutableMapping: bool): (r: Result<(), InitError>)
    ensures r.Ok? <==> isMutableMapping
    ensures r.Err? ==> r.error == RaisesTypeError(NotAMutableMapping)
  {
    if !isMutableMapping then Err(RaisesTypeError(NotAMutableMapping)) else Ok(())
  }

  // ---------------------------------------------------------------------------
  // Mapping as attributes.
  // ---------------------------------------------------------------------------

  /** `__dir__`: the public keys of the wrapped mapping. (Python's `dir()` sorts
      whatever `__dir__` returns, so only the set of names matters.) */
  function AttrNames<V>(data: Dict<string, V>): (names: set<string>)
    reads data
    ensures names <= data.items.Keys
    ensures forall n :: n in names ==> IsPublic(n)
    ensures forall n :: n in data.items && IsPublic(n) ==> n in names
  {
    set n | n in data.items && IsPublic(n)
  }

  /** `__getattr__`: a public name present in the mapping reads its value;
      a non-public name, or a key the mapping lacks, raises `AttributeError`
      carrying the name, whether or not the mapping has that key. */
  function AttrLookup<V>(data: Dict<string, V>, name: string): (r: Result<V, AttributeError>)
    reads data
    ensures r.Ok? <==> IsPublic(name) && name in data.items
    ensures r.Ok? ==> r.value == data.items[name]
    ensures r.Err? ==> r.error == AttributeError(name)
  {
    if !IsPublic(name) then Err(AttributeError(name))
    else
      match data.GetItem(name)
      case Ok(v) => Ok(v)
      case Err(_) => Err(AttributeError(name))
  }

  /** The names `dir()` lists are exactly the names attribute access can read. */
  lemma AttrNamesReadable<V>(data: Dict<string, V>, name: string)
    ensures name in AttrNames(data) <==> AttrLookup(data, name).Ok?
  {
  }

  /** Assignment or deletion of any attribute on the read-only view: the
      class sets `__setattr__` and `__delattr__` to `None`, so the call raises
      `TypeError` whatever the name and the mapping is never touched. */
  function ReadOnlyAttrUpdate(name: string): (r: Result<(), TypeError>)
    ensures r == Err(NoneNotCallable)
  {
    Err(NoneNotCallable)
  }

  /** A read-only view of a mapping as attributes. */
  class AttrsItemsView<V> {
    const data: Dict<string, V>

    /** Construction as `AttrsItemsViewInit` has it for a mapping. */
    constructor (data: Dict<string, V>)
      ensures this.data == data
    {
      this.data := data;
    }
  }

  /** A view of a mutable mapping as attributes: assignment and deletion of a
      public attribute assign and delete the key in the wrapped mapping. */
  class MutableAttrsItemsView<V> {
    const data: Dict<string, V>

    /** Construction as `MutableAttrsItemsViewInit` has it for a mutable mapping. */
    constructor (data: Dict<string, V>)
      ensures this.data == data
    {
      this.data := data;
    }

    /** `__setattr__`: a public name stores the value under that key and leaves
        every other key alone; a non-public name, or a key the mapping refuses,
        raises `AttributeError` and leaves the mapping as it was. */
    method SetAttr(name: string, value: V) returns (r: Result<(), AttributeError>)
      modifies data
      ensures r.Ok? <==> IsPublic(name) && name !in data.frozen
      ensures r.Err? ==> r.error == AttributeError(name)
      ensures data.items == if r.Ok? then old(data.items)[name := value] else old(data.items)
      ensures r.Ok? ==> AttrLookup(data, name) == Ok(value)
    {
      if !IsPublic(name) {
        return Err(AttributeError(name));
      }
      var stored := data.SetItem(name, value);
      if stored.Err? {
        return Err(AttributeError(name));
      }
      return Ok(());
    }

    /** `__delattr__`: a public name present in the mapping removes exactly that
        key; a non-public name, an absent key or a key the mapping refuses
        raises `AttributeError` and leaves the mapping as it was. */
    method DelAttr(name: string) returns (r: Result<(), AttributeError>)
      modifies data
      ensures r.Ok? <==> IsPublic(name) && name in old(data.items) && name !in data.frozen
      ensures r.Err? ==> r.error == AttributeError(name)
      ensures data.items == if r.Ok? then old(data.items) - {name} else old(data.items)
      ensures r.Ok? ==> AttrLookup(data, name).Err?
    {
      if !IsPublic(name) {
        return Err(AttributeError(name));
      }
      var deleted := data.DelItem(name);
      if deleted.Err? {
        return Err(AttributeError(name));
      }
      return Ok(());
    }
  }

  // ---------------------------------------------------------------------------
  // Object as a mapping.
  // ---------------------------------------------------------------------------

  /** `filter(is_public, names)`: the public names, in the order given. */
  function PublicNames(names: seq<string>): (r: seq<string>)
    ensures |r| <= |names|
    ensures forall n :: n in r <==> n in names && IsPublic(n)
  {
    if names == [] then []
    else if IsPublic(names[0]) then [names[0]] + PublicNames(names[1..])
    else PublicNames(names[1..])
  }

  /** `sum(map(is_public, names))`: how many of the names are public. */
  function CountPublic(names: seq<string>): (n: nat)
    ensures n <= |names|
  {
    if names == [] then 0
    else (if IsPublic(names[0]) then 1 else 0) + CountPublic(names[1..])
  }

  /** Filtering keeps the order of the names: the public names of a
      concatenation are those of each part, in turn. */
  lemma {:induction false} PublicNamesAppend(a: seq<string>, b: seq<string>)
    ensures PublicNames(a + b) == PublicNames(a) + PublicNames(b)
  {
    if a == [] {
      assert a + b == b;
    } else {
      assert a + b != [] && (a + b)[0] == a[0];
      assert (a + b)[1..] == a[1..] + b;
      PublicNamesAppend(a[1..], b);
    }
  }

  /** `__len__` agrees with `__iter__`: counting the public names gives the
      number of names iteration yields. */
  lemma {:induction false} CountIsLength(names: seq<string>)
    ensures CountPublic(names) == |PublicNames(names)|
  {
    if names != [] {
      CountIsLength(names[1..]);
    }
  }

  /** `__getitem__`: a public key reads `getattr(obj, key)`; a non-public key,
      or an attribute the object lacks, raises `KeyError` carrying the key. */
  function ItemLookup<V>(obj: PyObject<V>, key: string): (r: Result<V, KeyError<string>>)
    reads obj
    ensures r.Ok? <==> IsPublic(key) && key in obj.attrs
    ensures r.Ok? ==> r.value == obj.attrs[key]
    ensures r.Err? ==> r.error == KeyError(key)
  {
    if !IsPublic(key) then Err(KeyError(key))
    else
      match obj.GetAttr(key)
      case Ok(v) => Ok(v)
      case Err(_) => Err(KeyError(key))
  }

  /** `__iter__`: the public names of `dir(obj)`, in `dir`'s order. */
  function ItemNames<V>(obj: PyObject<V>): (r: seq<string>)
    reads obj
    ensures forall n :: n in r <==> n in obj.names && IsPublic(n)
  {
    PublicNames(obj.names)
  }

  /** `__len__`: the number of public names of `dir(obj)`. */
  function ItemCount<V>(obj: PyObject<V>): (n: nat)
    reads obj
    ensures n == |ItemNames(obj)|
  {
    CountIsLength(obj.names);
    CountPublic(obj.names)
  }

  /** Iteration yields exactly the keys that can be read, each once and in
      sorted order, so `dict(view)` is the object's public attributes. */
  lemma ItemNamesReadable<V>(obj: PyObject<V>)
    requires obj.Valid()
    ensures forall k :: k in ItemNames(obj) <==> ItemLookup(obj, k).Ok?
    ensures Sorted(ItemNames(obj))
  {
    PublicNamesSorted(obj.names);
  }

  /** Filtering a sorted listing leaves it sorted. */
  lemma {:induction false} PublicNamesSorted(names: seq<string>)
    requires Sorted(names)
    ensures Sorted(PublicNames(names))
  {
    if names != [] {
      PublicNamesSorted(names[1..]);
      var rest := PublicNames(names[1..]);
      if IsPublic(names[0]) {
        forall y | y in rest ensures Below(names[0], y) {
          var j :| 0 <= j < |names[1..]| && names[1..][j] == y;
          assert names[j + 1] == y;
        }
      }
    }
  }

  /** A read-only view of an object as a mapping. */
  class ItemsAttrsView<V> {
    const obj: PyObject<V>

    /** `__init__`: refuses `None` with `TypeError`, otherwise holds the object. */
    static method New(obj: PyObject?<V>) returns (r: Result<ItemsAttrsView<V>, TypeError>)
      ensures r.Err? <==> obj == null
      ensures r.Err? ==> r.error == ObjIsNone
      ensures r.Ok? ==> fresh(r.value) && r.value.obj == obj
    {
      if obj == null {
        return Err(ObjIsNone);
      }
      var view := new ItemsAttrsView(obj);
      return Ok(view);
    }

    constructor (obj: PyObject<V>)
      ensures this.obj == obj
    {
      this.obj := obj;
    }
  }

  /** A view of an object as a mutable mapping: item assignment and deletion of
      a public key assign and delete the attribute of that name. */
  class MutableItemsAttrsView<V> {
    const obj: PyObject<V>

    /** `__init__`: the `hasattr` checks for `__setattr__` and `__delattr__`
        hold for every Python object, so only `None` is refused. */
    static method New(obj: PyObject?<V>) returns (r: Result<MutableItemsAttrsView<V>, TypeError>)
      ensures r.Err? <==> obj == null
      ensures r.Err? ==> r.error == ObjIsNone
      ensures r.Ok? ==> fresh(r.value) && r.value.obj == obj
    {
      if obj == null {
        return Err(ObjIsNone);
      }
      var view := new MutableItemsAttrsView(obj);
      return Ok(view);
    }

    constructor (obj: PyObject<V>)
      ensures this.obj == obj
    {
      this.obj := obj;
    }

    /** `__setitem__`: a public key sets the attribute of that name, other
        attributes unchanged, and reading the key back gives the value; a
        non-public key, or an attribute the object refuses, raises `KeyError`
        and leaves the object as it was. */
    method SetItem(key: string, value: V) returns (r: Result<(), KeyError<string>>)
      requires obj.Valid()
      modifies obj
      ensures obj.Valid()
      ensures r.Ok? <==> IsPublic(key) && key !in obj.frozen
      ensures r.Err? ==> r.error == KeyError(key)
      ensures obj.attrs == if r.Ok? then old(obj.attrs)[key := value] else old(obj.attrs)
      ensures r.Ok? ==> ItemLookup(obj, key) == Ok(value) && key in ItemNames(obj)
    {
      if !IsPublic(key) {
        return Err(KeyError(key));
      }
      var stored := obj.SetAttr(key, value);
      if stored.Err? {
        return Err(KeyError(key));
      }
      return Ok(());
    }

    /** `__delitem__`: a public key removes the attribute of that name, other
        attributes unchanged; a non-public key, an absent attribute or one the
        object refuses raises `KeyError` and leaves the object as it was. */
    method DelItem(key: string) returns (r: Result<(), KeyError<string>>)
      requires obj.Valid()
      modifies obj
      ensures obj.Valid()
      ensures r.Ok? <==> IsPublic(key) && key in old(obj.attrs) && key !in obj.frozen
      ensures r.Err? ==> r.error == KeyError(key)
      ensures obj.attrs == if r.Ok? then old(obj.attrs) - {key} else old(obj.attrs)
      ensures r.Ok? ==> ItemLookup(obj, key).Err? && key !in ItemNames(obj)
    {
      if !IsPublic(key) {
        return Err(KeyError(key));
      }
      var deleted := obj.DelAttr(key);
      if deleted.Err? {
        return Err(KeyError(key));
      }
      return Ok(());
    }
  }
}
