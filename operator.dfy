/** The operator builders of `tclg/operator.py`: callables that remember a
    name or key (and a value) when built and, when called on an operand,
    delete or assign that attribute or item of the operand in place.

    A builder only stores its arguments, in `const` fields, so calling it
    never changes it; each call changes the operand and nothing else, lets the
    operand's own error through unchanged, and otherwise returns `()`, Python's
    `None`. */
module Operator {
  import opened Wrappers
  import opened Builtins

  /** `attrdeleter(name)` */
  class AttrDeleter {
    const name: string

    constructor (name: string)
      ensures this.name == name
    {
      this.name := name;
    }

    /** `deleter(obj)`: `delattr(obj, name)`. */
    method Call<V>(obj: PyObject<V>) returns (r: Result<(), AttributeError>)
      requires obj.Valid()
      modifies obj
      ensures obj.Valid()
      ensures r.Ok? <==> name in old(obj.attrs) && name !in obj.frozen
      ensures r.Err? ==> r.error == AttributeError(name)
      ensures obj.attrs == if r.Ok? then old(obj.attrs) - {name} else old(obj.attrs)
      ensures r.Ok? ==> obj.GetAttr(name).Err?
    {
      r := obj.DelAttr(name);
    }
  }

  /** `attrsetter(name, value)` */
  class AttrSetter<V> {
    const name: string
    const value: V

    constructor (name: string, value: V)
      ensures this.name == name && this.value == value
    {
      this.name := name;
      this.value := value;
    }

    /** `setter(obj)`: `setattr(obj, name, value)`. */
    method Call(obj: PyObject<V>) returns (r: Result<(), AttributeError>)
      requires obj.Valid()
      modifies obj
      ensures obj.Valid()
      ensures r.Ok? <==> name !in obj.frozen
      ensures r.Err? ==> r.error == AttributeError(name)
      ensures obj.attrs == if r.Ok? then old(obj.attrs)[name := value] else old(obj.attrs)
      ensures r.Ok? ==> obj.GetAttr(name) == Ok(value)
    {
      r := obj.SetAttr(name, value);
    }
  }

  /** `itemdeleter(key)` */
  class ItemDeleter<K(==)> {
    const key: K

    constructor (key: K)
      ensures this.key == key
    {
      this.key := key;
    }

    /** `deleter(obj)`: `del obj[key]`; a missing key raises `KeyError(key)`
        and leaves the mapping as it was. */
    method Call<V>(obj: Dict<K, V>) returns (r: Result<(), KeyError<K>>)
      modifies obj
      ensures r.Ok? <==> key in old(obj.items) && key !in obj.frozen
      ensures r.Err? ==> r.error == KeyError(key)
      ensures obj.items == if r.Ok? then old(obj.items) - {key} else old(obj.items)
      ensures obj.GetItem(key) == Err(KeyError(key)) || r.Err?
    {
      r := obj.DelItem(key);
    }
  }

  /** `itemsetter(key, value)` */
  class ItemSetter<K(==), V> {
    const key: K
    const value: V

    constructor (key: K, value: V)
      ensures this.key == key && this.value == value
    {
      this.key := key;
      this.value := value;
    }

    /** `setter(obj)`: `obj[key] = value`. */
    method Call(obj: Dict<K, V>) returns (r: Result<(), KeyError<K>>)
      modifies obj
      ensures r.Ok? <==> key !in obj.frozen
      ensures r.Err? ==> r.error == KeyError(key)
      ensures obj.items == if r.Ok? then old(obj.items)[key := value] else old(obj.items)
      ensures r.Ok? ==> obj.GetItem(key) == Ok(value)
    {
      r := obj.SetItem(key, value);
    }
  }

  /** An item setter applied twice leaves the mapping as one application
      does, and the second application fails exactly when the first did. */
  method ItemSetterTwice<K(==), V>(setter: ItemSetter<K, V>, obj: Dict<K, V>)
      returns (first: Result<(), KeyError<K>>, second: Result<(), KeyError<K>>)
    modifies obj
    ensures first == second
    ensures obj.items == if first.Ok? then old(obj.items)[setter.key := setter.value] else old(obj.items)
  {
    first := setter.Call(obj);
    ghost var once := obj.items;
    assert first.Ok? ==> once[setter.key := setter.value] == once;
    second := setter.Call(obj);
    assert first.Ok? ==> first.value == second.value;
  }

  /** An attribute setter applied twice leaves the object as one application
      does. */
  method AttrSetterTwice<V>(setter: AttrSetter<V>, obj: PyObject<V>)
      returns (first: Result<(), AttributeError>, second: Result<(), AttributeError>)
    requires obj.Valid()
    modifies obj
    ensures obj.Valid()
    ensures first == second
    ensures obj.attrs == if first.Ok? then old(obj.attrs)[setter.name := setter.value] else old(obj.attrs)
  {
    first := setter.Call(obj);
    ghost var once := obj.attrs;
    assert first.Ok? ==> once[setter.name := setter.value] == once;
    second := setter.Call(obj);
    assert first.Ok? ==> first.value == second.value;
  }

  /** A deleter applied a second time finds nothing to delete: the second
      call raises and the operand stays as the first call left it. */
  method ItemDeleterTwice<K(==), V>(deleter: ItemDeleter<K>, obj: Dict<K, V>)
      returns (first: Result<(), KeyError<K>>, second: Result<(), KeyError<K>>)
    modifies obj
    ensures second == Err(KeyError(deleter.key))
    ensures obj.items == if first.Ok? then old(obj.items) - {deleter.key} else old(obj.items)
  {
    first := deleter.Call(obj);
    second := deleter.Call(obj);
  }
}
