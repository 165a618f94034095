/** The helpers of `tclg/functools.py`: `do`, which calls a function for its
    effect and hands back the argument, and `owner`, which builds a decorator
    that installs a function on a class under the function's own name. */
module Functools {
  import opened Wrappers
  import opened Builtins

  /** A Python function as these helpers use it: its `__name__`, what a call
      with a given argument returns or raises, and the arguments of the calls
      made to it so far, oldest first. */
  class Func<A, B, E> {
    const name: string
    const body: A -> Result<B, E>
    var calls: seq<A>

    constructor (name: string, body: A -> Result<B, E>)
      ensures this.name == name && this.body == body && calls == []
    {
      this.name := name;
      this.body := body;
      calls := [];
    }

    /** `func(arg)`: one call, logged, returning or raising what `body` says. */
    method Invoke(arg: A) returns (r: Result<B, E>)
      modifies this
      ensures calls == old(calls) + [arg]
      ensures r == body(arg)
    {
      calls := calls + [arg];
      r := body(arg);
    }
  }

  /** `do(func, arg)`: calls `func` exactly once, with `arg`, drops what it
      returns, and returns `arg` itself; an exception from `func` propagates. */
  method Do<A, B, E>(func: Func<A, B, E>, arg: A) returns (r: Result<A, E>)
    modifies func
    ensures func.calls == old(func.calls) + [arg]
    ensures r.Ok? <==> func.body(arg).Ok?
    ensures r.Ok? ==> r.value == arg
    ensures r.Err? ==> r.error == func.body(arg).error
  {
    var result := func.Invoke(arg);
    if result.Err? {
      return Err(result.error);
    }
    return Ok(arg);
  }

  /** The decorator `owner(cls)` returns: it keeps `cls` and, applied to a
      function, sets it as the attribute of `cls` named after the function. */
  class OwnerSetter {
    const cls: PyObject<object>

    constructor (cls: PyObject<object>)
      ensures this.cls == cls
    {
      this.cls := cls;
    }

    /** `setowner(func)`: `setattr(cls, func.__name__, func)`. It returns
        `()`, Python's `None`, never the function, so a name decorated with
        it is bound to `None`. An attribute `cls` refuses to set raises
        `AttributeError` and leaves `cls` as it was. */
    method Call<A, B, E>(func: Func<A, B, E>) returns (r: Result<(), AttributeError>)
      requires cls.Valid()
      modifies cls
      ensures cls.Valid()
      ensures r.Ok? <==> func.name !in cls.frozen
      ensures r.Err? ==> r.error == AttributeError(func.name)
      ensures cls.attrs == if r.Ok? then old(cls.attrs)[func.name := func] else old(cls.attrs)
      ensures r.Ok? ==> cls.GetAttr(func.name) == Ok(func)
    {
      r := cls.SetAttr(func.name, func);
    }
  }

  /** `owner(cls)`: builds the decorator; `cls` itself is not touched until
      the decorator is applied. */
  method Owner(cls: PyObject<object>) returns (setter: OwnerSetter)
    ensures fresh(setter)
    ensures setter.cls == cls
    ensures unchanged(cls)
  {
    setter := new OwnerSetter(cls);
  }

  /** Two functions installed one after the other through the same decorator
      are both found on `cls` when their names differ; with the same name the
      later one wins. */
  method OwnTwo<A, B, E>(cls: PyObject<object>, f: Func<A, B, E>, g: Func<A, B, E>)
      returns (rf: Result<(), AttributeError>, rg: Result<(), AttributeError>)
    requires cls.Valid()
    requires f.name !in cls.frozen && g.name !in cls.frozen
    modifies cls
    ensures rf.Ok? && rg.Ok?
    ensures cls.GetAttr(g.name) == Ok(g)
    ensures f.name != g.name ==> cls.GetAttr(f.name) == Ok(f)
    ensures cls.attrs == old(cls.attrs)[f.name := f][g.name := g]
  {
    var setter := Owner(cls);
    rf := setter.Call(f);
    rg := setter.Call(g);
  }
}
