/** The two scope helpers of `tclg/contextlib.py`, used as `with` blocks.

    `exitable` lets a block leave early: `exit()` raises a token that only the
    issuing scope suppresses, so the token passes through any inner scopes and
    ends exactly the block it belongs to. `catch` suppresses and keeps an
    exception of one of the kinds it was given.

    A block's ending is an `Outcome`: it finished normally or raised an exception
    object. Python compares exception objects by identity (`is`), as Dafny
    compares references, so exceptions are objects of class `Exc`. */
module Contextlib {
  import opened Wrappers

  /** An exception class, named by its chain of classes from `BaseException`
      down to itself (single inheritance). */
  type Kind = seq<string>

  /** `isinstance`: an exception of kind `k` is an instance of class `base`
      exactly when `base` lies on `k`'s chain. */
  predicate IsSubkind(k: Kind, base: Kind) {
    base != [] && base <= k
  }

  const BaseExceptionKind: Kind := ["BaseException"]
  const ExceptionKind: Kind := ["BaseException", "Exception"]
  /** `exitable.__ContextExit`, derived from `BaseException` and not `Exception`. */
  const ContextExitKind: Kind := ["BaseException", "exitable.__ContextExit"]

  /** An exception object. */
  class Exc {
    const kind: Kind

    constructor (kind: Kind)
      ensures this.kind == kind
    {
      this.kind := kind;
    }
  }

  /** How a `with` block ended: normally, or by raising `exc`. */
  datatype Outcome = Normal | Raised(exc: Exc)

  // ---------------------------------------------------------------------------
  // exitable
  // ---------------------------------------------------------------------------

  /** `exitable`: a scope holding its own exit token for its whole life. */
  class Exitable {
    const token: Exc

    ghost predicate Valid() {
      token.kind == ContextExitKind
    }

    /** `__init__`: a new token, distinct from every token that already exists. */
    constructor ()
      ensures Valid() && fresh(token)
    {
      token := new Exc(ContextExitKind);
    }

    /** `__enter__`: the value bound by `as` is the scope itself. */
    method Enter() returns (scope: Exitable)
      ensures scope == this
    {
      scope := this;
    }

    /** `__exit__`: the block's ending is suppressed when nothing was raised or
        when what was raised is this scope's own token (by identity). */
    predicate HandleExit(o: Outcome): (suppressed: bool)
      ensures o.Normal? ==> suppressed
      ensures o.Raised? ==> (suppressed <==> o.exc == token)
    {
      o.Normal? || o.exc == token
    }

    /** `exit()`: never returns normally; it raises this scope's own token,
        which this scope's `__exit__` then suppresses. */
    function Exit(): (o: Outcome)
      ensures o.Raised? && o.exc == token
      ensures HandleExit(o)
    {
      Raised(token)
    }
  }

  /** Each scope has a token no other scope in the list has. */
  ghost predicate DistinctTokens(scopes: seq<Exitable>) {
    forall i, j :: 0 <= i < j < |scopes| ==> scopes[i].token != scopes[j].token
  }

  /** Nested `with exitable()` blocks, innermost first, left with outcome `o`:
      each scope's `__exit__` in turn either suppresses `o` (execution resumes
      after that scope's block) or lets it propagate outward. The result is the
      index of the scope after whose block execution resumes, or `|scopes|`
      when `o` leaves all of them. */
  function Unwind(scopes: seq<Exitable>, o: Outcome): (k: nat)
    ensures k <= |scopes|
    ensures k < |scopes| ==> scopes[k].HandleExit(o)
    ensures forall j :: 0 <= j < k ==> !scopes[j].HandleExit(o)
  {
    if scopes == [] then 0
    else if scopes[0].HandleExit(o) then 0
    else 1 + Unwind(scopes[1..], o)
  }

  /** Calling `exit()` of the `k`-th enclosing scope from the innermost block
      passes unsuppressed through every scope inside it and is suppressed by
      exactly that scope. */
  lemma NestedExit(scopes: seq<Exitable>, k: nat)
    requires DistinctTokens(scopes)
    requires k < |scopes|
    ensures Unwind(scopes, scopes[k].Exit()) == k
  {
  }

  /** An exception that is no scope's token leaves every exitable scope. */
  lemma OtherExceptionsPropagate(scopes: seq<Exitable>, e: Exc)
    requires forall i :: 0 <= i < |scopes| ==> scopes[i].token != e
    ensures Unwind(scopes, Raised(e)) == |scopes|
  {
  }

  /** The docstring's nesting: inside `with exitable() as inner`, itself inside
      `with exitable() as outer`, the block calls `outer.exit()`. Execution
      resumes after the outer block (index 1), not the inner one. */
  method ExitOuterFromInner() returns (resumedAfter: nat)
    ensures resumedAfter == 1
  {
    var outer := new Exitable();
    var inner := new Exitable();
    var scopes := [inner, outer];
    resumedAfter := Unwind(scopes, outer.Exit());
    NestedExit(scopes, 1);
  }

  // ---------------------------------------------------------------------------
  // catch
  // ---------------------------------------------------------------------------

  /** A positional argument of `catch(...)`: an exception class, an exception
      instance, or any other value. */
  datatype CatchArg = ClassArg(kind: Kind) | InstanceArg(exc: Exc) | OtherArg

  /** `AssertionError` from the constructor's check; `TypeError` from
      `isinstance` given something that is not a class as its second argument. */
  datatype CatchError = AssertionError | TypeError

  /** `any(isinstance(e, t) for t in types)` with classes for `types`. */
  function AnyMatches(types: seq<Kind>, k: Kind): (b: bool)
    ensures b <==> exists i :: 0 <= i < |types| && IsSubkind(k, types[i])
  {
    if types == [] then false
    else IsSubkind(k, types[0]) || AnyMatches(types[1..], k)
  }

  /** `catch.__init__` as written: it asserts that every argument is an
      instance of `Exception`, so only exception instances get through. */
  function CatchInitAsWritten(args: seq<CatchArg>): (r: Result<seq<CatchArg>, CatchError>)
    ensures r.Ok? <==> forall i :: 0 <= i < |args| ==> args[i].InstanceArg? && IsSubkind(args[i].exc.kind, ExceptionKind)
    ensures r.Ok? ==> r.value == args
    ensures r.Err? ==> r.error == AssertionError
  {
    if forall i :: 0 <= i < |args| ==> args[i].InstanceArg? && IsSubkind(args[i].exc.kind, ExceptionKind)
    then Ok(args)
    else Err(AssertionError)
  }

  /** The match in `catch.__exit__` as written, over the stored arguments in
      order: a class matches by `isinstance`; anything else makes `isinstance`
      raise `TypeError`, which replaces the block's exception. */
  function MatchesAsWritten(types: seq<CatchArg>, e: Exc): (r: Result<bool, CatchError>)
    ensures types == [] ==> r == Ok(false)
    ensures types != [] && !types[0].ClassArg? ==> r == Err(TypeError)
    ensures r == Ok(true) ==> exists i :: 0 <= i < |types| && types[i].ClassArg? && IsSubkind(e.kind, types[i].kind)
  {
    if types == [] then Ok(false)
    else
      match types[0]
      case ClassArg(k) => if IsSubkind(e.kind, k) then Ok(true) else MatchesAsWritten(types[1..], e)
      case _ => Err(TypeError)
  }

  /** As written, `catch(ValueError)` fails its own assertion, and a `catch`
      that passes it never captures anything: with no arguments every
      exception propagates, with any argument `__exit__` raises `TypeError`. */
  lemma CatchAsWrittenNeverCaptures(args: seq<CatchArg>, e: Exc, k: Kind)
    ensures CatchInitAsWritten([ClassArg(k)]).Err?
    ensures CatchInitAsWritten(args).Ok? ==>
      MatchesAsWritten(args, e) == if args == [] then Ok(false) else Err(TypeError)
  {
    assert [ClassArg(k)][0] == ClassArg(k);
  }

  /** `catch.__init__` checking that every argument is a class deriving from
      `Exception`, the kinds `__exit__` then matches against. */
  function CatchInit(args: seq<CatchArg>): (r: Result<seq<Kind>, CatchError>)
    ensures r.Ok? <==> forall i :: 0 <= i < |args| ==> args[i].ClassArg? && IsSubkind(args[i].kind, ExceptionKind)
    ensures r.Ok? ==> |r.value| == |args| && forall i :: 0 <= i < |args| ==> r.value[i] == args[i].kind
    ensures r.Err? ==> r.error == AssertionError
  {
    if args == [] then Ok([])
    else if !(args[0].ClassArg? && IsSubkind(args[0].kind, ExceptionKind)) then Err(AssertionError)
    else
      match CatchInit(args[1..])
      case Ok(rest) => Ok([args[0].kind] + rest)
      case Err(e) => Err(e)
  }

  /** With the check corrected, `catch(ValueError)` is accepted and captures a
      raised `ValueError`. */
  lemma CatchInitAcceptsClasses(k: Kind, e: Exc)
    requires IsSubkind(k, ExceptionKind) && IsSubkind(e.kind, k)
    ensures CatchInit([ClassArg(k)]) == Ok([k])
    ensures AnyMatches([k], e.kind)
  {
    var args := [ClassArg(k)];
    assert args[1..] == [] && CatchInit(args[1..]) == Ok([]);
    assert [args[0].kind] + [] == [k];
    assert IsSubkind(e.kind, [k][0]);
  }

  /** `catch`: suppresses and keeps an exception of one of `types`. */
  class Catch {
    const types: seq<Kind>
    var value: Option<Exc>

    /** `__init__` after the check: no exception kept yet. */
    constructor (types: seq<Kind>)
      ensures this.types == types && value == None
    {
      this.types := types;
      value := None;
    }

    /** `catch(*args)`: fails the assertion unless every argument is an
        exception class. */
    static method New(args: seq<CatchArg>) returns (r: Result<Catch, CatchError>)
      ensures r.Ok? <==> CatchInit(args).Ok?
      ensures r.Err? ==> r.error == AssertionError
      ensures r.Ok? ==> fresh(r.value) && r.value.types == CatchInit(args).value && r.value.value == None
    {
      match CatchInit(args)
      case Err(e) =>
        return Err(e);
      case Ok(types) =>
        var scope := new Catch(types);
        return Ok(scope);
    }

    /** `__enter__`: the value bound by `as` is the scope itself; the kept
        exception is not reset. */
    method Enter() returns (scope: Catch)
      ensures scope == this
    {
      scope := this;
    }

    /** `__exit__`: an exception of one of `types` is kept in `value` and
        suppressed; any other propagates and leaves `value` alone, as does a
        block that raised nothing, so a reused scope keeps what it caught
        earlier. */
    method HandleExit(o: Outcome) returns (suppressed: bool)
      modifies this
      ensures suppressed <==> o.Normal? || AnyMatches(types, o.exc.kind)
      ensures value == if o.Raised? && AnyMatches(types, o.exc.kind) then Some(o.exc) else old(value)
    {
      if o.Normal? {
        return true;
      }
      if AnyMatches(types, o.exc.kind) {
        value := Some(o.exc);
        return true;
      }
      return false;
    }

    /** `__bool__`: true exactly when an exception has been kept. */
    predicate Truthy()
      reads this
    {
      value != None
    }
  }

  /** `catch()` with no kinds propagates every exception. */
  lemma EmptyCatchPropagates(e: Exc)
    ensures !AnyMatches([], e.kind)
  {
  }

  /** A `catch` whose kinds all derive from `Exception` never intercepts an
      `exitable`'s token, which derives from `BaseException` only: `exit()`
      passes through it to its own scope. */
  lemma CatchLetsExitThrough(types: seq<Kind>, scope: Exitable)
    requires scope.Valid()
    requires forall i :: 0 <= i < |types| ==> IsSubkind(types[i], ExceptionKind)
    ensures !AnyMatches(types, scope.Exit().exc.kind)
  {
    forall i | 0 <= i < |types|
      ensures !IsSubkind(ContextExitKind, types[i])
    {
      assert types[i][1] == "Exception";
    }
  }

  /** The docstring's pattern with a reused scope: a `ValueError` raised in a
      first block is caught and kept; a second block that raises nothing
      leaves the scope truthy with the same exception. */
  method CatchThenReuse() returns (kept: bool)
    ensures kept
  {
    var valueError := ExceptionKind + ["ValueError"];
    var scope := new Catch([valueError]);
    var e := new Exc(valueError);
    assert IsSubkind(e.kind, scope.types[0]);
    var caught := scope.HandleExit(Raised(e));
    var quiet := scope.HandleExit(Normal);
    kept := caught && quiet && scope.Truthy() && scope.value == Some(e);
  }
}
