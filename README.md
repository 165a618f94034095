# tclg core helpers in Dafny

This project models the small helper library `tclg`, a set of extensions to the
Python standard library, and proves properties of the model. It covers five
parts of the library:

- **The view adapters** (`tclg/collections.py`, module `Collections`). These
  present a string-keyed mapping as an object whose attributes are the public
  keys, or an object as a mapping of its public attributes. There is a
  read-only and a mutable form of each. A name is public when it does not start
  with `_`.
- **The scope helpers** (`tclg/contextlib.py`, module `Contextlib`):
  - `exitable` lets a `with` block end early, even from inside nested
    `exitable` blocks.
  - `catch` suppresses and keeps an exception of the classes it was given.
- **The directory helpers** (`tclg/pathlib.py`, modules `FsPrimitives` and
  `Pathlib`): `mkdir`, `rmdir`, `rmdirs` and `rm`. They run over an abstract
  filesystem.
- **The operator builders** (`tclg/operator.py`, module `Operator`):
  `attrdeleter`, `attrsetter`, `itemdeleter` and `itemsetter`.
- **The functional helpers** (`tclg/functools.py`, module `Functools`): `do`
  and `owner`.

Supporting modules:

- `Wrappers` holds `Option` and `Result`. A Python `raise` becomes an `Err`;
  a return becomes an `Ok`. `Ok(())` stands for a function that returns
  `None`.
- `Builtins` models what the helpers call into.
  - `Dict` is a Python mutable mapping.
  - `PyObject` is an object with dynamic attributes. Its `names` field is what
    `dir(obj)` returns: the attribute names, sorted.
  - Both classes carry a `frozen` set of keys or names whose assignment or
    deletion they refuse. This models mappings and objects that raise
    (read-only properties, for example).

State that the Python code changes in place is held in classes, and their
methods say what they modify:

- the wrapped mapping or object;
- `catch.value`;
- the filesystem;
- an operand of an operator builder;
- a class given to `owner`.

Each state-changing method is specified in one of two ways. Either its
`ensures` states the new state outright, or it ties the result and the new
state to a specification function. Lemmas prove the properties of those
functions.

The filesystem is a map from paths to node kinds:

- A path is its list of components below a fixed base. The base is `/`, or
  `.` for a relative path, and is written as the empty path.
- The invariant `IsTree` says that the base is a directory and that the parent
  of every entry is a directory.
- The base can never be removed.
- A symbolic link is an entry of its own that exists and is not a directory.

`catch.__enter__` returns the scope without resetting the kept exception, so a
reused `catch` whose new block raises nothing stays truthy.

Where the code departs from what its own annotations and docstrings describe,
the model follows the code:

- `catch` is documented as catching exception types
  (`tclg/contextlib.py:68`) and annotates `types: Sequence[type]` (`:91`), but
  its assertion accepts only exception instances; see Findings.
- The attribute views are documented as views of a mapping
  (`tclg/collections.py:28`, `:52`), but as written neither can be
  constructed; see Findings.

## Model

| member | source | states |
|---|---|---|
| Collections.IsPublic | tclg/collections.py:19-20 | a name is public exactly when it is empty or its first character is not `_` |
| Collections.AttrsItemsViewInitAsWritten | tclg/collections.py:30-33 | as written, construction always raises `TypeError`: either the argument is not a mapping, or `self._data = ...` calls the `None` `__setattr__` |
| Collections.MutableAttrsItemsViewInitAsWritten | tclg/collections.py:54-61 | as written, construction always raises: `TypeError` for a non-mutable mapping, otherwise `AttributeError("_data")` from the class's own `__setattr__` |
| Collections.AttributeViewsNeverConstructed | tclg/collections.py:30-61 | no argument lets either attribute view be constructed as written |
| Collections.AttrsItemsViewInit | tclg/collections.py:30-33 | corrected construction succeeds exactly for a mapping, and otherwise raises `TypeError` |
| Collections.MutableAttrsItemsViewInit | tclg/collections.py:54-57 | corrected construction succeeds exactly for a mutable mapping, and otherwise raises `TypeError` |
| Collections.AttrNames | tclg/collections.py:35-36 | `__dir__` lists exactly the public keys of the held mapping |
| Collections.AttrLookup | tclg/collections.py:38-44 | `__getattr__` succeeds exactly for a public name the mapping holds, and gives `mapping[name]`; an underscore name or an absent key raises `AttributeError` carrying the name |
| Collections.AttrNamesReadable | tclg/collections.py:35-44 | a name is listed by `__dir__` exactly when `__getattr__` succeeds on it |
| Collections.ReadOnlyAttrUpdate | tclg/collections.py:46-47 | assignment or deletion on the read-only view always raises `TypeError` |
| Collections.MutableAttrsItemsView.SetAttr | tclg/collections.py:59-65 | a public name the mapping accepts is stored with every other key unchanged, and reads back as the value; an underscore name or a refused key raises `AttributeError(name)` and leaves the mapping untouched |
| Collections.MutableAttrsItemsView.DelAttr | tclg/collections.py:67-73 | a public name that is present removes exactly that key; an underscore name, an absent key or a refused key raises `AttributeError(name)` and leaves the mapping untouched |
| Collections.PublicNames | tclg/collections.py:93-94 | the filter keeps exactly the public names and no more names than it was given |
| Collections.PublicNamesAppend | tclg/collections.py:93-94 | filtering keeps order: the public names of a concatenation are those of each part, in turn |
| Collections.PublicNamesSorted | tclg/collections.py:93-94 | filtering a sorted `dir()` listing leaves it sorted |
| Collections.CountPublic | tclg/collections.py:96-97 | the count of public names is at most the number of names |
| Collections.CountIsLength | tclg/collections.py:93-97 | the count `__len__` computes equals the number of names `__iter__` yields |
| Collections.ItemLookup | tclg/collections.py:85-91 | a public key reads the attribute of that name; an underscore key or a missing attribute raises `KeyError(key)` |
| Collections.ItemNames | tclg/collections.py:93-94 | iteration yields exactly the public names of `dir(obj)` |
| Collections.ItemCount | tclg/collections.py:96-97 | `len(view)` equals the number of names iteration yields |
| Collections.ItemNamesReadable | tclg/collections.py:85-94 | a key is yielded by iteration exactly when looking it up succeeds, and iteration is in sorted order without repeats |
| Collections.ItemsAttrsView.New | tclg/collections.py:80-83 | construction raises `TypeError` exactly for `None`, and otherwise holds the object itself |
| Collections.MutableItemsAttrsView.New | tclg/collections.py:104-109 | construction raises `TypeError` exactly for `None`, because the `hasattr` checks hold for every object; otherwise it holds the object itself |
| Collections.MutableItemsAttrsView.SetItem | tclg/collections.py:111-117 | a public key the object accepts sets that attribute with the others unchanged, and the key then reads back and is listed; an underscore key or a refused attribute raises `KeyError(key)` and leaves the object untouched |
| Collections.MutableItemsAttrsView.DelItem | tclg/collections.py:119-125 | a public key naming a present, deletable attribute removes exactly that attribute, and the key is then neither readable nor listed; otherwise `KeyError(key)` is raised and the object is untouched |
| Contextlib.Exitable.constructor | tclg/contextlib.py:54-55 | each scope gets a token of class `__ContextExit` that is fresh, so it is distinct from every other scope's token |
| Contextlib.Exitable.Enter | tclg/contextlib.py:57-58 | entering returns the scope itself |
| Contextlib.Exitable.HandleExit | tclg/contextlib.py:60-61 | `__exit__` suppresses a normal ending, and an exception exactly when it is this scope's own token, by identity; anything else, another scope's token included, propagates |
| Contextlib.Exitable.Exit | tclg/contextlib.py:60-64 | `exit()` never returns normally: it raises this scope's own token, which this scope's `__exit__` suppresses |
| Contextlib.Unwind | tclg/contextlib.py:60-61 | through nested scopes, an outcome is suppressed by the first scope whose `__exit__` accepts it, and by none before that one |
| Contextlib.NestedExit | tclg/contextlib.py:8-12 | calling the `k`-th enclosing scope's `exit()` passes every inner scope and is suppressed exactly by that scope |
| Contextlib.OtherExceptionsPropagate | tclg/contextlib.py:60-61 | an exception that is no scope's token, including another instance's token, leaves every scope |
| Contextlib.ExitOuterFromInner | tclg/contextlib.py:8-12 | calling `outer.exit()` inside an inner `exitable` resumes after the outer block |
| Contextlib.AnyMatches | tclg/contextlib.py:105 | the match holds exactly when the exception is an instance of one of the classes |
| Contextlib.CatchInitAsWritten | tclg/contextlib.py:94-97 | as written, the assertion accepts exactly a list of `Exception` instances and otherwise raises `AssertionError` |
| Contextlib.MatchesAsWritten | tclg/contextlib.py:105 | as written, with no types nothing matches; a non-class first type makes `isinstance` raise `TypeError`; a match needs a class |
| Contextlib.CatchAsWrittenNeverCaptures | tclg/contextlib.py:94-108 | as written, `catch(SomeError)` fails its assertion, and a `catch` that passes it never captures: with no arguments everything propagates, otherwise `__exit__` raises `TypeError` |
| Contextlib.CatchInit | tclg/contextlib.py:94-97 | the corrected check accepts exactly a list of classes deriving from `Exception` and keeps them in order; otherwise it raises `AssertionError` |
| Contextlib.CatchInitAcceptsClasses | tclg/contextlib.py:94-108 | with the corrected check, `catch(SomeError)` is accepted and matches a raised `SomeError` |
| Contextlib.Catch.constructor | tclg/contextlib.py:94-97 | a new `catch` keeps its types and starts with `value` set to `None` |
| Contextlib.Catch.New | tclg/contextlib.py:94-97 | construction succeeds exactly when the corrected check passes; the new scope has those types and no kept exception |
| Contextlib.Catch.Enter | tclg/contextlib.py:99-100 | entering returns the scope itself and leaves `value` alone |
| Contextlib.Catch.HandleExit | tclg/contextlib.py:102-108 | `__exit__` suppresses exactly a normal ending or an exception of one of the types; a matching exception is kept in `value`; anything else leaves `value` unchanged |
| Contextlib.EmptyCatchPropagates | tclg/contextlib.py:102-108 | `catch()` with no types propagates every exception |
| Contextlib.CatchLetsExitThrough | tclg/contextlib.py:51-64 | a `catch` of `Exception` subclasses never intercepts an `exitable` token, which derives from `BaseException` only |
| Contextlib.CatchThenReuse | tclg/contextlib.py:99-111 | a caught `ValueError` is kept after a later block that raises nothing, and the scope stays truthy |
| FsPrimitives.RmdirStep | tclg/pathlib.py:80 | `Path.rmdir` succeeds exactly on an empty directory other than the base and removes just it; otherwise nothing changes; the tree invariant is kept |
| FsPrimitives.UnlinkStep | tclg/pathlib.py:140 | `Path.unlink` removes a file or symlink; an absent path under a non-directory raises `NotADirectoryError` whatever `missing_ok` says; any other absent path is a no-op with `missing_ok` and `FileNotFoundError` without; a directory raises; the tree invariant is kept |
| FsPrimitives.RmTreeStep | tclg/pathlib.py:55 | `shutil.rmtree` on a directory other than the base removes it and everything below it; the tree invariant is kept |
| FsPrimitives.MakeDirsStep | tclg/pathlib.py:57-60 | `Path.mkdir(parents=True, exist_ok=True)` succeeds exactly when nothing on the way to the path is a non-directory; the path and all its ancestors are then directories; on failure nothing changes |
| Pathlib.RmdirSpec | tclg/pathlib.py:77-81 | an absent path gives `None` with nothing changed; an existing path is removed and returned when it is an empty directory, and otherwise the error propagates with nothing changed |
| Pathlib.Rmdir | tclg/pathlib.py:77-81 | the result and the new filesystem are those of `RmdirSpec` |
| Pathlib.Parents | tclg/pathlib.py:91 | `path.parents` has one entry per component of the path (their order and values: `ParentsAscending`) |
| Pathlib.ClimbEffect | tclg/pathlib.py:91-99 | the ancestor loop removes only directories from its list, in ascending order; exactly the paths it reports are gone, and everything else is unchanged |
| Pathlib.ClimbStopsAtFirstFailure | tclg/pathlib.py:91-97 | the loop skips absent ancestors, removes existing ones in turn, and stops at the first refused removal, touching nothing from there up |
| Pathlib.ParentsAscending | tclg/pathlib.py:91 | `path.parents` holds one entry per component of the path, each a proper prefix of the path and of the entry before it, so closest first |
| Pathlib.RmdirsSpec | tclg/pathlib.py:85-100 | a failure to remove the path itself propagates with nothing changed; otherwise the list returned is exactly what was removed, each a former directory on the path's chain, each a proper ancestor of the previous one, starting with the path exactly when it existed |
| Pathlib.Rmdirs | tclg/pathlib.py:85-100 | the result and the new filesystem are those of `RmdirsSpec` |
| Pathlib.RmdirParents | tclg/pathlib.py:91-99 | the loop over `path.parents` returns the list and leaves the filesystem that `Climb` describes, so `ClimbEffect` and `ClimbStopsAtFirstFailure` hold of it |
| Pathlib.ClimbChain | tclg/pathlib.py:91-99 | over a bare chain of directories, the loop removes every one of them closest first and stops at the base |
| Pathlib.RmdirsEmptyChain | tclg/pathlib.py:85-100 | `rmdirs` on a path whose ancestors hold nothing else removes the path and every ancestor but the base, leaf to root |
| Pathlib.MkdirSpec | tclg/pathlib.py:42-61 | on success the path is returned and it and all its ancestors are directories; with neither flag it succeeds exactly when nothing on the way is a non-directory, and then only adds the missing directories along the path; the tree invariant is kept |
| Pathlib.Mkdir | tclg/pathlib.py:42-61 | `unlink` and `rmtree` default to false; the result and the new filesystem are those of `MkdirSpec` |
| Pathlib.MkdirNewPath | tclg/pathlib.py:50-60 | `mkdir` of an absent path whose parent is a directory adds exactly that directory and returns the path, whatever the flags |
| FsPrimitives.MakeDirsKeepsTree | tclg/pathlib.py:57-60 | adding the directories along a path that no non-directory blocks keeps the filesystem a tree |
| Pathlib.MakeDirsOverDirs | tclg/pathlib.py:57-60 | when every ancestor is already a directory and the path is absent or a directory, `Path.mkdir(parents=True, exist_ok=True)` only makes the path a directory |
| Pathlib.MakeDirsInPlaceOf | tclg/pathlib.py:50-60 | after the entry at the path is unlinked, making the path puts a directory exactly in its place |
| Pathlib.MkdirUnlinkReplacesFile | tclg/pathlib.py:51-53 | with `unlink`, a file or symlink at the path is replaced by an empty directory, whatever `rmtree` says, and nothing else changes |
| Pathlib.MkdirExistingDir | tclg/pathlib.py:57-61 | without `rmtree`, an existing directory is not an error and nothing changes |
| Pathlib.MkdirRmtreeEmpties | tclg/pathlib.py:54-55 | with `rmtree`, an existing directory is emptied: everything below it goes and the rest is unchanged |
| Pathlib.MkdirRmtreeBase | tclg/pathlib.py:52-55 | `mkdir` of the base with `rmtree` empties the whole tree and then raises, since `shutil.rmtree` cannot remove the base; this is the case `MkdirRmtreeEmpties` leaves out |
| Pathlib.MkdirAbsentIgnoresFlags | tclg/pathlib.py:50-53 | for an absent path `unlink` and `rmtree` change nothing: `mkdir` behaves as without them |
| Pathlib.Rm | tclg/pathlib.py:137-140 | `missing_ok` defaults to true; an absent path is a no-op exactly when `missing_ok` holds and no proper prefix is a non-directory, and under a non-directory it raises `NotADirectoryError`; an existing path is removed exactly when it is not a directory |
| Pathlib.RmUnderFileRaises | tclg/pathlib.py:137-140 | `rm` of a path inside a file or symlink raises `NotADirectoryError` and changes nothing, even with `missing_ok` |
| Operator.AttrDeleter.constructor | tclg/operator.py:21-22 | the builder only stores the name |
| Operator.AttrSetter.constructor | tclg/operator.py:39-41 | the builder only stores the name and the value |
| Operator.ItemDeleter.constructor | tclg/operator.py:57-58 | the builder only stores the key |
| Operator.ItemSetter.constructor | tclg/operator.py:75-77 | the builder only stores the key and the value |
| Operator.AttrDeleter.Call | tclg/operator.py:24-25 | deletes the named attribute with the others unchanged, and it no longer reads; a missing or refused attribute's `AttributeError` propagates with the object untouched |
| Operator.AttrSetter.Call | tclg/operator.py:43-44 | sets the named attribute to the value with the others unchanged, and it reads back; a refused name raises `AttributeError` with the object untouched |
| Operator.ItemDeleter.Call | tclg/operator.py:60-61 | removes the key with the others unchanged; an absent key raises `KeyError(key)` with the mapping untouched |
| Operator.ItemSetter.Call | tclg/operator.py:79-80 | sets `target[key]` to the value with the other entries unchanged, and it reads back; a refused key's `KeyError` propagates |
| Operator.ItemSetterTwice | tclg/operator.py:79-80 | applying the same item setter twice gives the same results and the same mapping as applying it once |
| Operator.AttrSetterTwice | tclg/operator.py:43-44 | applying the same attribute setter twice gives the same results and the same attributes as applying it once |
| Operator.ItemDeleterTwice | tclg/operator.py:60-61 | a second application of the same item deleter raises `KeyError` and leaves the mapping as the first left it |
| Functools.Func.Invoke | tclg/functools.py:16 | a call is logged once with its argument and returns or raises what the function does |
| Functools.Do | tclg/functools.py:14-17 | `do` calls `func` exactly once with `arg`, returns `arg` itself when the call returns, and propagates the call's exception |
| Functools.OwnerSetter.Call | tclg/functools.py:31-33 | binds the function on `cls` under its own name, replacing any attribute of that name, with the others unchanged; it returns `None`; a name `cls` refuses raises `AttributeError` |
| Functools.Owner | tclg/functools.py:20-35 | `owner(cls)` builds a new setter for `cls` and leaves `cls` unchanged |
| Functools.OwnTwo | tclg/functools.py:31-33 | two functions installed through one setter are both bound under their names, and with the same name the later one wins |

## Left out

- `tclg/io.py` is not part of this model. It dispatches on the standard `io` class hierarchy and on real file handles.
- `tclg/typing.py` is not part of this model. It holds only protocol declarations and has no behaviour.
- `cwd`, `home`, `chdir`, `lsdir`, `glob` and `rglob` in `tclg/pathlib.py` are not modelled. They depend on the process's working directory, the home lookup, directory enumeration order and glob patterns.
- Pathlib.Mkdir: the `mode` argument is not modelled, because the filesystem has no permission bits.
- The filesystem has no symbolic links that point to directories, and no dangling links followed by `exists()`. A symlink is a non-directory entry that exists.
- The filesystem has no permission errors. No one else changes it during a call.
- Error values carry their kind and the path, name or key. Messages, the `obj` of `AttributeError`, exception chaining (`from exc`, `from None`) and tracebacks are not modelled.
- `dir(obj)` is modelled as the sorted list of the object's attribute names. Python's `dir` sorts whatever the object's `__dir__` returns. A custom `__dir__` that lists names `getattr` cannot find is not modelled.
- Collections.ItemNamesReadable, Collections.MutableItemsAttrsView.DelItem, Operator.AttrDeleter.Call, Operator.AttrSetter.Call, Collections.MutableItemsAttrsView.SetItem: an object is plain instance storage, one map of attributes. There are no class attributes underneath it (deleting an instance attribute that shadows a class attribute leaves the name readable in Python), no metaclass attributes (`getattr(C, "mro")` succeeds though `dir(C)` omits `mro`), no `__getattr__` fallback, and no `TypeError` refusals from immutable types (`setattr(int, "x", 1)`); every refusal is an `AttributeError`.
- Exception classes have single inheritance. `isinstance` is modelled as "the class lies on the exception's chain of classes".
- The `hasattr` checks in `MutableItemsAttrsView.__init__` are not modelled as separate checks. They hold for every Python object.
- Assertions removed by `python -O` are not modelled. The `assert` in `catch.__init__` always runs.
- `__all__`, the `export` decorators and the module-level `__dir__` lambdas are not modelled. They are bookkeeping with no behaviour to verify.
- Functools.Func: a Python function is modelled by its name and by what each call returns or raises. Side effects of the call on other objects are not modelled.
- Pathlib.Rmdirs: the loop over `path.parents` is the separate method `RmdirParents`. Rmdirs runs it after the leaf removal.
- Contextlib.Catch.Truthy (`__bool__`) has no contract of its own. Contextlib.CatchThenReuse states its meaning.
- Collections.AttrLookup models `__getattr__` only. Python calls it after ordinary attribute lookup fails, so on a constructed view `_data` and special names such as `__class__` read successfully without being listed by `__dir__`; that ordinary lookup is not modelled.
- Functools.OwnerSetter.Call: every refused name raises `AttributeError` in the model. A real class refuses some special names (`__name__`, `__bases__`, `__class__` given a function) with `TypeError` instead.
- Paths have no `.` or `..` components. Python's `Path` keeps `..` as a literal component, so `path.parents` of `a/../b` lists `a/..`, while the operating system resolves it; the model would treat `a/..` as an entry of its own.

## Findings

| source | as written | input that shows it | evidently intended | confidence | as-written member | corrected member |
|---|---|---|---|---|---|---|
| tclg/collections.py:33 | `self._data = data` goes through the class's `__setattr__`, which is `None` at line 46 | `AttrsItemsView({"a": 1})` raises `TypeError` | store the mapping with `object.__setattr__`, so that any mapping is accepted | high (not executed) | Collections.AttrsItemsViewInitAsWritten | Collections.AttrsItemsViewInit |
| tclg/collections.py:57 | `self._data = data` goes through the class's own `__setattr__` at lines 59-61, which rejects the name `_data` | `MutableAttrsItemsView({})` raises `AttributeError` | store the mapping with `object.__setattr__`, so that any mutable mapping is accepted | high (not executed) | Collections.MutableAttrsItemsViewInitAsWritten | Collections.MutableAttrsItemsViewInit |
| tclg/contextlib.py:95 | the assertion requires every argument to be an `Exception` instance, but line 105 uses each one as a class in `isinstance` | `catch(ValueError)` fails the assertion; `catch(ValueError())` makes `__exit__` raise `TypeError` when a block raises | require classes deriving from `Exception`, which `isinstance` then matches | high (not executed) | Contextlib.CatchAsWrittenNeverCaptures | Contextlib.CatchInitAcceptsClasses |
