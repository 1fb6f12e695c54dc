# theflow / finestflow in Dafny

This project models the core of *theflow*, a declarative composition runtime
for Python pipelines, together with *finestflow*, the earlier prototype it grew
from, and proves properties of that model.

In theflow a **Composable** declares **params** (plain values, possibly
computed lazily from other params and recomputed when a dependency changes)
and **nodes** (child Composables). Calling a Composable runs it inside an
Idle → InRun → Idle lifecycle. During the run each child it reads is named by
its path (`name`, `name[1]`, …) and shares the parent's context. The call goes
through a chain of **middleware**:

- a memoising cache keyed by a naive hash of the input and definition;
- progress tracking that records each step's input, output or error;
- a skip rule that reuses a previous run's outputs until the `from` step.

Around this core sit:

- a scoped key/value **context** store;
- an in-memory **cache**;
- a **run tracker** that logs progress per flow and run;
- the per-thread **backend** state that names the running component;
- layered **config** resolution;
- pure utilities: wildcard path matching, dict flatten/unflatten, docstring
  reindenting, serialization with an allow-listed import, the hash's token
  stream, cycle detection in declared dependencies, and pruning of a function
  definition to its local nodes.

The finestflow prototype has the same ideas in an earlier form:

- a Composable base that composes step names and collects params and nodes
  from the class hierarchy;
- Pipeline and YourFlow classes that register steps while `initialize` runs and
  route `_ff_from`/`_ff_to` through a context;
- a layered Config;
- skip and track middleware.

How the model is built:

- One Dafny module per source file.
- Code that updates objects in place becomes classes whose methods are proved
  against pure transition functions. Properties of those functions are proved
  as lemmas.
- Python exceptions are `Exc(kind, message)` values in a `Result`.
- Python values are the `PyValues.Value` datatype, with dicts as
  insertion-ordered association lists.
- `id()` becomes an explicit identity token.
- The calling thread, the md5 digest and user callbacks are parameters.

The files of the repository come from different versions. Where code calls an
interface that its sibling files do not define, the model takes that interface
as an abstract collaborator:

- `obj.fl`, `log_progress` and `Function` in theflow/middleware.py,
  theflow/runs/base.py and theflow/debug.py;
- `clear_all` and `create_local_context` in theflow/base.py;
- `export` and `ConfigProperty` in finestflow;
- `Step` and `StepProxy` in finestflow/middleware.py.

## Model

| member | source | states |
|---|---|---|
| Paths.NameMatchedIff | theflow/utils/paths.py:104-120 | a name matches a pattern exactly when it is the pattern's `*`-separated pieces interleaved with non-empty, dot-free fillers (the anchored `[^.]+` regex) |
| Paths.InterleaveMatches | theflow/utils/paths.py:117-120 | any dot-free non-empty filling of the pieces is accepted by the matcher |
| Paths.MatchesInterleave | theflow/utils/paths.py:117-120 | every accepted name is such a filling (the converse) |
| Paths.ExactMatch | theflow/utils/paths.py:104-120 | with no `*` in the pattern, matching is string equality (tests/test_utils.py:26-31) |
| Paths.MatchByFill | theflow/utils/paths.py:117-120 | a pattern joined from pieces matches any filling of those pieces |
| Paths.NoMatchByEnding | theflow/utils/paths.py:117-120 | the match is anchored at the end: a name not ending with the last piece never matches |
| Paths.WildcardSegmentExample | tests/test_utils.py:35-40 | `.main.*.pipeline_B2.*.step_a` matches `.main.pipeline_A1.pipeline_B2.pipeline_C2.step_a` |
| Paths.WildcardInSegmentExample | tests/test_utils.py:42-47 | `pipeline*` completes the segment `pipeline_C2` |
| Paths.TrailingSegmentRejected | tests/test_utils.py:49-54 | a trailing extra segment is not matched |
| Paths.SplitDottedPath | theflow/utils/paths.py:139-140 | stripping and splitting a canonical dotted path gives back its segments |
| Paths.ExtensionPattern | theflow/utils/paths.py:139-141 | the pattern derived from a one-segment extension is the parent path itself |
| Paths.ParentOfExtension | theflow/utils/paths.py:122-141 | a path is the parent of each of its one-segment extensions, `*` allowed in the extension |
| Paths.NotParentOfSibling | theflow/utils/paths.py:122-141 | a path is not the parent of its siblings |
| Paths.ParentExample | tests/test_utils.py:60-62 | `.main.pipeline_A1` is the parent of `.main.pipeline_A1.pipeline_B1` |
| Paths.SiblingExample | tests/test_utils.py:64 | `.main.pipeline_A1` is not the parent of `.main.pipeline_A2` |
| Pretties.KeyPath | theflow/utils/pretties.py:69-70 | a flat key stands for a non-empty path: outer dots stripped, then split on dots |
| Pretties.UnflattenDict | theflow/utils/pretties.py:54-77 | the loop over the flat pairs computes the reference unflattening, failing where a path runs through a non-dict |
| Pretties.EmptyNestedVanishes | theflow/utils/pretties.py:46-48 | an empty nested dict contributes no entries to the flat dict |
| Pretties.LaterKeyWins | theflow/utils/pretties.py:72-76 | assigning twice at the same path keeps the later value |
| Pretties.OuterDotsIgnored | theflow/utils/pretties.py:69 | leading and trailing dots of a flat key are ignored |
| Pretties.PieceAppends | theflow/utils/pretties.py:45-50 | one turn of `flatten_dict`'s loop appends exactly that entry's flat pairs, all with fresh keys |
| Pretties.FlattenIsFlat | theflow/utils/pretties.py:31-51 | `flatten_dict` assigns only fresh keys, so it appends the reference flattening in order |
| Pretties.FlatShape | theflow/utils/pretties.py:31-51 | the flat keys are distinct and dot-clean, and each is headed by a key of the input |
| Pretties.SetPathNested | theflow/utils/pretties.py:72-76 | a dotted key `k.s` descends into the dict already stored under `k` |
| Pretties.SetPathFresh | theflow/utils/pretties.py:73-74 | a dotted key `k.s` with `k` missing first creates `{}` under `k` |
| Pretties.UnflattenPiece | theflow/utils/pretties.py:67-77 | unflattening one entry's flat pairs restores that entry |
| Pretties.RoundTrip | theflow/utils/pretties.py:31-77 | `unflatten_dict(flatten_dict(d)) == d` for dicts whose keys are non-empty, dot-free and distinct and whose nested dicts are non-empty |
| Pretties.LeafThenNestedFails | theflow/utils/pretties.py:72-76 | a leaf followed by a dotted key below it, as in `{"a": 1, "a.b": 2}`, raises TypeError |
| Pretties.DocExamples | theflow/utils/pretties.py:34-36 | the docstring examples: `{"a": {"b": x}, "c": y}` and `{"a.b": x, "c": y}` convert into each other |
| Pretties.BlankRun | theflow/utils/pretties.py:19 | the leading run of spaces and tabs, stopping at the first other character |
| Pretties.Indents | theflow/utils/pretties.py:19 | the matches of `\n[ \t]+`, without their newline, are non-empty blank runs |
| Pretties.MinLex | theflow/utils/pretties.py:21 | Python's `min` over strings: a member no other member is below |
| Pretties.Dedent | theflow/utils/pretties.py:24-25 | a line starting with the indentation loses exactly that prefix; other lines are kept |
| Pretties.ReindentDocstring | theflow/utils/pretties.py:4-28 | the line loop computes the reference reindentation |
| Pretties.UnindentedUnchanged | theflow/utils/pretties.py:16-20 | a docstring with no indented line comes back unchanged |
| Pretties.ReindentedTrimmed | theflow/utils/pretties.py:27 | once any line is indented, the result carries no outer whitespace |
| Pretties.CommonIndent | theflow/utils/pretties.py:19-21 | with space-only indentation the removed prefix is the shortest run, which every indented line starts with |
| Modules.ImportDotted | theflow/utils/modules.py:10-33 | with `safe=True`, no allow-list raises ValueError; otherwise the import succeeds exactly for an allowed name and returns what the allow-list maps it to |
| Modules.ImportType | theflow/utils/modules.py:61-63 | a str `__type__` is looked up; any other value fails |
| Modules.WithoutType | theflow/utils/modules.py:64-68 | the keyword arguments are every entry but `__type__`, unchanged |
| Modules.InitObject | theflow/utils/modules.py:41-70 | no `__type__` raises ValueError; an import failure is passed on; otherwise the class is called with the other entries |
| Modules.SerializeItems | theflow/utils/modules.py:78-82 | a list or tuple serializes item by item and fails if any item fails |
| Modules.SerializeEntries | theflow/utils/modules.py:75-76 | a dict keeps its keys and serializes each value, failing if any value fails |
| Modules.DeserializeItems | theflow/utils/modules.py:141-151 | a list or tuple deserializes item by item and fails if any item fails |
| Modules.DeserializeEntries | theflow/utils/modules.py:124-139 | dict entries other than `__type__` are deserialized; a dict without `__type__` keeps all its keys |
| Modules.SerializeNative | theflow/utils/modules.py:73-85 | `serialize` is the identity on trees of dicts, lists, tuples and scalars |
| Modules.SerializeIsNative | theflow/utils/modules.py:73-112 | whatever `serialize` returns is such a tree |
| Modules.SerializeNamed | theflow/utils/modules.py:87-90 | a named function or class becomes `"{{ module.name }}"`; a lambda raises ValueError |
| Modules.DeserializeTemplate | theflow/utils/modules.py:119-122 | `deserialize` resolves a rendered name through the allow-list |
| Modules.RoundTrip | theflow/utils/modules.py:73-156 | `deserialize(serialize(v))` gives back `v` for values whose names the allow-list resolves and whose strings are not braced |
| Modules.BracedStringNotPortable | theflow/utils/modules.py:84-85 | a native string shaped `{{…}}` is kept by `serialize` but resolved by `deserialize`, so without an allow-list it does not come back |
| Modules.UnsupportedRaise | theflow/utils/modules.py:110-112 | other objects raise ValueError when serialized; functions, classes and objects raise when deserialized |
| Modules.DeserializeShape | theflow/utils/modules.py:141-151 | `deserialize` keeps the shape and length of lists and tuples |
| Hashes.Public | theflow/utils/hashes.py:35-37 | keeps exactly the attribute names that do not start with an underscore |
| Hashes.NaiveHash.constructor | theflow/utils/hashes.py:12-14 | a new hasher has been fed nothing |
| Hashes.NaiveHash.Feed | theflow/utils/hashes.py:26 | the digest function's `update` appends the text |
| Hashes.NaiveHash.Update | theflow/utils/hashes.py:16-39 | `update(obj)` appends exactly the text stream of `obj` |
| Hashes.NaiveHash.UpdateItems | theflow/utils/hashes.py:27-29 | feeds each item of a list or tuple in order |
| Hashes.NaiveHash.UpdateKeyed | theflow/utils/hashes.py:30-39 | feeds each key and then its value, in the given key order |
| Hashes.NaiveHash.Call | theflow/utils/hashes.py:41-44 | `h(obj)` feeds `obj` and returns the digest of everything fed so far |
| Hashes.ListTupleAlike | theflow/utils/hashes.py:27-29 | a list and a tuple with the same items feed the same text |
| Hashes.ItemsConcat | theflow/utils/hashes.py:27-29 | items are fed back to back: the text of a concatenated list is the two texts joined |
| Hashes.ItemsRunTogether | theflow/utils/hashes.py:25-29 | no separators: `[1, 2]` and `[12]` feed the same text and so get the same digest |
| Hashes.ReorderCollision | theflow/utils/hashes.py:25-29 | `["a", "aa"]` and `["aa", "a"]` feed the same text |
| Hashes.EmptyFeedsNothing | theflow/utils/hashes.py:25-39 | the empty list, tuple and dict and `None` all feed nothing |
| Hashes.DictOrderFree | theflow/utils/hashes.py:30-33 | insertion order never matters: dicts mapping every key alike feed the same text |
| Hashes.SortedAlike | theflow/utils/hashes.py:31-33 | dicts listing the same sorted keys and mapping them alike feed the same text |
| Hashes.SameSortedKeys | theflow/utils/hashes.py:31 | dicts holding the same keys list the same sorted keys |
| Hashes.DictStreamCongruent | theflow/utils/hashes.py:30-33 | dicts with the same keys whose values feed alike feed alike, whatever their order |
| Hashes.SwapEntries | theflow/utils/hashes.py:30-33 | swapping the two pairs of a dict with distinct keys leaves its text unchanged |
| Hashes.ClassLikeInstance | theflow/utils/hashes.py:34-39 | a class and an instance with the same public attributes feed the same text |
| Hashes.SameText | theflow/utils/hashes.py:12-44 | two fresh hashers with one digest function give equal digests for values with equal text |
| Hashes.Reused | theflow/utils/hashes.py:41-44 | a hasher used twice digests the first value's text followed by the second's |
| Debug.NoCycleWhenRanked | theflow/debug.py:4-27 | a finish-time ranking covering every key rules out a cycle, the invariant behind a `False` answer |
| Debug.Enter | theflow/debug.py:19-20 | entering an unvisited vertex along an edge keeps the search invariant |
| Debug.Leave | theflow/debug.py:24-25 | leaving a vertex whose neighbours have all finished keeps the invariant and ranks the vertex |
| Debug.BackEdge | theflow/debug.py:22-23 | meeting a vertex still on the path closes a cycle |
| Debug.CycleSearch.constructor | theflow/debug.py:13-14 | the search starts with empty `visited` and `path` |
| Debug.CycleSearch.Visit | theflow/debug.py:16-25 | `True` only when the graph has a cycle; on `False` the path is restored and the vertex is visited |
| Debug.CycleSearch.Mark | theflow/debug.py:19-20 | the vertex joins `visited` and `path` and the invariant holds |
| Debug.CycleSearch.Unmark | theflow/debug.py:24 | the vertex leaves `path` once every neighbour is done |
| Debug.CycleSearch.Explore | theflow/debug.py:21-23 | the neighbour loop finds a cycle, or leaves every neighbour visited and off the path |
| Debug.HasCycle | theflow/debug.py:4-27 | `has_cycle` answers true exactly when the graph has a cycle |
| Debug.ComputedOnly | theflow/debug.py:50-53 | keeps exactly the sources that are computed, in order |
| Debug.DepEdges | theflow/debug.py:45-53 | the out-edges of an attribute are its computed sources when it is computed itself, and none otherwise |
| Debug.DependencyEdge | theflow/debug.py:44-53 | an edge runs exactly from a computed attribute to a computed source it depends on |
| Debug.BuildGraph | theflow/debug.py:44-53 | the loop builds exactly the dependency graph |
| Debug.HasCyclicDependency | theflow/debug.py:30-55 | true exactly when the dependency graph of computed params has a cycle |
| Debug.SelfLoop | theflow/debug.py:21-23 | a vertex with an edge to itself is a cycle |
| Debug.EmptyAcyclic | theflow/debug.py:27 | a graph with no keys has no cycle |
| Debug.SingleHop | tests/test_function_declaration.py:211-225 | computed `x` and `y` depending on each other form a cycle |
| Debug.MultipleHops | tests/test_function_declaration.py:227-249 | three computed params in a ring form a cycle |
| Debug.ChainToPlain | tests/test_function_declaration.py:251-271 | a chain of computed params ending at a plain param has no cycle |
| HttpSync.IsLocal | theflow/backends/http_sync.py:19-22 | a node is local when `configs.default_backend.__type__` names the local `Backend`; a missing key or a non-dict raises KeyError or TypeError |
| HttpSync.LeafUnchanged | theflow/backends/http_sync.py:25-26 | a node whose `nodes` is empty comes back unchanged |
| HttpSync.RemoteDropsChildren | theflow/backends/http_sync.py:28-34 | a remote node with children keeps its function, params and configs and loses its children |
| HttpSync.PruneShape | theflow/backends/http_sync.py:24-45 | the result is the node itself or a dict with exactly the keys `function`, `params`, `nodes`, `configs`, in that order |
| HttpSync.Idempotent | theflow/backends/http_sync.py:13-47 | pruning is idempotent: its output prunes to itself |
| HttpSync.SameConfigs | theflow/backends/http_sync.py:19-22 | locality is read from `configs` alone |
| HttpSync.PruneInner | theflow/backends/http_sync.py:24-45 | a prune that changes its node found children and read `function`, `params` and the locality |
| HttpSync.PruneRemote | theflow/backends/http_sync.py:28-34 | a remote node with children prunes to its childless definition |
| HttpSync.PruneLocal | theflow/backends/http_sync.py:36-45 | a local node with children prunes to its definition with each child pruned in turn |
| HttpSync.LocalPrunes | theflow/backends/http_sync.py:36-45 | conversely, a local node whose child loop succeeds prunes to that rebuilt definition |
| HttpSync.RemotePrunes | theflow/backends/http_sync.py:28-34 | conversely, a remote node with children and a function and params prunes to its childless definition |
| HttpSync.Locality | theflow/backends/http_sync.py:19-22 | a definition is local exactly when its backend type is the local `Backend` |
| HttpSync.SampleTree | tests/test_backends_http_sync.py:38-66 | the sample: the local leaf `x1` is kept, and the remote `x2` loses its local child `y1` |
| Configs.Parse | theflow/config.py:100-107 | a value other than a `{{…}}` string is stored as given; a reference is replaced by what its dotted name resolves to |
| Configs.ApplyDict | theflow/config.py:91-109 | `update_from_dict` only adds available keys and never touches others |
| Configs.ApplyAll | theflow/config.py:111-116 | several `update_from_dict` calls in a row only add available keys |
| Configs.Inherited | theflow/config.py:115-116 | `hasattr(cls, "Config")` finds a `Config` exactly when the class's own entry or a later entry of the MRO declares one, and `cls.Config` is the nearest such |
| Configs.Render | theflow/config.py:137-142 | `export` keeps a non-callable value and renders a callable as a braced `"{{ module.name }}"` string |
| Configs.Config.constructor | theflow/config.py:80 | the object starts with no attribute set |
| Configs.Config.UpdateFromDict | theflow/config.py:91-109 | outcome and attributes as `ApplyDict` says |
| Configs.Config.UpdateFromPipeline | theflow/config.py:111-116 | the MRO's `Config` bodies are applied from base to derived |
| Configs.Config.Export | theflow/config.py:134-144 | exports exactly the available keys, each with its rendered value |
| Configs.Config.UpdateFromConfig | theflow/config.py:118-120 | succeeds exactly when every exported value parses back, and then each key holds that value |
| Configs.Config.Update | theflow/config.py:122-132 | a dict is applied as `ApplyDict` says and a Composable class layer by layer from base to derived; a Config succeeds exactly when each of its exported values parses back, and then each key holds that value; any other value is ignored |
| Configs.New | theflow/config.py:75-89 | the defaults, then the class's MRO, then a non-empty dict; any layer's raise is the constructor's raise |
| Configs.MroStep | theflow/config.py:113-116 | one class of `update_from_pipeline`: its layer, if it has one, then the classes below it |
| Configs.LayersSplit | theflow/config.py:82-89 | the constructor's layers are the defaults, then the MRO, then the given dict |
| Configs.PropertyGet | theflow/config.py:34-37 | reading the config before one is attached raises ValueError |
| Configs.PropertySet | theflow/config.py:39-48 | only a Config object is accepted, else ValueError |
| Configs.GetAttr | theflow/config.py:24-28 | a missing name raises AttributeError; a callable value is called with the pipeline; anything else is returned |
| Configs.ApplyOkIff | theflow/config.py:93-98 | a dict applies cleanly exactly when each key not starting with `__` is available and its value resolves; an unknown key raises ValueError |
| Configs.ApplyValues | theflow/config.py:93-109 | after a clean application each given key holds its parsed value and every other attribute is as before |
| Configs.DunderIgnored | theflow/config.py:94-95 | keys starting with `__` are skipped |
| Configs.LaterWins | theflow/config.py:51-58 | after clean layers, a key holds the value of the last layer that gives it; a key no layer gives keeps its value |
| Configs.DefaultsFill | theflow/config.py:10-14 | the defaults fill every available key |
| Configs.ExportedOk | theflow/config.py:118-120 | `update_from_config` succeeds exactly when every exported value parses |
| Configs.ExportedValues | theflow/config.py:118-144 | after a clean `update_from_config`, each available key holds the parsed export |
| Configs.RenderParse | theflow/config.py:100-142 | `export` then `update_from_dict` gives a value back, a named callable through its rendering when the resolver maps it back |
| Configs.ReferenceNotCopied | theflow/config.py:100-107 | a plain string shaped `{{…}}` is not copied but resolved |
| Configs.InheritedHarmless | theflow/config.py:111-116 | a class without its own `Config` re-applies the inherited one harmlessly, so the MRO layers act as the classes' own bodies |
| Configs.Idempotent | theflow/config.py:91-109 | a dict applied again right after a clean application changes nothing |
| Contexts.Initial | theflow/context.py:25-31 | construction adds an empty global scope and an empty `__all_contexts__` list and leaves every other cached scope alone |
| Contexts.Resolve | theflow/context.py:33-53 | `None` names the global scope; a name resolves exactly when it is a str present in the cache, else ValueError |
| Contexts.AllKeys | theflow/context.py:143-149 | the scopes listed are those recorded under the `__all_contexts` key |
| Contexts.Context.constructor | theflow/context.py:25-31 | a new context's cache is the initial store over the shared cache |
| Contexts.Context.Set | theflow/context.py:55-69 | `set` stores the value in the resolved scope, or raises and changes nothing |
| Contexts.Context.Get | theflow/context.py:71-85 | `get` reads the resolved scope's entry, the default, or the whole scope for `None` |
| Contexts.Context.Clear | theflow/context.py:87-101 | `clear` drops one entry or empties the scope, or raises and changes nothing |
| Contexts.Context.HasContext | theflow/context.py:103-112 | true exactly when the cache holds the name |
| Contexts.Context.CreateContext | theflow/context.py:114-141 | creates an empty scope and lists it, returns an existing one with `exist_ok`, raises otherwise |
| Contexts.Context.GetAllContextsKeys | theflow/context.py:143-149 | returns the recorded scope names as a list |
| Contexts.Context.GetAllContexts | theflow/context.py:151-161 | maps every listed scope name to that scope's dict |
| Contexts.GlobalExists | theflow/context.py:25-53 | the global scope exists from construction, so `None` always resolves |
| Contexts.UnknownScope | theflow/context.py:33-53 | a scope never created, or a name that is not a str, makes `set`, `get` and `clear` raise ValueError |
| Contexts.SetThenGet | theflow/context.py:55-85 | after `set(name, v, c)`, `get(name, _, c)` gives `v`, and every other entry of every scope is as before |
| Contexts.GetDefaults | theflow/context.py:71-85 | a missing name reads as the default; `get(None)` reads the whole scope |
| Contexts.ClearEffects | theflow/context.py:87-101 | `clear(None)` empties the scope; `clear(name)` drops exactly that entry and raises KeyError if it is absent |
| Contexts.CreateExisting | theflow/context.py:127-130 | an existing scope is returned untouched with `exist_ok` and raises without it |
| Contexts.CreateNew | theflow/context.py:132-141 | a new scope starts empty, is appended to the list, and other scopes are untouched |
| Contexts.RegistryListsCreated | theflow/context.py:114-149 | creating distinct new scopes one by one lists exactly those scopes, in order |
| Contexts.SeedIgnored | theflow/context.py:31 | the list seeded under `__all_contexts__` is never read: listing looks at `__all_contexts` |
| MemoryCaches.AddTo | theflow/cache/memory.py:39-44 | `add` stores the value only when the key is absent and otherwise leaves the store as it was |
| MemoryCaches.Lookup | theflow/cache/memory.py:46-48 | `get` gives the stored value, or the default for a missing key |
| MemoryCaches.DeleteFrom | theflow/cache/memory.py:50-53 | `delete` removes the key when present and keeps every other entry |
| MemoryCaches.AddNumber | theflow/cache/memory.py:78 | `+= delta` succeeds exactly on a number, else TypeError |
| MemoryCaches.IncrIn | theflow/cache/memory.py:74-79 | `incr` counts a missing key as 0, stores and returns the sum, and leaves the store alone when the addition fails |
| MemoryCaches.Item | theflow/cache/memory.py:88-90 | `__getitem__` succeeds exactly on a present key, else KeyError |
| MemoryCaches.StoreRegistry.constructor | theflow/cache/memory.py:27-37 | the process-wide store registry starts empty |
| MemoryCaches.MemoryCache.constructor | theflow/cache/memory.py:27-37 | a cache with a known uid shares that uid's store; a new uid gets an empty store |
| MemoryCaches.MemoryCache.Add | theflow/cache/memory.py:39-44 | only this uid's store changes, as `AddTo` says |
| MemoryCaches.MemoryCache.Get | theflow/cache/memory.py:46-48 | reads this uid's store, as `Lookup` says |
| MemoryCaches.MemoryCache.Delete | theflow/cache/memory.py:50-53 | only this uid's store changes, as `DeleteFrom` says |
| MemoryCaches.MemoryCache.Set | theflow/cache/memory.py:55-59 | the key is overwritten in this uid's store only |
| MemoryCaches.MemoryCache.Touch | theflow/cache/memory.py:61-65 | touching a key changes nothing |
| MemoryCaches.MemoryCache.Clear | theflow/cache/memory.py:67-69 | this uid's store becomes empty; other uids keep theirs |
| MemoryCaches.MemoryCache.Incr | theflow/cache/memory.py:74-79 | result and new store as `IncrIn` says |
| MemoryCaches.MemoryCache.Decr | theflow/cache/memory.py:81-82 | `decr` is `incr` by the negated delta |
| MemoryCaches.MemoryCache.Contains | theflow/cache/memory.py:84-86 | true exactly when the key is in this uid's store |
| MemoryCaches.MemoryCache.GetItem | theflow/cache/memory.py:88-90 | as `Item` says |
| MemoryCaches.MemoryCache.SetItem | theflow/cache/memory.py:92-94 | the key is overwritten in this uid's store only |
| MemoryCaches.MemoryCache.DelItem | theflow/cache/memory.py:96-98 | removes a present key; a missing key raises KeyError and changes nothing |
| MemoryCaches.AddVersusSet | theflow/cache/memory.py:39-59 | `add` never overwrites a present key, while `set` always does |
| MemoryCaches.MissingKey | theflow/cache/memory.py:46-90 | for a missing key `get` gives the default, `__getitem__` raises, `delete` is a no-op |
| MemoryCaches.IncrDecr | theflow/cache/memory.py:74-82 | `incr` then `decr` by the same amount restores a numeric entry and its store |
| MemoryCaches.IncrTwice | theflow/cache/memory.py:74-79 | repeated increments of a missing key accumulate from zero |
| MemoryCaches.UidSharing | theflow/cache/memory.py:27-37 | caches with one uid share one store; writes through one uid never reach another |
| Backends.AbsPath | theflow/backends/base.py:99-117 | a node's path is its prefix, a dot and its name, except that the root prefix `"."` is not doubled |
| Backends.Backend.constructor | theflow/backends/base.py:7-14 | a new backend holds no per-thread entry |
| Backends.Backend.ViewOf | theflow/backends/base.py:16-80 | each getter reads the calling thread's entry, defaulting to `False` or `""` |
| Backends.Backend.SetInRun | theflow/backends/base.py:21-23 | the setter changes only the calling thread's `in_run` entry |
| Backends.Backend.SetPrefix | theflow/backends/base.py:34-36 | the setter changes only the calling thread's prefix |
| Backends.Backend.SetName | theflow/backends/base.py:47-49 | the setter changes only the calling thread's name |
| Backends.Backend.SetRunId | theflow/backends/base.py:60-62 | the setter changes only the calling thread's run id |
| Backends.Backend.SetFlowName | theflow/backends/base.py:73-75 | the setter changes only the calling thread's flow name |
| Backends.Backend.DelInRun | theflow/backends/base.py:25-27 | deleting succeeds exactly when the thread has an entry, else KeyError; only that entry goes |
| Backends.Backend.DelPrefix | theflow/backends/base.py:38-40 | deleting succeeds exactly when the thread has an entry, else KeyError; only that entry goes |
| Backends.Backend.DelName | theflow/backends/base.py:51-53 | deleting succeeds exactly when the thread has an entry, else KeyError; only that entry goes |
| Backends.Backend.DelRunId | theflow/backends/base.py:64-66 | deleting the run id tolerates a missing entry and removes only the calling thread's |
| Backends.Backend.DelFlowName | theflow/backends/base.py:77-79 | deleting the flow name tolerates a missing entry and removes only the calling thread's |
| Backends.Backend.Track | theflow/backends/base.py:119-133 | the calling thread enters a run with the given prefix, name, run id and flow name (`""` when missing); other threads see no change |
| Backends.Backend.Clear | theflow/backends/base.py:135-143 | the calling thread's five entries are removed so its view is the untracked default; other threads see no change |
| Backends.UntrackedAtRoot | theflow/backends/base.py:81-117 | an untracked thread sits at the root path `"."` and its qualified id is `"\|\|."` |
| Backends.QualidxNesting | theflow/backends/base.py:81-97 | the qualified ids extend one another: flow id, then the parent's prefix or the node's absolute path |
| Backends.DescendFromRoot | theflow/backends/base.py:99-117 | descending from the root through non-empty names gives the dotted path `.a.a1.a2` of the docstring |
| Backends.DescendFrom | theflow/backends/base.py:99-117 | below any path other than the root, each step appends a dot and the name |
| Runs.RunTracker.constructor | theflow/runs/base.py:83-88 | a tracker holds its context, its progress scope name and an empty config |
| Runs.RunTracker.LogProgress | theflow/runs/base.py:96-105 | `log_progress` merges the keywords into the step's record, or raises and changes nothing |
| Runs.RunTracker.Logs | theflow/runs/base.py:107-116 | `logs(name)` reads the step's record from the progress scope (`None` for all) |
| Runs.RunTracker.Steps | theflow/runs/base.py:118-124 | `steps()` lists the keys of the progress scope |
| Runs.RunTracker.Input | theflow/runs/base.py:126-135 | `input(name)` is the record's `input` entry |
| Runs.RunTracker.Output | theflow/runs/base.py:137-146 | `output(name)` is the record's `output` entry |
| Runs.RunTracker.Id | theflow/runs/base.py:156-162 | `id()` reads `id` from the progress scope |
| Runs.RunTracker.SetConfig | theflow/runs/base.py:186-193 | the config setter replaces the config |
| Runs.Open | theflow/runs/base.py:83-94 | the progress scope `flow_name\|run_id\|which_progress` is created if needed and a root component records its name and id |
| Runs.ReopenKeeps | theflow/runs/base.py:89-91 | opening a non-root tracker on an existing progress scope changes nothing |
| Runs.RootRecordsId | theflow/runs/base.py:89-94 | a root tracker records the flow name and run id, and `id()` reads the run id back |
| Runs.LogMerges | theflow/runs/base.py:96-105 | keys given now are overwritten, the record's other keys are kept, and other steps' records are untouched |
| Runs.LoggedInputOutput | theflow/runs/base.py:96-146 | what is logged as a step's `input` and `output` is what `input` and `output` return |
| Middlewares.Init | theflow/middleware.py:14-18 | a middleware is built exactly when it is given a component, and keeps that component; no component raises ValueError |
| Middlewares.LogProgress | theflow/runs/base.py:96-105 | the component's progress entry is merged with the keywords in the tracker's scope; on failure the store is left unchanged and the error is returned |
| Middlewares.CacheStep | theflow/middleware.py:165-176 | a key already cached returns the cached output without running; a key that cannot be built runs the component and stores nothing; a new key runs once and stores a successful output under that key |
| Middlewares.CachingMiddleware.constructor | theflow/middleware.py:157-163 | the middleware holds its component, next call, digest and the given cache, and has run nothing |
| Middlewares.CachingMiddleware.CreateKey | theflow/middleware.py:178-201 | the key is the naive hash of the run's input, the component's dump and its class name; a dump that raises makes the key fail |
| Middlewares.CachingMiddleware.Call | theflow/middleware.py:165-176 | result, new cache and number of runs are those of one caching step on the key of this call |
| Middlewares.SecondCallCached | theflow/middleware.py:165-176 | two calls with the same key run the component at most once together; the second returns the first's result and leaves the cache as the first left it |
| Middlewares.KeyIgnoresKwargOrder | theflow/middleware.py:178-201 | the cache key does not depend on the order in which keyword arguments were passed |
| Middlewares.KeyFailureRuns | theflow/middleware.py:166-172 | when the key cannot be built, the component runs once and the cache is unchanged |
| Middlewares.TrackProgressMiddleware.constructor | theflow/middleware.py:14-18 | the middleware holds its component and next call and has run nothing |
| Middlewares.TrackProgressMiddleware.Call | theflow/middleware.py:128-149 | result, store and number of runs are those of the tracking step; at the root a new last run is created that holds the component's config dump |
| Middlewares.TrackSuccess | theflow/middleware.py:137-149 | a successful run below the root is returned unchanged, runs once, and logs its input (args and kwargs) and output |
| Middlewares.TrackFailure | theflow/middleware.py:137-142 | a failing run below the root logs its input, output None and the error text, then raises the same error |
| Middlewares.SkipComponentMiddleware.constructor | theflow/middleware.py:14-18 | the middleware holds its component and next call and has run nothing |
| Middlewares.SkipComponentMiddleware.Call | theflow/middleware.py:47-117 | the routing keywords are popped; when gathering `from`, `to` and the previous run fails the call fails, otherwise the store and result are those of deciding on the gathered store |
| Middlewares.SkipComponentMiddleware.Gather | theflow/middleware.py:61-75 | the store becomes that of routing the keywords and then marking the component's own scope |
| Middlewares.SkipComponentMiddleware.Route | theflow/middleware.py:61-68 | truthy `from` and `to` are set in the flow's scope, and a truthy previous-run path loads that run's progress into the `__from_run__` scope |
| Middlewares.SkipComponentMiddleware.Mark | theflow/middleware.py:70-75 | a component that is a parent of `from` sets `good_to_run` False in its own scope; a non-string `from` raises AttributeError |
| Middlewares.SkipComponentMiddleware.LoadFromRun | theflow/middleware.py:66-68 | the previous run's entries are set, in order, into the `__from_run__` scope opened for this flow |
| Middlewares.SkipComponentMiddleware.Decide | theflow/middleware.py:78-117 | result, store and number of runs are those of the decision on the parent's `good_to_run`, `from` and `to` |
| Middlewares.SkipComponentMiddleware.Resume | theflow/middleware.py:86-108 | the branch where the parent is not good to run ends in the same result, store and runs as the decision |
| Middlewares.SkipComponentMiddleware.Previous | theflow/middleware.py:99-108 | the previous run's output is returned with status cached and no run; when reading it fails the component runs with status run |
| Middlewares.SkipComponentMiddleware.RunNext | theflow/middleware.py:116-117 | progress status run is logged and the component runs once; a failing log raises without running |
| Middlewares.DecideRunsAtMostOnce | theflow/middleware.py:78-117 | each call runs the component at most once and returns its result when it does; a successful call that does not run it happens only when the parent scope is not good to run |
| Middlewares.ResumeAtFrom | theflow/middleware.py:86-97 | a skipped component whose path matches `from` runs, returns its own result and leaves its parent's scope good to run for later siblings |
| Middlewares.ToMarkNotRead | theflow/middleware.py:110-114 | the `good_to_run` False written for `to` goes to the flow's scope, which is never the parent scope of a component of the same run, so no component's decision changes |
| Middlewares.LogKeepsGoodToRun | theflow/runs/base.py:96-105 | logging progress under a component's name never changes any `good_to_run` |
| Middlewares.PathIsNotGoodToRun | theflow/base.py:518-521 | a component's absolute path always holds a dot, so it never collides with the `good_to_run` key |
| Naming.ExtraLeadingDot | theflow/base.py:508-522 | as written, the root is `"."` and a direct child `".a"`, but a grandchild is `"..a.a1"`, not `".a.a1"` |
| Naming.AsWrittenIsFixedWithExtraDot | theflow/base.py:690-693 | below the first level the written path has exactly one extra leading dot, because the child prefix repeats the parent's prefix and name instead of using the parent's path |
| Naming.FixedMatchesDocstring | theflow/base.py:509-517 | with each prefix the parent's path, the path is the docstring's `.a.a1.a2` |
| Naming.FixedIsDescend | theflow/backends/base.py:99-117 | the corrected path is the backend's descent from the root path `"."` |
| Naming.PrefixIsDottedFixed | theflow/base.py:690-693 | for a node at depth one or more, the written `prefix + "." + name` is `"."` followed by the corrected path |
| Naming.IndexOf | theflow/base.py:888-889 | `split(".", 1)` splits at the first dot |
| Naming.PathSteps | theflow/base.py:877-892 | `get_from_path` reads at least one attribute |
| Naming.CleanSplit | theflow/base.py:886-890 | a path without outer dots is split at the end of its first segment and the rest is walked on |
| Naming.StepsOfSegments | theflow/base.py:877-892 | a path of non-empty dot-free segments is walked segment by segment |
| Naming.LeadingDotIgnored | theflow/base.py:886 | leading dots are stripped before walking: `".a.b"` is walked like `"a.b"` |
| Naming.DoubledDotCollapses | theflow/base.py:886-890 | an empty segment is stripped with the dots around it: `"a..b"` is walked like `"a.b"` |
| Naming.BuildChain | theflow/base.py:492-500 | wrapping from the last listed middleware outwards nests them so that a call enters them in list order |
| Naming.EntryOrderNested | theflow/base.py:492-500 | the nested chain's entry order is the list order |
| Declarations.Mro | theflow/base.py:660 | a class's MRO starts with the class itself |
| Declarations.Lookup | theflow/base.py:389-392 | `attrs.get(k)` finds a binding exactly when the body binds `k` |
| Declarations.Assign | theflow/base.py:397 | `attrs[name] = desc` binds the name, keeps every other binding, and keeps or appends the key |
| Declarations.ValidateParam | theflow/base.py:102-112 | a Param is refused exactly when it has `depends_on` and no `default_callback` or `no_cache`, with InvalidParamDefinition and the first message taking precedence |
| Declarations.NodeInit | theflow/base.py:261-265 | a Node is refused exactly when it has both `depends_on` and `no_cache`, with the ValueError the check means to raise |
| Declarations.NodeInitWrongError | theflow/base.py:261-265 | as written, that Node raises AttributeError, because `_name` is only set later by `__set_name__` |
| Declarations.ConvertBinds | theflow/base.py:387-397 | one annotation binds its name to a descriptor unless it is private or already a descriptor, and changes no other name |
| Declarations.DescriptorizeBinds | theflow/base.py:386-397 | after the conversion a name is bound to a descriptor exactly when it was before or it is annotated without a leading `_`; other bindings are kept |
| Declarations.AnnotatedNode | theflow/base.py:393-394 | an annotation mentioning Composable, without a default, becomes a plain Node |
| Declarations.AddKeywords | theflow/base.py:679-682 | adding one class's keywords keeps the owner of a keyword already present |
| Declarations.ProtectedNearest | theflow/base.py:672-682 | a name is protected exactly when some class of the MRO lists it, and it is attributed to the nearest such class |
| Declarations.BaseKeywordsProtected | theflow/base.py:452-463 | `run` and `config` are protected in every class deriving from Composable |
| Declarations.SetNamesIff | theflow/base.py:197-206 | `__set_name__` succeeds on a class body exactly when no Param in it is invalid |
| Declarations.CheckNamesIff | theflow/base.py:407-418 | the name check passes exactly when no descriptor is named with a leading `_` or after a protected keyword, else ValueError |
| Declarations.CreateClassIff | theflow/base.py:384-419 | a class is created exactly when every Param is valid and no descriptor has a leading `_` or a protected name |
| Declarations.ProtectedMessage | theflow/base.py:413-417 | a descriptor named after a protected keyword raises a ValueError naming the nearest class that lists it |
| Declarations.OwnDeclared | theflow/base.py:663-667 | one class's own Param (or Node) attribute names, exactly |
| Declarations.Registered | theflow/base.py:655-669 | the registered params and nodes are each sorted and duplicate-free |
| Declarations.RegisteredIff | theflow/base.py:655-669 | the registered params (nodes) are exactly the names some class of the MRO declares as a Param (Node) |
| Declarations.MiddlewareInherited | theflow/base.py:492 | classes that do not define `Middleware` pass the lookup on to their bases |
| FieldStore.Bump | theflow/base.py:118-119 | counting a callback run adds one for that field and none for others |
| FieldStore.Recorded | theflow/base.py:154 | `__ff_depends__[field].get(target, -1)` is `-1` exactly when nothing was recorded |
| FieldStore.Record | theflow/base.py:166-171 | recording an identity changes only that field's entry for that target |
| FieldStore.StrictWriteAlwaysRaises | theflow/base.py:179-184 | as written, every write to a `strict_type` param raises KeyError because the instance dict holds no `__annotations__`; the corrected write stores the value |
| FieldStore.CachedRead | theflow/base.py:131-143 | a stored value of a cached plain param is returned and nothing changes |
| FieldStore.MissRead | theflow/base.py:131-141 | with nothing stored, or uncached: the callback's value (run once, stored), else the default, else AttributeError with nothing changed |
| FieldStore.WriteThenRead | theflow/base.py:174-189 | a value written to a cached plain param is what the next read returns |
| FieldStore.UncachedIgnoresWrite | theflow/base.py:131-141 | an uncached param with a callback ignores the written value: the read reruns the callback and overwrites it |
| FieldStore.DependentWriteRaises | theflow/base.py:175-178 | a computed param cannot be written: ValueError and nothing changes |
| FieldStore.RefreshOnSet | theflow/base.py:187-195 | `_initialize` runs exactly when the param is `refresh_on_set` and the write succeeds or the delete finds a value; a delete drops only that param |
| FieldStore.ScanStable | theflow/base.py:152-158 | with stable dependencies the scan changes nothing and reports a mismatch exactly when some identity differs from the recorded one |
| FieldStore.RefreshStable | theflow/base.py:166-171 | recording stable dependencies records each one's current identity and nothing else |
| FieldStore.RefreshOnlyField | theflow/base.py:166-171 | recording leaves every other field's record as it was |
| FieldStore.DependentRead | theflow/base.py:129-130 | a computed param returns its stored value when every dependency keeps its identity, and recomputes otherwise, in particular on the first read |
| FieldStore.RecomputeStable | theflow/base.py:158-172 | after a mismatch the callback runs once, its value is stored with a new identity and every dependency is recorded |
| FieldStore.DeletedComputedRaises | theflow/base.py:129-143 | deleting a computed param whose dependencies did not change leaves it unreadable: KeyError |
| Composables.Runtime.Mint | theflow/base.py:152-153 | `id()` hands out a new identity each time |
| Composables.Runtime.Record | theflow/base.py:549-555 | a context call is logged for that context only |
| Composables.OwnMembers | theflow/base.py:750-757 | the entries `set_run` keeps for itself are exactly those not routed to a node |
| Composables.Composable.constructor | theflow/base.py:466-485 | a new instance stores no param, node or dependency, is not in a run, and registers its class's params and nodes |
| Composables.Composable.GetParam | theflow/base.py:114-143 | reading a param changes the store as `FieldStore.ReadParam` says |
| Composables.Composable.CalculateParam | theflow/base.py:145-172 | a computed param's recalculation changes the store as the dependency scan and refresh say |
| Composables.Composable.ScanDependencies | theflow/base.py:152-158 | the loop reads each dependency and stops at the first whose identity differs from the recorded one |
| Composables.Composable.RecordDependencies | theflow/base.py:166-171 | the loop records every dependency's identity after a recomputation |
| Composables.Composable.SetParam | theflow/base.py:174-189 | a param write changes the store as `FieldStore.WriteParam` says, with the corrected `strict_type` check (see Findings), and runs `_initialize` when it refreshes |
| Composables.Composable.DeleteParam | theflow/base.py:191-195 | a param delete drops the stored value and runs `_initialize` when it refreshes |
| Composables.Composable.DeleteNode | theflow/base.py:346-348 | a node delete drops only that node |
| Composables.Composable.DelAttr | theflow/base.py:191-195 | `delattr` goes through the Param or Node descriptor, else deletes from the instance dict and raises AttributeError when absent |
| Composables.Composable.Store | theflow/base.py:338-344 | a value for a Node must be a Composable (else ValueError); a Param write goes to the field store; anything else to the instance dict |
| Composables.Composable.MakeComposable | theflow/base.py:684-688 | a Composable is kept; anything else is wrapped in a fresh proxy |
| Composables.Composable.SetAttr | theflow/base.py:618-625 | a public registered node name gets a proxy around a non-Composable value, and the value is then stored through its descriptor |
| Composables.Composable.PrepareChild | theflow/base.py:690-699 | in a run, the child gets the prefix `prefix.name`, the name numbered by earlier calls, and the parent's context; outside a run nothing changes |
| Composables.Composable.BuildNode | theflow/base.py:293-301 | a missing node is built from the callback, else the default class with `default_kwargs`, else AttributeError |
| Composables.Composable.CalculateNode | theflow/base.py:309-336 | a computed node is rebuilt only when a dependency's identity changed, then every dependency is recorded |
| Composables.Composable.GetNode | theflow/base.py:276-307 | reading a node obtains it as the field store says, prepares it as a child and returns it; the recursion limit raises RecursionError |
| Composables.Composable.Attach | theflow/base.py:305-307 | the stored node is prepared as a child and returned |
| Composables.Composable.Set | theflow/base.py:716-727 | `set` unflattens its keys and raises an unflattening error unchanged, changing nothing; without `strict` and with no dict for a node it never raises; with no dict for a node, the unflattened items are handled in order: the first `done` took effect in their own slots as `Took` says (a param or a plain attribute then holds the value, a public node name a fresh proxy, a refused write leaves its slot alone), the slots of the others are untouched, and a strict call stops exactly at the first item whose `setattr` raised |
| Composables.Composable.SetAll | theflow/base.py:718-727 | the loop over the unflattened items ends at the first error and otherwise handles them all; for distinct keys none of which is a dict for a node its outcome is the `SetOutcome` that `set` states |
| Composables.Composable.OutcomeStep | theflow/base.py:718-727 | on distinct keys, one more item handled in its own slot, leaving the other slots, extends the outcome of the items before it |
| Composables.Composable.SetItem | theflow/base.py:719-727 | a dict for a name without a Node descriptor (or past the recursion limit) raises AttributeError; any other item goes to `setattr`: its own slot changes as `Took` says, every other slot is unchanged, a non-strict call never raises, and a strict one raises exactly when the write is refused |
| Composables.Composable.Assign | theflow/base.py:722-727 | `setattr` inside the `try`: the slot of the key changes as `Took` says, every other slot is unchanged, and the error survives only under `strict` |
| Composables.AssignedSlots | theflow/base.py:618-625 | what `setattr` does to the field store, the instance dict and the nodes is the `Took` outcome for its key and leaves every other key alone; for a key whose descriptor decides, it raises exactly when the write is refused |
| Composables.AssignedParam | theflow/base.py:174-189 | through the Param descriptor, with the corrected `strict_type` check (see Findings): a write that is neither to a computed param nor a `strict_type` mismatch stores the value; a refused one raises and keeps the store |
| Composables.TookReadsBack | theflow/base.py:114-143 | a cached param that `set` wrote reads back from the field store as the value given, leaving the store unchanged; a plain attribute reads back from the instance dict |
| Composables.Composable.GetAttr | theflow/base.py:276-307 | a Param or Node of the class answers first, then the instance dict, then a plain class attribute, else AttributeError |
| Composables.Composable.SetRun | theflow/base.py:729-758 | `set_run` routes a dict for a node to that node and merges every other entry into the run kwargs (one-shot ones with `temp`) |
| Composables.Composable.SetRunItem | theflow/base.py:750-757 | one item of `set_run` is routed, or put into the run kwargs |
| Composables.Composable.Call | theflow/base.py:536-579 | a call enters the run, takes one-shot kwargs, sets up the root, merges persisted then one-shot kwargs over the call's, and runs; once `run` is reached the run state is cleared whatever it returns, while an error before that (a non-dict `_ff_run_kwargs`, a failing `set_run`, a failing `run_id`) leaves the instance in the run |
| Composables.Composable.Reset | theflow/base.py:573-577 | the `finally` clears the one-shot kwargs and the run state |
| Composables.Composable.TakeRunKwargs | theflow/base.py:542-546 | a truthy `_ff_run_kwargs` is set as one-shot run kwargs; one that is not a dict raises AttributeError |
| Composables.Composable.Administer | theflow/base.py:548-554 | a root takes its run id from the config, resets the context and records the run id; then the local context is created |
| Composables.Composable.GetFromPath | theflow/base.py:877-892 | `get_from_path` strips the outer dots and reads the attributes `PathSteps` names, in order, stopping at the first error: the segments read are always a prefix of those steps and all of them on success, and a successful answer is what `getattr` of the last step gave on the object reached (`Gave`: a param read from the field store as it was before, the node now stored, or the instance dict or plain class attribute) |
| Composables.Composable.GetLast | theflow/base.py:891-892 | a path with no dot left after stripping is one `getattr` on this object, answered as `Gave` says |
| Composables.Composable.GetFromChild | theflow/base.py:888-889 | a dotted path reads its first segment, which must hold a Composable (else AttributeError), and asks that object for the rest; what was read is that segment followed by what the rest read |
| Composables.GaveCached | theflow/base.py:129-143 | a lookup ending at a filled, cached param that depends on nothing answers with the stored object and leaves the field store unchanged |
| Composables.Composable.Apply | theflow/base.py:708-713 | `apply(fn)` calls `fn` in the post-order of the walk it went down: for each object reached, one subtree per registered node in `_ff_nodes` order, then the object itself, which comes last; past the recursion limit it raises RecursionError and calls nothing |
| Composables.Composable.ApplyNode | theflow/base.py:710-711 | `getattr(self, node).apply(fn)`: a successful call is one complete walk whose visits are its post-order |
| Composables.SubtreeBeforeParent | theflow/base.py:708-713 | the visits of each node's subtree are one contiguous block of the parent's visits, ahead of the parent |
| Composables.CompleteVisits | theflow/base.py:708-713 | a complete walk ends with its object and visits at least one object per registered node besides it |
| Composables.SetRunLookup | theflow/base.py:729-758 | after `set_run` each unrouted key takes the value given and every other run kwarg is kept |
| Composables.MergedPrecedence | theflow/base.py:542-563 | a one-shot run kwarg wins over a persisted one, which wins over a keyword of the call; `_ff_run_kwargs` itself is not passed on |
| Composables.NodeRecipe | theflow/base.py:293-301 | what a node read builds: the callback's result, else the default class with `default_kwargs`, else AttributeError |
| Composables.NodeRegistered | theflow/base.py:655-669 | a name whose nearest class attribute is a Node is a registered node |
| Composables.New | theflow/base.py:466-506 | a new instance is set up, its keywords are `set`, its middleware chain nests the listed middleware in order, and `_initialize` runs; an unflattening error is raised as is; when no unflattened keyword is a dict for a node, construction succeeds exactly when the middleware list resolves, and every keyword then holds its `set` outcome (`Outcome` from the empty instance: a param or plain attribute holds the value, a public node name a proxy, a refused write nothing) |
| Composables.Construct | theflow/base.py:467-491 | the start of `__init__`: a blank instance, then `set` with the keywords, which raises only an unflattening error and otherwise, with no unflattened keyword a dict for a node, leaves every keyword's slot as `Outcome` states from the empty instance |
| Composables.Complete | theflow/base.py:493-505 | the end of `__init__`: the middleware chain, then `_initialize` unless it already ran |
| Composables.NewProxy | theflow/base.py:955-960 | a proxy wraps the object unless it is itself a proxy, which raises ValueError |
| Composables.ProxyMiddleware | theflow/base.py:445-449 | a proxy inherits Composable's middleware list |
| Composables.ProxyCreated | theflow/base.py:940-953 | the proxy class is created from its statement |
| FlowBase.ProtectedKeywords | finestflow/base.py:237-247 | every keyword that some class of the MRO lists under `_keywords` is protected, attributed to the nearest class listing it |
| FlowBase.Collect | finestflow/base.py:210-235 | collection succeeds exactly when no public annotation of the MRO is protected, and otherwise raises the ValueError of the first one; params and nodes come back sorted, duplicate-free, and holding exactly the public non-Composable and Composable annotations |
| FlowBase.CollectAll | finestflow/base.py:217-234 | the loops over the MRO accept every public annotation, or stop at the first protected one with its error |
| FlowBase.CollectUpTo | finestflow/base.py:219-228 | the classes of the MRO are walked in order, stopping at the first refusal |
| FlowBase.CollectClass | finestflow/base.py:220-233 | one class's annotations extend what was collected, private names skipped, nodes and params split |
| FlowBase.Registers | finestflow/base.py:230-235 | sorting and deduplicating the collected names keeps exactly the names the MRO declares as params and as nodes |
| FlowBase.FlowComposable.NewProxy | finestflow/base.py:249-253 | a value for a node becomes a fresh ComposableProxy whose only param `ff_original_obj` holds the value |
| FlowBase.ProxyAnnotations | finestflow/base.py:338 | the proxy class declares exactly one public annotation, the param `ff_original_obj` |
| FlowBase.FlowComposable.SetAttr | finestflow/base.py:165-188 | assigning `nodes` or `params`, properties without a setter, raises AttributeError and changes nothing; otherwise a public, unprotected node name given a plain value stores a fresh proxy for it, and every other assignment stores the value as given |
| FlowBase.FlowComposable.HandleStepName | finestflow/base.py:255-287 | a non-string name raises TypeError; below a prefix a name with `.` or `*` raises AttributeError; otherwise the composed name is returned and becomes every node's prefix, and a node holding no Composable raises AttributeError after the nodes before it were set |
| FlowBase.FlowComposable.PushName | finestflow/base.py:284-285 | every node in turn gets the composed name as prefix, failing at the first node that holds no Composable |
| FlowBase.StepNameSplit | finestflow/base.py:279-282 | below a prefix, the composed name has the prefix's path segments plus one more: the given name, or the class name when none is given |
| FlowBase.StepNameInjective | finestflow/base.py:274-282 | under one prefix, distinct acceptable step names compose to distinct names |
| FlowBase.FlowComposable.Info | finestflow/base.py:304-322 | a successful report is `Reports`: exactly the entries type (`module.qualname`), params (each assigned param, a function rendered as `module.qualname`) and nodes, where every registered node is reported, None when it was never assigned on the instance and otherwise as that node's own report; with no node assigned it succeeds exactly when every param is assigned; recursion past the fuel raises RecursionError |
| FlowBase.FlowComposable.NodeInfos | finestflow/base.py:305-310 | every registered node is reported in `_ff_nodes` order: None when it was never assigned on the instance, else that node's own `_info()` report; with no node assigned it never raises |
| FlowBase.FlowComposable.ParamInfos | finestflow/base.py:312-316 | params are reported exactly when every declared param is assigned; otherwise KeyError |
| FlowBase.ReportUnique | finestflow/base.py:304-322 | an object has one report: two values that both report it are equal, nested node reports included |
| FlowConfigs.FlowConfig.UpdateFromDict | finestflow/config.py:53-62 | the new attributes and outcome are those of layering the dict: `__` keys skipped, an unknown key raises ValueError after the keys before it were set |
| FlowConfigs.FlowConfig.UpdateFromPipeline | finestflow/config.py:64-69 | every `Config` of the MRO is layered in reverse MRO order, base classes first |
| FlowConfigs.FlowConfig.Update | finestflow/config.py:71-77 | a dict is layered, a Pipeline class has its MRO layered, anything else raises ValueError and changes nothing |
| FlowConfigs.FlowConfig.ParseCallbacks | finestflow/config.py:40-51 | succeeds exactly when every `{{ x }}` value imports; then each available key holds its parsed value; on failure every key holds its old or its parsed value |
| FlowConfigs.NewFlowConfig | finestflow/config.py:29-38 | the defaults, then the class's MRO, then a non-empty dict are layered, and the constructor raises exactly when a layer raises |
| FlowConfigs.VerbatimApply | finestflow/config.py:53-62 | a dict applies exactly when every key that does not start with `__` is available, the only error is ValueError, and each such key then holds the value given for it |
| FlowConfigs.ParseLaterAgrees | finestflow/config.py:29-51 | parsing callbacks after layering gives the same value per key as parsing while layering: only each key's last value matters |
| FlowConfigs.VerbatimFollows | finestflow/config.py:53-62 | layering that succeeds while parsing also succeeds verbatim |
| FlowContexts.FlowContext.Set | finestflow/context/base.py:21-29 | after `set`, `get` of that name in that scope returns the value and every other entry of every scope is unchanged |
| FlowPipelines.RegisterKeeps | finestflow/pipeline.py:64-80 | a step name is registered exactly when it is not reserved, does not start with `_ff` and is not a duplicate, and registering keeps the names distinct and allowed |
| FlowPipelines.Flow.Blank | finestflow/pipeline.py:24-25 | before `__init__` both flags are False and nothing is registered |
| FlowPipelines.Flow.SetAttr | finestflow/pipeline.py:54-102 | the two flags are set as given; before `__init__` any other name raises; outside `initialize` the value is kept as given; inside, the name is checked and registered and the value wrapped; the registry stays well formed |
| FlowPipelines.Flow.Register | finestflow/workflow.py:74-110 | a refused name raises and changes nothing; an accepted one is appended in order and its value stored as the wrapping of the value |
| FlowPipelines.Flow.Wrap | finestflow/pipeline.py:81-100 | a sub-flow of the same kind is rebuilt with the parent's context (marked nested for a Pipeline); a rebuilt YourFlow shares the sub-flow's config, and a rebuilt Pipeline gets a Config of its own whose values are the sub-flow's with callbacks parsed (the corrected rebuild, see Findings); a StepWrapper is re-wrapped around the object it wraps; any other value is wrapped in a fresh StepWrapper with the parent's config and context |
| FlowPipelines.ObjAttrAsWritten | finestflow/step.py:17-21 | `wrapper._obj` is forwarded to the wrapped object, and succeeds only when that object carries an `_obj` attribute |
| FlowPipelines.RewrapLosesObject | finestflow/pipeline.py:89-94 | re-registering a StepWrapper around a plain value, as written, raises AttributeError instead of wrapping the value again |
| FlowPipelines.PipelineConfig | finestflow/pipeline.py:37 | a Pipeline's config is the defaults, the class MRO and a non-empty dict layered in turn, and raises exactly when and as a layer raises; a Config object or a non-empty path given as `config` always raises, with ValueError when the class layers succeed |
| FlowPipelines.RebuildConfig | finestflow/pipeline.py:81-88 | rebuilding a nested Pipeline from its config's own values succeeds exactly when the class layers do, and reproduces those values |
| FlowPipelines.ExportLast | finestflow/pipeline.py:83-87 | layering a config's exported values last reproduces them, whatever the class layers set |
| FlowPipelines.Flow.Init | finestflow/pipeline.py:28-46 | after `__init__` the flow is not initializing, has no prefix, is not nested, keeps the given kwargs and context, and has registered its steps' names in order; a Pipeline's fresh config holds the layered values with callbacks parsed, and a layering raise is the constructor's; a YourFlow keeps the config its argument gives, and an unreadable path raises; a flow without `initialize` raises |
| FlowPipelines.Flow.Configure | finestflow/workflow.py:42-49 | a Pipeline builds a fresh Config holding the layered values, raising exactly when the layering does or the argument is refused; a YourFlow keeps the given dict or Config, `{}` when none is given, and a path's decoded dict, raising when the path cannot be read |
| FlowPipelines.Flow.Initialize | finestflow/pipeline.py:104-108 | a Pipeline's callbacks are parsed in its config, then `initialize` runs with the registering flag up and leaves it down, registering the steps' names in order |
| FlowPipelines.Flow.RunSteps | finestflow/workflow.py:114-117 | a subclass's assignments run in order, the first raise ending them, and the registry stays well formed |
| FlowPipelines.NewFlow | finestflow/workflow.py:33-57 | constructing a flow gives a fresh, initialised flow with no prefix, the given kwargs and context and its steps registered in order; a Pipeline's config is fresh and holds the layered values with callbacks parsed, a layering raise being the constructor's; a YourFlow's config is what its argument gives, and an unreadable path raises |
| FlowPipelines.Flow.IsPipelineNested | finestflow/pipeline.py:168-181 | a given flag is set, none leaves it unchanged, and the current flag is returned |
| FlowPipelines.Stripped | finestflow/pipeline.py:113-125 | `run` receives the keyword arguments with the routing keys removed and every other key unchanged |
| FlowPipelines.CallNameSplit | finestflow/pipeline.py:125-129 | a nested call needs a non-empty name, and its name is the prefix's segments followed by the given name's |
| FlowPipelines.RoutingFrom | finestflow/workflow.py:122-132 | a truthy `_ff_from` records `from` and turns `good_to_run` off in the global scope; without one both keep what the scope held |
| FlowPipelines.AppliedLast | finestflow/pipeline.py:116-122 | after the routing writes, each global name holds its last write and every other entry is as before |
| FlowPipelines.Flow.PushPrefix | finestflow/pipeline.py:130-131 | every step gets the run's name as prefix, and a step that cannot take one raises AttributeError |
| FlowPipelines.Flow.Call | finestflow/pipeline.py:110-137 | routing keys are popped and written to the global scope; a nested call without a name raises; otherwise the steps get the run's name as prefix, `run` gets the rest, and its record is stored under the name |
| FlowPipelines.Flow.Run | finestflow/workflow.py:144-148 | on success the result is `run`'s and the store gains the record under the name (bare output for YourFlow, input and output for Pipeline); on failure the store is unchanged |
| FlowPipelines.Flow.Route | finestflow/workflow.py:126-135 | the context after routing is the old context with the routing writes applied in order |
| FlowMiddlewares.ObjType | finestflow/middleware.py:26-37 | a Pipeline is typed `pipeline` and a Step or StepProxy `step`; no object raises ValueError and any other object AttributeError |
| FlowMiddlewares.NewMiddleware | finestflow/middleware.py:20-37 | a middleware is built exactly when the object has a type, and holds that object and type |
| FlowMiddlewares.Middleware.Run | finestflow/middleware.py:45-50 | `run` dispatches on the object type: for `step` or `pipeline` the outcome is that of `run_step` or `run_pipeline` (the base middleware hands back `(args, kwargs)` and changes nothing, the skip middleware's outcome is `SkipStepped` or `SkipPiped`, the track middleware's is `Tracked` with a fresh log); any other type raises NotImplementedError |
| FlowMiddlewares.Middleware.RunStep | finestflow/middleware.py:39-40 | `run_step` of each middleware: the base one returns `(args, kwargs)` and changes nothing, the skip one decides as `SkipStepped`, the track one logs the call and returns as `Tracked` |
| FlowMiddlewares.Middleware.RunPipeline | finestflow/middleware.py:42-43 | `run_pipeline` of each middleware: the base one returns `(args, kwargs)` and changes nothing, the skip one routes as `SkipPiped`, the track one records the config, logs the call and returns as `Tracked` |
| FlowMiddlewares.Middleware.SkipStep | finestflow/middleware.py:74-118 | an unnamed call runs; a named one runs, resumes or is served from the previous run as the scope's flag, the global `from` and `to` and the step's full name decide |
| FlowMiddlewares.Middleware.SkipPipeline | finestflow/middleware.py:120-143 | truthy `_ff_from` and `_ff_to` move into the global scope, and a named pipeline that is the parent of `from` turns its own scope's flag off before running |
| FlowMiddlewares.Middleware.Gather | finestflow/middleware.py:122-131 | the global scope gets `from` and `to` from the truthy keywords, in order |
| FlowMiddlewares.Middleware.MarkParent | finestflow/middleware.py:133-143 | a named pipeline that is the parent of `from` sets `good_to_run` False in its own scope, then runs |
| FlowMiddlewares.PipelineRestKeeps | finestflow/middleware.py:123-131 | the three routing keys are popped and every other key keeps its value |
| FlowMiddlewares.Middleware.TrackStep | finestflow/middleware.py:152-167 | a named call that returns is logged with its input and output; an unnamed call or one that raises logs nothing; the result is the next call's |
| FlowMiddlewares.Middleware.TrackPipeline | finestflow/middleware.py:169-181 | a root pipeline records its config export; the call is then logged as a step and, for a name that is None, a string, an int or a bool, its result is the next call's (`Tracked`) |
| FlowMiddlewares.NamesAgree | finestflow/middleware.py:86-89 | under a prefix the skip and track middlewares and the flow's call use the same name `prefix.name`; at the root skip matches `None.name` while track and the flow use the bare name |
| FlowMiddlewares.NeverSkipped | finestflow/middleware.py:115-118 | with the flag on and no step named `to`, every step of a scope runs |
| FlowMiddlewares.AlwaysSkipped | finestflow/middleware.py:104-113 | with the flag off and no step matching `from`, every step of a scope is served from the previous run |
| FlowMiddlewares.FromResumes | finestflow/middleware.py:91-102 | with the flag off, a step is served from the previous run exactly when neither it nor any earlier step matches `from` |
| FlowMiddlewares.ToHalts | finestflow/middleware.py:115-118 | with the flag on, a step is served from the previous run exactly when an earlier step was `to`; `to` itself runs |
| FlowMiddlewares.ResumePoint | finestflow/middleware.py:137-141 | the pipeline at path `p` is the parent of `from == p.last` and turns its own flag off; inside it the step `last` matches `from` and a different sibling does not |

## Left out

- Filesystem and environment access is not modelled:
  - `project_root`, `get_theflow_path`, `default_theflow_path` and `temp_path` in theflow/utils/paths.py;
  - the settings package and the storage package;
  - `project_root`, `get_finestflow_path`, `get_or_create_finestflow_path` and `import_dotted_string` in finestflow/utils.py, and the callbacks modules.
- finestflow/middleware.py imports `Step` and `StepProxy` from finestflow/step.py (line 24), which defines only `StepWrapper`, so as written every Middleware construction raises ImportError at that import. The model takes `Step` and `StepProxy` as abstract classes, the kinds `StepObj` and `StepProxyObj` of `FlowMiddlewares.ObjKind`, which `obj_type` classifies as `"step"`.
- finestflow/middleware.py imports `is_name_matched` (line 97) and `is_parent_of_child` (line 138) from finestflow/utils.py, which defines neither, so as written the skip middleware raises ImportError whenever it reaches one of those two lines (a named step while `good_to_run` is False, or a named pipeline while `from` is set). The model gives these names the meaning of theflow's definitions in theflow/utils/paths.py.
- `RunTracker.persist`, `RunTracker.load` (pickle and YAML file reading) and RunManager are not modelled. The entries a previous run saved are a parameter (`loaded`), and so is the output a skipped step reuses.
- The pickle and JSON writes at the end of `Pipeline.__call__` and `YourFlow.__call__` are left out, as is reading a YourFlow's config or a theflow Config from a JSON or YAML path.
- Concurrency is left out: the multiprocessing Manager and RLock of the memory cache, the cache locks of the context store, and theflow/utils/multiprocess.py. The calling thread is an explicit parameter of the backend's per-thread state.
- Logging is not modelled anywhere. The memory cache's `timeout` arguments therefore change nothing, as in the source, which only logs them. `close` has an empty body and no counterpart.
- The network half of theflow/backends/http_sync.py (`HttpSyncBackend`, the exception handler) is left out. Only `local_only_func_def` is modelled.
- Hashes: the md5 digest is an abstract function of the fed token stream, and floats are not modelled.
- Modules: the unsafe `importlib` branch of `import_dotted_string` is left out, because what it returns depends on installed code. The serialization of builtins, typing objects and `__persist_flow__` objects is not modelled, and `Object` values are refused with ValueError there.
- Runtime reflection is not modelled:
  - `contains_composable_in_annotation` is an abstract classification of each annotation;
  - `is_compatible`, `specs`, `missing`, `describe`, `visualize`, the `params` property, `__repr__`/`__str__`, and finestflow's `apply` and `visualize` are left out.
- Composables:
  - `_initialize` is only counted. Creating the config and context, and passing them down to nodes, are not modelled, and neither is the context property setter.
  - The `run` body and the middleware's `next_call` are abstract functions of the call's arguments, with a ghost counter of how often they are invoked.
  - A non-Composable node value is treated as refusing attribute writes.
  - A Composable held in a param is shown by its type.
- `ComposableProxy.__call__`, `__getattr__` and `_create_callable` are not modelled, because they forward to arbitrary foreign objects.
- Middlewares.CachingMiddleware.constructor: the cache is given to the constructor instead of being built from the settings' `CACHE` entry.
- finestflow/step.py: only the `_obj` lookup that re-registration relies on is modelled. The wrapper's own skip branch reads a JSON cache file and calls `get_context`/`add_context`, which no context class of the repository defines.
- FlowMiddlewares.Middleware.SkipStep: a `_ff_name` other than a str, int or bool is refused with TypeError, where Python would format it with `str()`; the same holds for `FlowMiddlewares.Middleware.TrackStep`.
- FlowMiddlewares.Middleware.TrackPipeline: `export()` of the finestflow Config is not defined in finestflow/config.py. Its result is a parameter of the wrapped object, and the final `persist` is not modelled.
- FlowBase.FlowComposable.SetAttr: assigning `context` goes through the property setter `_set_context` (finestflow/base.py:154-163), which also assigns the context to every node that is a Composable, recursively; the model stores the value as given and does not propagate it. Assigning `config` would go through the `ConfigProperty` descriptor (finestflow/base.py:64), which finestflow/config.py does not define; the model stores it as given.
- FlowPipelines.ConfigArg: opening and decoding a JSON config path (finestflow/workflow.py:44-48) is I/O; its outcome is the `loaded` field of `GivenPath`, a dict or a raise, and a JSON file whose top level is not an object is not modelled. A Pipeline documents a path as its `config` (finestflow/pipeline.py:20), but `Config.update` refuses a string; the model follows the code (`FlowPipelines.Refused`).
- FlowPipelines.Flow.Wrap: a flow that itself carries an `_obj` attribute is not modelled; the rebuild of a nested flow is bounded by a `fuel` parameter, and exhausting it raises RecursionError.
- FlowBase.FlowComposable.Info: node reports recurse at most `fuel` levels. Exhausting it raises RecursionError, as Python's recursion limit would.
- Configs: `ConfigProperty.__set__` raises ValueError for any value that is not a Config, so its later dict and None branches can never run; they are not modelled.
- theflow/context.py's `__init__` seeds the key `__all_contexts__`, while `create_context` and the listing use `__all_contexts`. The model keeps both keys as written (`Contexts.SeedIgnored` states that the seed is never read).
- The regex `$` in `is_name_matched` also matches before a trailing newline; names are assumed to contain no newline.
- Test expectations in tests/test_utils.py for hash digests do not match the shown `naivehash` and are not modelled.
- Composables.Composable.CalculateParam: a `depends_on` target is read as a Param of the same object. A target naming a Node (tests/test_compose.py:28) or any other attribute, which `id(getattr(obj, target))` also accepts, is not modelled; the same holds for `Composables.Composable.ScanDependencies`, `Composables.Composable.RecordDependencies`, `Composables.Composable.CalculateNode`, `FieldStore.Scan` and `FieldStore.Refresh`.
- FieldStore.RunCallback: every value a callback returns gets a fresh identity, so a callback that returns an object it returned before is seen as a change by the `depends_on` scan.
- Composables.New: the positional `_params` dict of `__init__` (theflow/base.py:466, 488-491) is not modelled; only keyword arguments are `set`. The same holds for `Composables.Construct`.
- Composables.Composable.Set: keyword values are plain values, so a Composable instance cannot be passed as a keyword (as in `Plus(a=20, e=20, x=Sum1(a=20))`, tests/test_compose.py:48): a value given for a node name is always wrapped in a fresh proxy, where `_make_composable` (theflow/base.py:684-688) keeps a given Composable as the node itself. The same holds for `Composables.Composable.SetAll`, `Composables.Composable.SetItem`, `Composables.Composable.Assign`, `Composables.AssignedSlots`, `Composables.New` and `Composables.Construct`; `Composables.Composable.SetAttr` and `Composables.Composable.MakeComposable` do take a Composable.
- Composables.Composable.Set: the per-item outcome (`SetOutcome`) is stated only when no unflattened item is a dict for a node, because a node's own `set` can reach back through the graph to this object; for a public registered node name whose nearest class attribute is not a Node, the slot outcome is not stated either (`Settled`). The same holds for `Composables.Composable.SetAll` and `Composables.Composable.SetItem`.
- Composables.Composable.Apply: the subtree walked for a node is not tied to the object stored under that node's name, only to a complete walk of some Composable.
- Composables.Composable.GetFromPath: a failed lookup does not say which error the failing segment raised, only which segments were read.
- Configs.Inherited: `hasattr(cls, "Config")` and `cls.Config` resolve through each class's own MRO; the model takes the nearest later entry of the derived class's MRO, which agrees under single inheritance but can pick a sibling's `Config` under multiple inheritance. The same holds for `Configs.MroLayers`, `Configs.Config.UpdateFromPipeline` and `FlowConfigs.FlowConfig.UpdateFromPipeline`.
- PyValues.Dict: dictionary keys are strings only; `naivehash` sorts the keys of any dict (theflow/utils/hashes.py:31), which the model covers for string keys only.
- FlowMiddlewares.Middleware.TrackStep: a `_ff_name` is logged as text (an int or bool name rendered as a string, any other type refused with TypeError), where at the root Python logs the raw value of any type (finestflow/middleware.py:157-161).
- FlowPipelines.Flow.Call: the run's name is a separate string argument, standing for the `_ff_name` popped from the keyword arguments with default `""` (finestflow/pipeline.py:125); a non-string `_ff_name`, which Python would splice into the prefixed name with an f-string or store raw at the root, is not modelled.
- Debug: the lookup of a step's spec is total, so the AttributeError that a missing spec raises is not modelled.
- Pretties.Unflatten: the nested dicts it builds are values, so the aliasing between them and the caller's dict is not modelled.
- finestflow/__init__.py defines only the pydantic prototype `Step`, so `from finestflow import Pipeline` in the examples does not resolve; the model follows finestflow/pipeline.py directly.

## Findings

| source | as written | input that shows it | evidently intended | confidence | as-written member | corrected member |
|---|---|---|---|---|---|---|
| theflow/base.py:262-265 | the error message of the `depends_on` plus `no_cache` check reads `self._name`, which is set only later by `__set_name__` | `Node(depends_on=["x"], no_cache=True)` raises AttributeError | ValueError "depends_on and no_cache cannot be both set" | high, not executed | Declarations.NodeInitWrongError | Declarations.NodeInit |
| theflow/base.py:179-184 | a `strict_type` write looks up `obj.__dict__["__annotations__"]`, which an instance dict never holds | any write, even a conforming value, to a `strict_type` param raises KeyError | conforming values are stored, others raise ValueError | high, not executed | FieldStore.StrictWriteAlwaysRaises | FieldStore.WriteThenRead |
| theflow/base.py:508-522 | `_prepare_child` gives a child the prefix `prefix.name`, and `abs_path` adds another `.name`, so below the first level the path has an extra leading dot | a grandchild `a1` of child `a` gets `..a.a1` | `.a.a1`, as the docstring of `abs_path` shows | high, not executed | Naming.AsWrittenIsFixedWithExtraDot | Naming.FixedMatchesDocstring |
| finestflow/pipeline.py:89-94 | re-registering a StepWrapper reads `value._obj`, which the wrapper forwards to the wrapped object because the stored attribute is `_ff_obj` | assigning a StepWrapper around `1` as a step of another Pipeline raises AttributeError | the new StepWrapper wraps the same object | high, not executed | FlowPipelines.RewrapLosesObject | FlowPipelines.Flow.Wrap |
| finestflow/pipeline.py:81-88 | a nested Pipeline is rebuilt with `config=value._ff_config`, a Config object, which `Config.update` refuses as neither dict nor Pipeline class | assigning any Pipeline instance as a step of another Pipeline raises ValueError | the rebuilt Pipeline keeps the nested one's config values | high, not executed | FlowPipelines.PipelineConfig | FlowPipelines.RebuildConfig |
