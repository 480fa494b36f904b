# redux-adapter: the slice compiler and store wiring, in Dafny

This project models the core of `@reworkjs/redux-adapter`. That package lets
an application declare a Redux state slice as a fully static class, decorated
with `@storePart`:

- plain static fields become the slice's stored state;
- static getters become derived (computed) fields;
- methods tagged `@reducer` become action handlers, with the methods replaced
  by action builders;
- methods tagged `@saga` become effect watchers, optionally with a
  `<name>.running` status field.

The decorator compiles such a class. It produces:

- a generated reducer that merges what the handlers assigned over the
  previous sub-state;
- an access gate on every field, which gives a handler the live value, gives
  a derived selector the projected value, and gives outside code a selector;
- a list of effect watchers.

The package also creates the store. It gathers every global slice's reducer
and watchers, builds the root reducer map, records it, and starts the
watchers once each. At run time it merges new reducers into the root reducer
(`installReducers`) and starts new effect handlers (`installSagas`).

## Modules

| File | Module | What it models |
|---|---|---|
| `js.dfy` | `Js` | JavaScript values, the exceptions the core raises, `Result`, truthiness and `typeof` |
| `utils.dfy` | `Utils` | `toArray`; a `Map` with insertion order (the write-set); `mapToObject` |
| `meta.dfy` | `PropertyMeta` | the per-method metadata record and `Set` semantics |
| `reducer_decorator.dfy` | `ReducerDecorator` | `@reducer`: option parsing, tagging, and `transform` on the metadata record (a class) |
| `store_part_codec.dfy` | `StorePartCodec` | `parseOptions`, the domain identifier, the domain registry (a class), `selectDomain`, action types, action builders, `orderedClampUp` and the take-strategy choice |
| `access_gate.dfy` | `AccessGate` | specification functions for the access gate: field reads and writes, handler execution, the generated reducer, derived selectors and `select` |
| `gate_properties.dfy` | `GateProperties` | what the reducer and the gate promise, as lemmas |
| `slice.dfy` | `SliceRuntime` | the compiled slice as a class whose two slots are updated in place; each method is proved equal to its specification function |
| `extraction.dfy` | `Extraction` | `extractFromProvider` and its helpers, as functions and as the in-place data bag (a class) |
| `store.dfy` | `ReduxStore` | the patched store: the installed-reducers record, `replaceReducer`, `runSaga` with de-duplication, and the array-aware `dispatch` |
| `install_sagas.dfy` | `InstallSagas` | `installSagas` |
| `install_reducers.dfy` | `InstallReducers` | `getReducerName`, `reducerArrayToMap`, `markReducerInstalled`, `installReducers` |
| `create_store.dfy` | `CreateStore` | `createConfiguredStore` |
| `store_part.dfy` | `StorePart` | the `@storePart` decorator entry point |

### How the access gate is represented

A slice class has three slots:

- the state slot (`PROVIDER_STATE_ACCESSOR`);
- the write-set slot (`mutatedProperties`);
- the container-state snapshot (`PROVIDER_APP_STATE_ACCESSOR`).

The first two always change together, so they are one `Mode`:

- `Pristine`: the state slot holds the sentinel and the write slot was never
  set;
- `Reducing(state, writes)`: a reduction is in progress;
- `Immutable`: both slots hold the sentinel.

The snapshot is independent of the mode, and `Gate` pairs the two.

The two getters test the slots in different orders:

- a stored field's getter tests the snapshot first;
- a derived field's getter tests "reducing" first.

Both orders are kept, and `GateProperties.SnapshotBeforeReducing` states the
consequence.

### How handlers and getters are represented

Handler bodies are sequences of `Assign(field, expr)` and `Throw` statements.
Getters are expressions over literals, the handler's positional arguments,
other fields, and array literals. A getter that reads a derived field runs
that field's getter. `stack`/`depth` counts the frames left and stands in for
the engine's call-stack limit.

Parameters replace what cannot be computed here:

- `cc: string -> string` stands for the `constant-case` package;
- `production: bool` stands for `process.env.NODE_ENV === 'production'`;
- the list of global store parts is passed in as `seq<StoreModule>`.

## Model

| member | source | states |
|---|---|---|
| Utils.ToArray | src/utils/utils.js:3-13 | null or undefined give the empty list, an array is returned as it is, any other value is wrapped in a one-element list |
| Utils.ToArrayIdempotent | src/utils/utils.js:3-13 | normalising an already normalised list changes nothing |
| Utils.Lookup | src/storePart/decorators/provider/StorePartDecorator.js:443-444 | `has`/`get` on the write-set: absent exactly when no entry has the key |
| Utils.MapSetSpec | src/storePart/decorators/provider/StorePartDecorator.js:450-452 | after `set(k, v)` the keys are the old keys plus `k`, `get(k)` is `v`, and every other key reads as before |
| Utils.MapSetDistinct | src/storePart/decorators/provider/StorePartDecorator.js:450-452 | `set` keeps the keys of the write-set distinct |
| Utils.AsObject | src/utils/utils.js:15-23 | the object has exactly the map's keys, each bound to the map's value |
| Utils.MapToObject | src/utils/utils.js:15-23 | copying entry by entry yields exactly the map's keys, each with the map's value (the `AsObject` of the map) |
| PropertyMeta.SetAddSpec | src/storePart/decorators/provider/ReducerDecorator.js:51-61 | `Set.add` keeps the set free of duplicates, keeps its elements and adds the new one |
| ReducerDecorator.ParseOptions | src/storePart/decorators/provider/ReducerDecorator.js:24-44 | more than one argument is refused; null or undefined means no options; a non-object is taken as the action type; the action type must be nullish, a string or a function; every error is a `TypeError` |
| ReducerDecorator.ArrayBranchUnreachable | src/storePart/decorators/provider/ReducerDecorator.js:56-59 | option parsing never lets an array through, so the array branch of `transform` is dead |
| ReducerDecorator.ParseActionType | src/storePart/decorators/provider/ReducerDecorator.js:67-78 | a function stands for its truthy `actionType` and fails without one; any other value is kept as it is |
| ReducerDecorator.AddAllGrows | src/storePart/decorators/provider/ReducerDecorator.js:56-59 | adding several types only grows the listened set and keeps it duplicate-free |
| ReducerDecorator.ListenedGrows | src/storePart/decorators/provider/ReducerDecorator.js:50-62 | the existing set is kept and only grows with no duplicates; no action type means the dynamic sentinel is listened to; a type already present changes nothing; a string type is added |
| ReducerDecorator.MethodMetadata.SetPropertyType | src/storePart/decorators/provider/ReducerDecorator.js:17-19 | tagging succeeds exactly when the method is untagged or already has this tag, and only then changes the tag |
| ReducerDecorator.Transform | src/storePart/decorators/provider/ReducerDecorator.js:46-65 | the listened set becomes the one `Listened` specifies; the dynamic sentinel becomes the action type exactly when no action type is given; it fails exactly when an action type cannot be resolved |
| ReducerDecorator.Decorate | src/storePart/decorators/provider/ReducerDecorator.js:13-22 | bad options fail before anything changes; a method tagged with another kind is refused unchanged; otherwise it is tagged as a reducer and its metadata is transformed: the listened set grows as `Listened` says, the action type becomes the dynamic sentinel exactly when none is given, and it fails exactly when an action type cannot be resolved, with that error |
| StorePartCodec.ParseOptions | src/storePart/decorators/provider/StorePartDecorator.js:52-78 | at most one argument; a falsy one means no domain; a string or symbol is the domain; an object must carry a string or symbol `domain`; anything else is refused; every error is a `TypeError` |
| StorePartCodec.DomainIdentifier | src/storePart/decorators/provider/StorePartDecorator.js:107 | a non-empty string or a symbol is the domain; otherwise `RJS-` followed by the class name |
| StorePartCodec.DefaultDomain | src/storePart/decorators/provider/StorePartDecorator.js:102-107 | without a truthy argument the slice is named after its class |
| StorePartCodec.DomainRegistry.Register | src/storePart/decorators/provider/StorePartDecorator.js:108-112 | a domain already registered is refused with the registry unchanged; a new one is appended; no domain is ever registered twice |
| StorePartCodec.SelectDomain | src/storePart/decorators/provider/StorePartDecorator.js:114-124 | the sub-state is returned exactly when it is present and not undefined; otherwise the missing-subdomain error |
| StorePartCodec.SelectProperty | src/storePart/decorators/provider/StorePartDecorator.js:418-424 | a stored field's selector projects `appState[domain][name]` and succeeds only when the sub-state exists |
| StorePartCodec.ParseActionType | src/storePart/decorators/provider/StorePartDecorator.js:266-272 | the dynamic sentinel becomes `@@` + cased domain + `/` + cased member; an explicit type is kept |
| StorePartCodec.DynamicTypeRoundTrip | src/storePart/decorators/provider/StorePartDecorator.js:266-272 | a dynamic action type splits back into the cased domain and cased member it was built from |
| StorePartCodec.DynamicTypesDistinct | src/storePart/decorators/provider/StorePartDecorator.js:266-272 | differently cased (domain, member) pairs never share a dynamic action type |
| StorePartCodec.CreateAction | src/storePart/decorators/provider/StorePartDecorator.js:255-259 | an action builder returns its action type with the argument list as payload |
| Js.Unpack | src/storePart/decorators/provider/StorePartDecorator.js:146-152 | an array payload is spread into the handler's arguments; any other payload is the one argument |
| StorePartCodec.BuilderArgumentsRoundTrip | src/storePart/decorators/provider/StorePartDecorator.js:146-152 | a handler receives exactly the arguments its action builder was called with |
| StorePartCodec.OrderedClampUp | src/storePart/decorators/provider/StorePartDecorator.js:349-357 | the result is undefined exactly for no keys and is always one of the keys; on ascending keys it is the least key above `i`, or the greatest key when none is above `i` |
| StorePartCodec.SortedKeys | src/storePart/decorators/provider/StorePartDecorator.js:328 | the table's keys, strictly ascending, and nothing else |
| StorePartCodec.TakeKeys | src/storePart/decorators/provider/StorePartDecorator.js:327-328 | no key list without a table; otherwise exactly the table's keys, strictly ascending |
| StorePartCodec.ClampKey | src/storePart/decorators/provider/StorePartDecorator.js:328-333 | no key exactly for an empty table; otherwise always one of the table's keys |
| StorePartCodec.ClampKeyOrder | src/storePart/decorators/provider/StorePartDecorator.js:349-357 | the key picked is the least key above `i`, or the greatest key when none is above `i` |
| StorePartCodec.StrategyFor | src/storePart/decorators/provider/StorePartDecorator.js:333 | `takeLatest` without a key list; an empty key list or a key missing from the table fails (undefined is called); a found strategy is the table's entry under `orderedClampUp` of the keys |
| StorePartCodec.StrategyForTable | src/storePart/decorators/provider/StorePartDecorator.js:327-333 | over the table's own keys: `takeLatest` without a table, a failure for an empty table, and otherwise the entry under the `ClampKey` of the table's keys |
| AccessGate.ReadStored | src/storePart/decorators/provider/StorePartDecorator.js:430-448 | a set snapshot is projected first; otherwise, outside a reduction, the field's selector; inside one, the written value, else the state's value |
| AccessGate.ReadField | src/storePart/decorators/provider/StorePartDecorator.js:400-415 | non-fields read as undefined; outside a reduction and without a snapshot a field yields its selector; otherwise a value, with a derived field running its getter |
| AccessGate.SetField | src/storePart/decorators/provider/StorePartDecorator.js:450-452 | a derived field refuses assignment; a stored field fails before the first reduction and after one, and during one adds to the write-set without touching the state or the snapshot |
| AccessGate.Select | src/storePart/decorators/provider/StorePartDecorator.js:176-186 | a missing store is refused; only a stored field's selector is selectable; it is applied to the store's state |
| GateProperties.NoListenerIdentity | src/storePart/decorators/provider/StorePartDecorator.js:134-140 | an action nobody listens to returns the state itself (the initial state for undefined) and leaves the slots alone |
| GateProperties.UndefinedIsInitial | src/storePart/decorators/provider/StorePartDecorator.js:134 | reducing undefined is reducing the initial state |
| GateProperties.ReadAfterWrite | src/storePart/decorators/provider/StorePartDecorator.js:442-452 | inside a reduction a stored field reads back the last value assigned to it, and other fields are unaffected |
| GateProperties.ReadWithoutWrite | src/storePart/decorators/provider/StorePartDecorator.js:442-447 | a stored field not yet assigned reads the value of the state being reduced |
| GateProperties.RunBodyWritesStored | src/storePart/decorators/provider/StorePartDecorator.js:450-452 | running a body keeps the reduction open and writes only stored fields |
| GateProperties.RunHandlersWritesStored | src/storePart/decorators/provider/StorePartDecorator.js:146-152 | running all handlers keeps the reduction open and writes only stored fields |
| GateProperties.RunBodyAppend | src/storePart/decorators/provider/StorePartDecorator.js:146-152 | running two bodies in turn is running their concatenation |
| GateProperties.HandlersRunInOrder | src/storePart/decorators/provider/StorePartDecorator.js:146-152 | the handlers of a type run once each, in registration order, sharing one write-set |
| GateProperties.ReduceMerges | src/storePart/decorators/provider/StorePartDecorator.js:157-164 | a successful matched reduction yields exactly the keys of the state plus the keys written during it, adds only stored fields, keeps the others unchanged, binds each key to its end-of-reduction value, and closes the gate |
| GateProperties.RestoredAfterReduce | src/storePart/decorators/provider/StorePartDecorator.js:154-155 | after a reduction an assignment is denied and reads yield selectors again |
| GateProperties.WriteBeforeFirstReduction | src/storePart/decorators/provider/StorePartDecorator.js:450-452 | before the first reduction an assignment fails with a `TypeError`, not with the access-denied error |
| GateProperties.ThrowLeavesReducing | src/storePart/decorators/provider/StorePartDecorator.js:142-155 | a throwing handler leaves the reduction open, so later outside reads return values instead of selectors |
| GateProperties.EmptyBodiesWriteNothing | src/storePart/decorators/provider/StorePartDecorator.js:146-152 | handlers that assign nothing leave the gate as it was |
| GateProperties.FreshWithoutWrites | src/storePart/decorators/provider/StorePartDecorator.js:157-164 | as written, a matched action whose handlers assign nothing still yields a fresh object, where the intended reducer yields the same state |
| GateProperties.IntendedReduceKeepsIdentity | src/storePart/decorators/provider/StorePartDecorator.js:157-159 | the intended reducer has the same slots and errors as the written one, yields equal contents, and hands back the state itself exactly when nothing was written |
| GateProperties.SnapshotBeforeReducing | src/storePart/decorators/provider/StorePartDecorator.js:430-434 | during a reduction with a snapshot set, a stored field reads the snapshot's projection, not the live value |
| GateProperties.NestedSelectorRestores | src/storePart/decorators/provider/StorePartDecorator.js:407-410 | outside a reduction, with a snapshot set, a derived field is evaluated under that same snapshot |
| GateProperties.SelectorRestoresOnReturn | src/storePart/decorators/provider/StorePartDecorator.js:388-398 | a derived selector that returns puts the gate back as it found it |
| GateProperties.StaleSnapshotAfterThrow | src/storePart/decorators/provider/StorePartDecorator.js:388-398 | as written, a selector whose getter throws leaves the snapshot set, so a later outside read of a stored field fails instead of yielding its selector |
| GateProperties.IntendedSelectorRestores | src/storePart/decorators/provider/StorePartDecorator.js:394-397 | the intended selector returns the same result and leaves every field read as it was |
| GateProperties.IntendedSelectorAfterThrow | src/storePart/decorators/provider/StorePartDecorator.js:388-398 | on the input that leaves the written selector's snapshot stale, the intended one fails the same way, puts the gate back, and a later outside read of the stored field yields its selector |
| GateProperties.SelectStoredOnly | src/storePart/decorators/provider/StorePartDecorator.js:181-185 | outside code can `select` a stored field's selector but not a derived field's |
| SliceRuntime.Slice.constructor | src/storePart/decorators/provider/StorePartDecorator.js:126 | a compiled slice starts with the sentinel in its state slot, no write-set and no snapshot |
| SliceRuntime.Slice.Write | src/storePart/decorators/provider/StorePartDecorator.js:450-452 | an assignment updates the mode in place exactly as `SetField` says, and leaves it unchanged on error |
| SliceRuntime.Slice.GetterSelector | src/storePart/decorators/provider/StorePartDecorator.js:388-398 | the result and the slots are those of `GetterSelectorSpec`, with no restoration when the getter throws |
| SliceRuntime.Slice.Reduce | src/storePart/decorators/provider/StorePartDecorator.js:134-165 | the result and the slots after the loop over handlers and statements are those of `ReduceSpec` |
| Extraction.AddListenersInOrder | src/storePart/decorators/provider/StorePartDecorator.js:202-208 | a type's list is created on first use; its handlers are kept in registration order after those it had |
| Extraction.AddListenersAppend | src/storePart/decorators/provider/StorePartDecorator.js:202-208 | registering two batches in turn is registering their concatenation |
| Extraction.BuilderFor | src/storePart/decorators/provider/StorePartDecorator.js:243-264 | a method without a truthy action type is killed; otherwise it becomes a builder of its derived action type |
| Extraction.ReducerPairs | src/storePart/decorators/provider/StorePartDecorator.js:280-282 | a reducer method listens, under each of its listened types in order, with itself |
| Extraction.ExtractState | src/storePart/decorators/provider/StorePartDecorator.js:359-381 | non-configurable members and setters are refused with a `TypeError`; a getter becomes a derived field; a value becomes a stored field with that initial value |
| Extraction.WatchesShape | src/storePart/decorators/provider/StorePartDecorator.js:330-338 | the watches gathered keep those already there and add exactly one per remaining listened type |
| Extraction.WatchesSpec | src/storePart/decorators/provider/StorePartDecorator.js:330-338 | each listened type is watched at its own position, with its strategy and its derived action type |
| Extraction.WatchesFail | src/storePart/decorators/provider/StorePartDecorator.js:333-335 | a listened type whose take function cannot be found fails the whole list |
| Extraction.WatchesTypes | src/storePart/decorators/provider/StorePartDecorator.js:330-338 | one watch per listened type, in order, each for the type's derived action type, with `takeLatest` when there is no table |
| Extraction.WithStatus | src/storePart/decorators/provider/StorePartDecorator.js:296-317 | status tracking leaves the watchers and builders alone; without tracking nothing changes; a killed method cannot get the status selector |
| Extraction.Tracking | src/storePart/decorators/provider/StorePartDecorator.js:296-322 | a handler's calls are wrapped with a status action type exactly when it is tracked |
| Extraction.ExtractSagaSagas | src/storePart/decorators/provider/StorePartDecorator.js:324-346 | without listened types the watchers are unchanged; otherwise exactly one watcher, over the listened types, is appended |
| Extraction.ExtractSagaListeners | src/storePart/decorators/provider/StorePartDecorator.js:296-317 | a tracked effect adds its status listener; an untracked one adds no listener |
| Extraction.ExtractMember | src/storePart/decorators/provider/StorePartDecorator.js:213-236 | blacklisted names and action generators are skipped; non-methods are treated as state |
| Extraction.ExtractAllListeners | src/storePart/decorators/provider/StorePartDecorator.js:211-237 | the listeners of every type are the matching reducer methods and status setters, in class order |
| Extraction.TrackedSaga | src/storePart/decorators/provider/StorePartDecorator.js:296-317 | a tracked effect gets a stored `<name>.running` field starting false, an action builder, and its status listener last in its type's list |
| Extraction.RunningHandlerWrites | src/storePart/decorators/provider/StorePartDecorator.js:315-317 | inside a reduction, the status listener writes its (non-array) payload to the status field |
| Extraction.SagaWatcher | src/storePart/decorators/provider/StorePartDecorator.js:324-346 | a watcher is added exactly when the effect listens to some type; it watches each type in order, with `takeLatest` when there is no table |
| Extraction.DataBag.AddActionListener | src/storePart/decorators/provider/StorePartDecorator.js:202-208 | the in-place listener map equals `AddListener` of the old one |
| Extraction.DataBag.InstallActionBuilder | src/storePart/decorators/provider/StorePartDecorator.js:243-264 | returns and records `BuilderFor` |
| Extraction.DataBag.ExtractStateMember | src/storePart/decorators/provider/StorePartDecorator.js:359-381 | the in-place bag matches `ExtractState`, failing exactly when it does |
| Extraction.DataBag.ExtractReducerMember | src/storePart/decorators/provider/StorePartDecorator.js:274-285 | the in-place bag matches `ExtractReducer`: each listened type gains the method, then the builder is installed; no listened set is not iterable |
| Extraction.DataBag.ExtractSagaMember | src/storePart/decorators/provider/StorePartDecorator.js:287-347 | the in-place bag matches `ExtractSaga`, failing exactly when it does, after the key list is sorted once before the loop |
| Extraction.DataBag.ExtractFromProvider | src/storePart/decorators/provider/StorePartDecorator.js:190-241 | the in-place bag after the member loop matches `ExtractAll`, stopping at the first exception |
| ReduxStore.Store.ReplaceReducer | src/install-reducers.js:71-74 | the root reducer map becomes the new one and the call is recorded |
| ReduxStore.Store.RunSaga | src/create-store.js:69-76 | a handler already started is ignored; a new one is started once and remembered; the started list stays duplicate-free |
| ReduxStore.Store.Dispatch | src/create-store.js:89-97 | an array is dispatched element by element in order; anything else once |
| ReduxStore.RunAllSpec | src/create-store.js:69-76 | starting a list keeps what was started, stays duplicate-free, and covers exactly the old and new handlers |
| ReduxStore.RunAllStarted | src/create-store.js:70-72 | handlers already started are not started again |
| ReduxStore.RunAllIdempotent | src/install-sagas.js:3-9 | installing the same handlers twice starts nothing the second time |
| ReduxStore.ArrayIsCallsInTurn | src/create-store.js:89-97 | one dispatch of an array of plain actions forwards exactly what one dispatch per action, in turn, does; a nested array is forwarded as one action |
| ReduxStore.DispatchAllAppend | src/create-store.js:89-97 | dispatching two lists of values in turn forwards what each list forwards, one after the other |
| InstallSagas.InstallSagas | src/install-sagas.js:3-9 | the started handlers are those of `runSaga` over the normalised list, and the store stays valid |
| InstallSagas.RunAllFresh | src/install-sagas.js:6-8 | new distinct handlers are started once each, in list order |
| InstallSagas.InstallSagasStarts | src/install-sagas.js:3-9 | nothing for null or undefined, a single handler at most once, a fresh list in order, and idempotence |
| InstallReducers.GetReducerName | src/install-reducers.js:28-30 | a nullish reducer throws; otherwise the truthy name tag, else `name` |
| InstallReducers.ReducerArrayToMap | src/install-reducers.js:12-22 | the loop builds the map `ToMapFrom` specifies, or fails on the first null or undefined reducer |
| InstallReducers.ToMapNames | src/install-reducers.js:12-22 | the map is built exactly when no reducer is null or undefined, and then holds exactly the reducers' names besides the old keys |
| InstallReducers.ToMapLastWins | src/install-reducers.js:15-17 | each name holds the last reducer of that name |
| InstallReducers.ToMapKeeps | src/install-reducers.js:12-22 | a name the list does not use keeps its old entry |
| InstallReducers.InstallFrom | src/install-reducers.js:44-69 | outside production a reducer needs a non-empty string name and must be a function; a nullish reducer throws |
| InstallReducers.InstallFromKeeps | src/install-reducers.js:58-62 | truthy entries are never replaced; a merge that did not get dirty changed nothing |
| InstallReducers.InstallFromNames | src/install-reducers.js:44-69 | no reducer is null or undefined, and the result holds exactly the old names and the list's names |
| InstallReducers.InstallFromFirstWins | src/install-reducers.js:58-68 | a new name is bound to the first truthy reducer that carries it |
| InstallReducers.InstallFromDirtyExactly | src/install-reducers.js:66-72 | with truthy reducers the merge gets dirty exactly when a new name was added |
| InstallReducers.MarkReducerInstalled | src/install-reducers.js:24-26 | the store records the given map |
| InstallReducers.InstallReducers | src/install-reducers.js:37-75 | errors change nothing; a clean merge does not replace the reducer; a dirty one replaces it with the merged map once; the record is never updated |
| InstallReducers.SameNameSilentlySkipped | src/install-reducers.js:58-64 | as written, a different reducer under a taken name is skipped without an error; the intended check refuses it |
| InstallReducers.InstallFromCheckedKeeps | src/install-reducers.js:58-64 | the intended merge keeps every truthy entry it started from |
| InstallReducers.InstallFromCheckedInstallsAll | src/install-reducers.js:58-68 | when the intended merge succeeds, every reducer of the list is installed under its name |
| InstallReducers.SecondInstallDropsFirst | src/install-reducers.js:40-42 | as written, two installs in a row: the second replaces the root reducer with a map lacking the first reducer |
| InstallReducers.InstallReducersRecording | src/install-reducers.js:37-75 | installing and then recording the merged map: the record follows every replacement |
| InstallReducers.RecordingKeepsEarlier | src/install-reducers.js:40-42 | with recording, a later install keeps every reducer installed before it |
| CreateStore.Spread | src/create-store.js:51 | the spread of an array is its items and of a string its characters; anything else is not iterable |
| CreateStore.CollectFromSpec | src/create-store.js:47-52 | collection succeeds exactly when every part's handler list is iterable; the reducers are one per part in order, and the handlers are the parts' lists one after another |
| CreateStore.CollectInitial | src/create-store.js:47-52 | the loop over store parts builds the lists `CollectFrom` specifies |
| CreateStore.CreateConfiguredStore | src/create-store.js:44-81 | a fresh valid store whose root map and record are the map of the parts' reducers; its started handlers are `runSaga` over all handlers; nothing replaced or dispatched yet; it fails exactly when the specification does |
| CreateStore.CreatedStore | src/create-store.js:47-78 | the root map has one entry per part's reducer name, and every handler of every part is started exactly once |
| StorePart.DomainValue | src/storePart/decorators/provider/StorePartDecorator.js:167 | the generated reducer's name is the domain, string or symbol |
| StorePart.DecorateSpec | src/storePart/decorators/provider/StorePartDecorator.js:102-112 | a successful decoration has a chosen, previously unregistered domain; a registered domain is refused |
| StorePart.Decorate | src/storePart/decorators/provider/StorePartDecorator.js:92-174 | options are parsed, the domain is registered (and stays registered even when compilation then fails), and the members are compiled into a fresh slice with the sentinel gate, named after the domain |
| StorePart.DomainsUnique | src/storePart/decorators/provider/StorePartDecorator.js:107-112 | two slices decorated in turn have differently named reducers |
| StorePart.SameClassNameCollides | src/storePart/decorators/provider/StorePartDecorator.js:107-110 | two classes with the same name and no domain collide, and the second is refused |

## Left out

- Symbol-keyed state fields are left out. Field names are strings, and symbol
  domains are kept as a distinct identifier.
- Selector memoisation (`reselect`) is left out: a stored field's selector is
  a plain projection. `Select` only distinguishes selectors of stored fields,
  which are memoised, from those of derived fields, which are not.
- Saga execution is left out: `put`, `takeLatest`, `all`, generator delegation,
  cancellation and `finally` ordering. The model records which strategy and
  action type each listened type gets, and the status action type.
- Constant-case is the parameter `cc`. `DynamicTypeRoundTrip` assumes the cased
  domain has no `/`, which holds for constant-case output.
- DynamicTypesDistinct: distinctness is proved for differently cased
  (domain, member) pairs only. Two domains that constant-case maps to one
  string, such as `my-cart` and `MY_CART`, do share dynamic action types.
- DomainText: a symbol domain is handed to constant-case as its string form
  `Symbol(<description>)`. What the package makes of a symbol depends on its
  version; the model does not capture that.
- Method replacement (`killMethod`, `replaceMethod`, `attemptChangeName`) is
  not modelled as reflection: a method becomes a `Builder`. A killed method is
  taken to leave `undefined`, so defining its `running` selector fails
  (`DefineOnNonObject`). The helper module holding the metadata,
  `SagaDecorator`, `ActionDecorator`, `method-util` and `decorators` are not
  part of this model; their results are inputs (`Meta`, `Tag`).
- Reading a member to classify it would call a getter. The model takes every
  getter as untagged, with no side effect.
- Getters and handlers are side-effect free apart from field assignments.
  Assigning a member that is not a field has no effect, and reading one gives
  undefined.
- Values are compared structurally. The source compares listener keys,
  started sagas and reducers by reference.
- AccessGate.ReadField, AccessGate.Eval: the engine's call-stack limit is a
  frame count (`depth`, `Slice.stack`). A getter cycle exhausts it with
  `CallStackExceeded` instead of a `RangeError`.
- Property-key conversion of reducer names is left out: `registeredReducers`
  is keyed by the name value itself.
- At install-reducers.js:60 the entry is compared with the argument list. The
  model takes that comparison as never equal, which it is for a function entry.
- A reducer state is a string-keyed object (`State`). Non-object states
  returned by other reducers are not modelled.
- Accessors with only a setter count as having a setter.
- The `storeModule.default || storeModule` fallback is left out: store parts are given
  already resolved (`StoreModule`).
- Logger warnings (instance properties, missing domain) are left out.
- Middleware, enhancers, devtools and the server-side initial state are left
  out.
- `NODE_ENV` is the boolean `production`.
- `withRedux`, the hooks, `ThreadLocalValue`, the plugin, the webpack helpers
  and `get-current-store` are not part of this model.
- GateProperties.StaleSnapshotAfterThrow and InstallReducers.SecondInstallDropsFirst
  are stated on concrete inputs, not for all inputs.

## Findings

| source | as written | input that shows it | evidently intended | confidence | as-written member | corrected member |
|---|---|---|---|---|---|---|
| src/storePart/decorators/provider/StorePartDecorator.js:157 | reads `.size` of the array `Object.keys(mutatedObjectMap)`, which is `undefined`, so the identity return never happens; `Object.keys` of a `Map` is also always empty | any action with a listener whose handlers assign nothing | return the state itself when the write-set is empty | high, not executed | GateProperties.FreshWithoutWrites | GateProperties.IntendedReduceKeepsIdentity |
| src/storePart/decorators/provider/StorePartDecorator.js:388-398 | no `try`/`finally` around the getter call, so an exception leaves the snapshot slot holding the container state | a derived field whose getter reads a stored field, selected with a container state lacking the slice's domain; afterwards an outside read of the stored field fails instead of yielding its selector | restore the saved snapshot whether the getter returns or throws | high, not executed | GateProperties.StaleSnapshotAfterThrow | GateProperties.IntendedSelectorAfterThrow |
| src/install-reducers.js:37-75 | merges into a copy of the recorded map but never records the result, so every later call starts from the map recorded when the store was created | `registerReducer(a)` then `registerReducer(b)`: the second root reducer lacks `a` | record the merged map (`markReducerInstalled`) whenever the root reducer is replaced | medium, not executed | InstallReducers.SecondInstallDropsFirst | InstallReducers.RecordingKeepsEarlier |
| src/install-reducers.js:60 | compares the existing entry with the argument list `reducers`, not with `reducer`, so the duplicate-name error is unreachable and a different reducer under a taken name is dropped silently | recorded `{todos: f}`, then install `g` named `todos` | throw when a different reducer shares the name; skip the same reducer | high, not executed | InstallReducers.SameNameSilentlySkipped | InstallReducers.InstallFromCheckedInstallsAll |
