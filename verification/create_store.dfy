/** `createConfiguredStore`: gathers the reducer and the effect handlers of
    every global store part, builds the root reducer map from the
    reducers, records it as installed, and starts the handlers through
    the store's de-duplicating `runSaga`. */
module CreateStore {
  import opened Js
  import opened PropertyMeta
  import opened Utils
  import opened ReduxStore
  import opened InstallReducers
  import opened InstallSagas

  /** What a global store part exposes to the store: its generated
      reducer and its effect-handler list. */
  datatype StoreModule = StoreModule(reducer: JsValue, sagas: JsValue)

  /** The elements a spread `...v` produces: the items of an array, the
      characters of a string; anything else is not iterable. */
  function Spread(v: JsValue): (r: Result<seq<JsValue>>)
    ensures v.Arr? ==> r == Ok(v.items)
    ensures v.Str? ==> r.Ok? && |r.value| == |v.s| &&
                       forall i :: 0 <= i < |v.s| ==> r.value[i] == Str([v.s[i]])
    ensures !v.Arr? && !v.Str? ==> r == Err(NotIterable)
  {
    match v
    case Arr(items) => Ok(items)
    case Str(s) => Ok(seq(|s|, i requires 0 <= i < |s| => Str([s[i]])))
    case _ => Err(NotIterable)
  }

  /** The two lists the loop over store parts builds, from partial lists. */
  function CollectFrom(reducers: seq<JsValue>, sagas: seq<JsValue>, parts: seq<StoreModule>): Result<(seq<JsValue>, seq<JsValue>)>
    decreases |parts|
  {
    if parts == [] then Ok((reducers, sagas))
    else
      var spread :- Spread(parts[0].sagas);
      CollectFrom(reducers + [parts[0].reducer], sagas + spread, parts[1..])
  }

  /** The reducers of all parts, in order. */
  function Reducers(parts: seq<StoreModule>): seq<JsValue>
    decreases |parts|
  {
    if parts == [] then [] else [parts[0].reducer] + Reducers(parts[1..])
  }

  /** The handlers of all parts, each part's list spread in turn. */
  function Handlers(parts: seq<StoreModule>): Result<seq<JsValue>>
    decreases |parts|
  {
    if parts == [] then Ok([])
    else
      var spread :- Spread(parts[0].sagas);
      var rest :- Handlers(parts[1..]);
      Ok(spread + rest)
  }

  /** The lists succeed exactly when every part's handler list can be
      spread; then the reducers are one per part, in part order, and the
      handlers are the parts' lists one after the other. */
  lemma {:induction false} CollectFromSpec(reducers: seq<JsValue>, sagas: seq<JsValue>, parts: seq<StoreModule>)
    ensures CollectFrom(reducers, sagas, parts).Ok? <==> forall i :: 0 <= i < |parts| ==> Spread(parts[i].sagas).Ok?
    ensures CollectFrom(reducers, sagas, parts).Ok? ==>
              CollectFrom(reducers, sagas, parts).value.0 == reducers + Reducers(parts) &&
              |CollectFrom(reducers, sagas, parts).value.0| == |reducers| + |parts| &&
              Handlers(parts).Ok? && CollectFrom(reducers, sagas, parts).value.1 == sagas + Handlers(parts).value
    decreases |parts|
  {
    if parts != [] {
      if Spread(parts[0].sagas).Ok? {
        var rest := parts[1..];
        CollectFromSpec(reducers + [parts[0].reducer], sagas + Spread(parts[0].sagas).value, rest);
        assert forall i :: 0 <= i < |rest| ==> rest[i] == parts[i + 1];
        if forall i :: 0 <= i < |rest| ==> Spread(rest[i].sagas).Ok? {
          forall i | 0 <= i < |parts| ensures Spread(parts[i].sagas).Ok? {
            if i > 0 { assert parts[i] == rest[i - 1]; }
          }
        }
        assert reducers + [parts[0].reducer] + Reducers(rest) == reducers + Reducers(parts);
        if CollectFrom(reducers, sagas, parts).Ok? {
          assert sagas + Spread(parts[0].sagas).value + Handlers(rest).value == sagas + Handlers(parts).value;
        }
      }
    }
  }

  /** The loop over the global store parts. */
  method CollectInitial(parts: seq<StoreModule>) returns (r: Result<(seq<JsValue>, seq<JsValue>)>)
    ensures r == CollectFrom([], [], parts)
  {
    var reducers: seq<JsValue> := [];
    var sagas: seq<JsValue> := [];
    var i := 0;
    while i < |parts|
      invariant 0 <= i <= |parts|
      invariant CollectFrom(reducers, sagas, parts[i..]) == CollectFrom([], [], parts)
    {
      assert parts[i..][0] == parts[i] && parts[i..][1..] == parts[i + 1..];
      var spread := Spread(parts[i].sagas);
      if spread.Err? {
        return Err(spread.error);
      }
      reducers := reducers + [parts[i].reducer];
      sagas := sagas + spread.value;
      i := i + 1;
    }
    assert parts[i..] == [];
    return Ok((reducers, sagas));
  }

  /** What store creation yields: the root reducer map and the handlers
      started, or the error that stops it. */
  function CreateSpec(parts: seq<StoreModule>): Result<(ReducerMap, seq<JsValue>)> {
    var (reducers, sagas) :- CollectFrom([], [], parts);
    var m :- ToMapFrom(map[], reducers);
    Ok((m, RunAll([], sagas)))
  }

  /** `createConfiguredStore`. */
  method CreateConfiguredStore(parts: seq<StoreModule>) returns (r: Result<Store>)
    ensures r.Err? <==> CreateSpec(parts).Err?
    ensures r.Err? ==> r.error == CreateSpec(parts).error
    ensures r.Ok? ==>
              var (m, started) := CreateSpec(parts).value;
              fresh(r.value) && r.value.Valid() &&
              r.value.current == m && r.value.recorded == Some(m) && r.value.replaced == [] &&
              r.value.activeSagas == started && r.value.dispatched == []
  {
    var lists := CollectInitial(parts);
    if lists.Err? {
      return Err(lists.error);
    }
    var (reducers, sagas) := lists.value;
    var m := ReducerArrayToMap(reducers);
    if m.Err? {
      return Err(m.error);
    }
    var store := new Store(m.value);
    MarkReducerInstalled(store, m.value);
    InstallSagas.InstallSagas(store, Arr(sagas));
    return Ok(store);
  }

  /** A created store has one root-reducer entry per part, named after
      the part's reducer, and has started every handler of every part
      exactly once. */
  lemma CreatedStore(parts: seq<StoreModule>)
    requires CreateSpec(parts).Ok?
    ensures forall i :: 0 <= i < |parts| ==> GetReducerName(parts[i].reducer).Ok?
    ensures Handlers(parts).Ok?
    ensures var (m, started) := CreateSpec(parts).value;
            (forall k :: k in m <==> exists i :: 0 <= i < |parts| && NameOf(parts[i].reducer) == k) &&
            NoDuplicates(started) &&
            (forall s :: s in started <==> s in Handlers(parts).value)
  {
    CollectFromSpec([], [], parts);
    var (reducers, sagas) := CollectFrom([], [], parts).value;
    assert reducers == Reducers(parts);
    assert forall i :: 0 <= i < |parts| ==> reducers[i] == parts[i].reducer by {
      ReducersAt(parts);
    }
    ToMapNames(map[], reducers);
    RunAllSpec([], sagas);
  }

  lemma {:induction false} ReducersAt(parts: seq<StoreModule>)
    ensures |Reducers(parts)| == |parts|
    ensures forall i :: 0 <= i < |parts| ==> Reducers(parts)[i] == parts[i].reducer
    decreases |parts|
  {
    if parts != [] {
      ReducersAt(parts[1..]);
    }
  }
}
