/** The container store as the adapter patches it: the record of
    installed reducers, the root reducer map and its replacements, the
    effect handlers already started, and the actions handed to the native
    dispatch. */
module ReduxStore {
  import opened Js
  import opened PropertyMeta

  /** A reducer map: reducer name to reducer. */
  type ReducerMap = map<JsValue, JsValue>

  class Store {
    /** The map recorded under the installed-reducers key, if any. */
    var recorded: Option<ReducerMap>
    /** The map the root reducer currently combines. */
    var current: ReducerMap
    /** Every map passed to `replaceReducer`, in order. */
    var replaced: seq<ReducerMap>
    /** `activeSagas`: the effect handlers `runSaga` has started. */
    var activeSagas: seq<JsValue>
    /** The handlers handed to the effect middleware's `run`, in order. */
    var started: seq<JsValue>
    /** The actions handed to the native dispatch, in order. */
    var dispatched: seq<JsValue>

    ghost predicate Valid()
      reads this
    {
      activeSagas == started && NoDuplicates(activeSagas)
    }

    /** A store created over a root reducer map; nothing recorded,
        started or dispatched yet. */
    constructor (root: ReducerMap)
      ensures Valid()
      ensures recorded == None && current == root && replaced == []
      ensures activeSagas == [] && started == [] && dispatched == []
    {
      recorded := None;
      current := root;
      replaced := [];
      activeSagas := [];
      started := [];
      dispatched := [];
    }

    /** `replaceReducer`. */
    method ReplaceReducer(m: ReducerMap)
      modifies this`current, this`replaced
      ensures current == m && replaced == old(replaced) + [m]
    {
      current := m;
      replaced := replaced + [m];
    }

    /** `runSaga`: a handler already started is ignored; a new one is
        started once and remembered. */
    method RunSaga(saga: JsValue)
      requires Valid()
      modifies this`activeSagas, this`started
      ensures Valid()
      ensures activeSagas == SetAdd(old(activeSagas), saga)
      ensures saga in old(activeSagas) ==> started == old(started)
      ensures saga !in old(activeSagas) ==> started == old(started) + [saga]
    {
      SetAddSpec(activeSagas, saga);
      if saga in activeSagas {
        return;
      }
      started := started + [saga];
      activeSagas := activeSagas + [saga];
    }

    /** The patched `dispatch`: an array is dispatched element by element,
        in order; anything else is dispatched once, as it is. */
    method Dispatch(arg: JsValue)
      modifies this`dispatched
      ensures dispatched == old(dispatched) + Unpack(arg)
    {
      if arg.Arr? {
        var i := 0;
        while i < |arg.items|
          invariant 0 <= i <= |arg.items|
          invariant dispatched == old(dispatched) + arg.items[..i]
        {
          dispatched := dispatched + [arg.items[i]];
          assert arg.items[..i + 1] == arg.items[..i] + [arg.items[i]];
          i := i + 1;
        }
        assert arg.items[..i] == arg.items;
      } else {
        dispatched := dispatched + [arg];
      }
    }
  }

  /** The started handlers after `runSaga` was called with each of
      `sagas`, in order. */
  function RunAll(active: seq<JsValue>, sagas: seq<JsValue>): seq<JsValue>
    decreases |sagas|
  {
    if sagas == [] then active else RunAll(SetAdd(active, sagas[0]), sagas[1..])
  }

  /** Starting a list of handlers starts each of them at most once in
      total: the started list keeps what it had, stays free of
      duplicates, and holds every handler of the list. */
  lemma {:induction false} RunAllSpec(active: seq<JsValue>, sagas: seq<JsValue>)
    requires NoDuplicates(active)
    ensures NoDuplicates(RunAll(active, sagas))
    ensures active <= RunAll(active, sagas)
    ensures forall s :: s in RunAll(active, sagas) <==> s in active || s in sagas
    decreases |sagas|
  {
    if sagas != [] {
      SetAddSpec(active, sagas[0]);
      RunAllSpec(SetAdd(active, sagas[0]), sagas[1..]);
      assert forall s :: s in sagas <==> s == sagas[0] || s in sagas[1..];
    }
  }

  /** Handlers already started are not started again. */
  lemma {:induction false} RunAllStarted(active: seq<JsValue>, sagas: seq<JsValue>)
    requires forall s :: s in sagas ==> s in active
    ensures RunAll(active, sagas) == active
    decreases |sagas|
  {
    if sagas != [] {
      RunAllStarted(active, sagas[1..]);
    }
  }

  /** Installing the same handlers twice starts nothing the second time. */
  lemma RunAllIdempotent(active: seq<JsValue>, sagas: seq<JsValue>)
    requires NoDuplicates(active)
    ensures RunAll(RunAll(active, sagas), sagas) == RunAll(active, sagas)
  {
    RunAllSpec(active, sagas);
    RunAllStarted(RunAll(active, sagas), sagas);
  }

  /** What the native dispatch receives for patched calls with each of
      `args` in turn. */
  function DispatchAll(args: seq<JsValue>): seq<JsValue>
    decreases |args|
  {
    if args == [] then [] else Unpack(args[0]) + DispatchAll(args[1..])
  }

  /** One call with an array of plain actions dispatches exactly what one
      call per action, in turn, does. An array inside the array is not
      flattened: it reaches the native dispatch as one action. */
  lemma {:induction false} ArrayIsCallsInTurn(actions: seq<JsValue>)
    requires forall i :: 0 <= i < |actions| ==> !actions[i].Arr?
    ensures DispatchAll(actions) == Unpack(Arr(actions))
    decreases |actions|
  {
    if actions != [] {
      ArrayIsCallsInTurn(actions[1..]);
      assert [actions[0]] + actions[1..] == actions;
    }
  }

  /** Dispatching several values in turn is dispatching each, one after
      the other. */
  lemma {:induction false} DispatchAllAppend(a: seq<JsValue>, b: seq<JsValue>)
    ensures DispatchAll(a + b) == DispatchAll(a) + DispatchAll(b)
    decreases |a|
  {
    if a != [] {
      assert (a + b)[0] == a[0] && (a + b)[1..] == a[1..] + b;
      DispatchAllAppend(a[1..], b);
    } else {
      assert a + b == b;
    }
  }
}
