/** `installSagas`: starts each effect handler of a list (or of a single
    handler, or of none) through the store's `runSaga`. */
module InstallSagas {
  import opened Js
  import opened PropertyMeta
  import opened Utils
  import opened ReduxStore

  method InstallSagas(store: Store, sagas: JsValue)
    requires store.Valid()
    modifies store`activeSagas, store`started
    ensures store.Valid()
    ensures store.activeSagas == RunAll(old(store.activeSagas), ToArray(sagas))
  {
    var list := ToArray(sagas);
    var i := 0;
    while i < |list|
      invariant 0 <= i <= |list|
      invariant store.Valid()
      invariant RunAll(store.activeSagas, list[i..]) == RunAll(old(store.activeSagas), list)
    {
      assert list[i..][0] == list[i] && list[i..][1..] == list[i + 1..];
      store.RunSaga(list[i]);
      i := i + 1;
    }
    assert list[i..] == [];
  }

  /** Handlers not started yet are started once each, in list order. */
  lemma {:induction false} RunAllFresh(active: seq<JsValue>, sagas: seq<JsValue>)
    requires NoDuplicates(sagas)
    requires forall s :: s in sagas ==> s !in active
    ensures RunAll(active, sagas) == active + sagas
    decreases |sagas|
  {
    if sagas != [] {
      assert forall s :: s in sagas[1..] ==> s != sagas[0] by {
        forall s | s in sagas[1..] ensures s != sagas[0] {
          var j :| 0 <= j < |sagas[1..]| && sagas[1..][j] == s;
          assert sagas[j + 1] == s;
        }
      }
      RunAllFresh(active + [sagas[0]], sagas[1..]);
      assert active + [sagas[0]] + sagas[1..] == active + sagas;
    }
  }

  /** What `installSagas` starts: nothing for null or undefined, a single
      handler once, the handlers of a list once each in list order, and
      nothing that had already been started. */
  lemma InstallSagasStarts(active: seq<JsValue>, sagas: JsValue)
    requires NoDuplicates(active)
    ensures IsNullish(sagas) ==> RunAll(active, ToArray(sagas)) == active
    ensures !IsNullish(sagas) && !sagas.Arr? ==>
              RunAll(active, ToArray(sagas)) == if sagas in active then active else active + [sagas]
    ensures sagas.Arr? && NoDuplicates(sagas.items) && (forall s :: s in sagas.items ==> s !in active) ==>
              RunAll(active, ToArray(sagas)) == active + sagas.items
    ensures RunAll(RunAll(active, ToArray(sagas)), ToArray(sagas)) == RunAll(active, ToArray(sagas))
  {
    if sagas.Arr? && NoDuplicates(sagas.items) && (forall s :: s in sagas.items ==> s !in active) {
      RunAllFresh(active, sagas.items);
    }
    RunAllIdempotent(active, ToArray(sagas));
  }
}
