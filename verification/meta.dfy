/** The per-method record that the decorators attach to a slice member
    (its kind tag, its own action type, the action types it listens to,
    and for effect handlers the status-tracking flag and the take-strategy
    table). The helper module that stores it is not part of this model;
    only the record's content is. */
module PropertyMeta {
  import opened Js

  /** The kind tag a decorator puts on a member. */
  datatype Tag = TagReducer | TagSaga | TagActionGenerator | TagState

  /** An entry of `listenedActionTypes`: the dynamic sentinel (the unique
      symbol `ACTION_TYPE_DYNAMIC`) or an explicit action type. */
  datatype ActionKey = Dynamic | Given(value: JsValue)

  /** The take function chosen for one listened action type: redux-saga's
      `takeLatest`, `takeEvery`, or any other helper, by identity. */
  datatype Strategy = TakeLatest | TakeEvery | CustomTake(id: nat)

  /** A snapshot of a method's metadata record. `None` stands for a
      property the record does not have. */
  datatype Meta = Meta(
    actionType: Option<ActionKey>,
    listened: Option<seq<ActionKey>>,
    trackStatus: bool,
    takeFunctions: Option<map<int, Strategy>>)

  /** A JavaScript `Set` keeps each element once, in insertion order. */
  predicate NoDuplicates<T(==)>(s: seq<T>) {
    forall i, j :: 0 <= i < j < |s| ==> s[i] != s[j]
  }

  /** `set.add(x)`. */
  function SetAdd<T(==)>(s: seq<T>, x: T): seq<T> {
    if x in s then s else s + [x]
  }

  /** Adding keeps a set free of duplicates, keeps what was there, and
      adds the element. */
  lemma SetAddSpec<T>(s: seq<T>, x: T)
    requires NoDuplicates(s)
    ensures NoDuplicates(SetAdd(s, x))
    ensures s <= SetAdd(s, x)
    ensures x in SetAdd(s, x)
  {
  }
}
