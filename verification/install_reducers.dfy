/** Naming reducers, building a reducer map, and merging new reducers into
    a store's root reducer. */
module InstallReducers {
  import opened Js
  import opened Utils
  import opened ReduxStore

  /** `reducer[Symbols.name] || reducer.name`; a null or undefined reducer
      has no properties to read. */
  function GetReducerName(reducer: JsValue): (r: Result<JsValue>)
    ensures IsNullish(reducer) ==> r == Err(NullProperty)
    ensures reducer.Fn? ==> r == Ok(if Truthy(reducer.nameTag) then reducer.nameTag else Str(reducer.name))
    ensures reducer.Obj? ==> r == Ok(if "name" in reducer.props then reducer.props["name"] else Undefined)
  {
    if IsNullish(reducer) then Err(NullProperty)
    else if reducer.Fn? && Truthy(reducer.nameTag) then Ok(reducer.nameTag)
    else Get(reducer, "name")
  }

  // ---------------------------------------------------------------------
  // reducerArrayToMap

  /** The map of `reducerArrayToMap`: each reducer under its name, in list
      order, so a later reducer replaces an earlier one of the same name. */
  function ToMapFrom(acc: ReducerMap, reducers: seq<JsValue>): Result<ReducerMap>
    decreases |reducers|
  {
    if reducers == [] then Ok(acc)
    else
      var name :- GetReducerName(reducers[0]);
      ToMapFrom(acc[name := reducers[0]], reducers[1..])
  }

  method ReducerArrayToMap(reducers: seq<JsValue>) returns (r: Result<ReducerMap>)
    ensures r == ToMapFrom(map[], reducers)
  {
    var m: ReducerMap := map[];
    var i := 0;
    while i < |reducers|
      invariant 0 <= i <= |reducers|
      invariant ToMapFrom(m, reducers[i..]) == ToMapFrom(map[], reducers)
    {
      assert reducers[i..][0] == reducers[i] && reducers[i..][1..] == reducers[i + 1..];
      var name := GetReducerName(reducers[i]);
      if name.Err? {
        return Err(name.error);
      }
      m := m[name.value := reducers[i]];
      i := i + 1;
    }
    assert reducers[i..] == [];
    return Ok(m);
  }

  /** The name of a reducer that is not null or undefined. */
  function NameOf(reducer: JsValue): JsValue
    requires GetReducerName(reducer).Ok?
  {
    GetReducerName(reducer).value
  }

  /** The list succeeds exactly when no reducer is null or undefined; the
      map then has the names of all the reducers besides its old keys. A
      reducer whose name is `""` or undefined is keyed under that value. */
  lemma {:induction false} ToMapNames(acc: ReducerMap, reducers: seq<JsValue>)
    ensures ToMapFrom(acc, reducers).Ok? <==> forall i :: 0 <= i < |reducers| ==> GetReducerName(reducers[i]).Ok?
    ensures ToMapFrom(acc, reducers).Ok? ==>
              forall k :: k in ToMapFrom(acc, reducers).value <==>
                k in acc || exists i :: 0 <= i < |reducers| && NameOf(reducers[i]) == k
    decreases |reducers|
  {
    if reducers != [] && GetReducerName(reducers[0]).Ok? {
      var name := GetReducerName(reducers[0]).value;
      var rest := reducers[1..];
      ToMapNames(acc[name := reducers[0]], rest);
      assert forall i :: 0 < i < |reducers| ==> reducers[i] == rest[i - 1];
      if ToMapFrom(acc, reducers).Ok? {
        var m := ToMapFrom(acc, reducers).value;
        forall k ensures k in m <==> k in acc || exists i :: 0 <= i < |reducers| && NameOf(reducers[i]) == k {
          if exists i :: 0 <= i < |reducers| && NameOf(reducers[i]) == k {
            var i :| 0 <= i < |reducers| && NameOf(reducers[i]) == k;
            if i > 0 { assert NameOf(rest[i - 1]) == k; }
          }
          if exists i :: 0 <= i < |rest| && NameOf(rest[i]) == k {
            var i :| 0 <= i < |rest| && NameOf(rest[i]) == k;
            assert NameOf(reducers[i + 1]) == k;
          }
        }
      }
    }
  }

  /** Every name holds the last reducer of that name. */
  lemma {:induction false} ToMapLastWins(acc: ReducerMap, reducers: seq<JsValue>, i: nat)
    requires ToMapFrom(acc, reducers).Ok?
    requires i < |reducers|
    requires forall j :: 0 <= j < |reducers| ==> GetReducerName(reducers[j]).Ok?
    requires forall j :: i < j < |reducers| ==> NameOf(reducers[j]) != NameOf(reducers[i])
    ensures NameOf(reducers[i]) in ToMapFrom(acc, reducers).value
    ensures ToMapFrom(acc, reducers).value[NameOf(reducers[i])] == reducers[i]
    decreases |reducers|
  {
    var rest := reducers[1..];
    var next := acc[NameOf(reducers[0]) := reducers[0]];
    assert forall j :: 0 < j < |reducers| ==> reducers[j] == rest[j - 1];
    if i > 0 {
      ToMapLastWins(next, rest, i - 1);
    } else {
      ToMapKeeps(next, rest, NameOf(reducers[0]));
    }
  }

  /** A name the list does not use keeps its old entry. */
  lemma {:induction false} ToMapKeeps(acc: ReducerMap, reducers: seq<JsValue>, k: JsValue)
    requires ToMapFrom(acc, reducers).Ok?
    requires k in acc
    requires forall i :: 0 <= i < |reducers| ==> GetReducerName(reducers[i]).Ok? && NameOf(reducers[i]) != k
    ensures k in ToMapFrom(acc, reducers).value && ToMapFrom(acc, reducers).value[k] == acc[k]
    decreases |reducers|
  {
    if reducers != [] {
      var rest := reducers[1..];
      assert forall i :: 0 <= i < |rest| ==> rest[i] == reducers[i + 1];
      ToMapKeeps(acc[NameOf(reducers[0]) := reducers[0]], rest, k);
    }
  }

  // ---------------------------------------------------------------------
  // installReducers

  /** The loop of `installReducers` from a working copy `reg` and a
      `dirty` flag: outside production a reducer needs a non-empty string
      name and must be a function; a name already bound to a truthy entry
      is skipped (the check meant to refuse two different reducers of one
      name compares the entry with the argument list, which it never is);
      any other reducer is added and marks the copy dirty. */
  function InstallFrom(reg: ReducerMap, dirty: bool, list: seq<JsValue>, production: bool): (r: Result<(ReducerMap, bool)>)
    ensures list != [] && GetReducerName(list[0]).Err? ==> r == Err(GetReducerName(list[0]).error)
    ensures list != [] && !production && GetReducerName(list[0]).Ok? ==>
              var n := GetReducerName(list[0]).value;
              (!n.Str? || n.s == "" ==> r == Err(MissingReducerName)) &&
              (n.Str? && n.s != "" && !list[0].Fn? ==> r == Err(ReducerNotFunction))
    decreases |list|
  {
    if list == [] then Ok((reg, dirty))
    else
      var reducer := list[0];
      var name :- GetReducerName(reducer);
      if !production && (!name.Str? || name.s == "") then Err(MissingReducerName)
      else if !production && !reducer.Fn? then Err(ReducerNotFunction)
      else if name in reg && Truthy(reg[name]) then InstallFrom(reg, dirty, list[1..], production)
      else InstallFrom(reg[name := reducer], true, list[1..], production)
  }

  /** What one call of `installReducers` does given the recorded map:
      fails, or calls `replaceReducer` with a map (`Some`) or not at all
      (`None`). */
  function InstallSpec(recorded: Option<ReducerMap>, reducers: JsValue, production: bool): Result<Option<ReducerMap>> {
    var (m, dirty) :- InstallFrom(recorded.GetOr(map[]), false, ToArray(reducers), production);
    Ok(if dirty then Some(m) else None)
  }

  predicate AllTruthy(m: ReducerMap) {
    forall k :: k in m ==> Truthy(m[k])
  }

  /** One step of the merge: the working copy and flag after the first
      reducer of the list. */
  function Step(reg: ReducerMap, dirty: bool, reducer: JsValue): (ReducerMap, bool)
    requires GetReducerName(reducer).Ok?
  {
    var name := NameOf(reducer);
    if name in reg && Truthy(reg[name]) then (reg, dirty) else (reg[name := reducer], true)
  }

  lemma InstallFromUnfold(reg: ReducerMap, dirty: bool, list: seq<JsValue>, production: bool)
    requires list != [] && InstallFrom(reg, dirty, list, production).Ok?
    ensures GetReducerName(list[0]).Ok?
    ensures var (reg', dirty') := Step(reg, dirty, list[0]);
            InstallFrom(reg', dirty', list[1..], production) == InstallFrom(reg, dirty, list, production)
  {
  }

  /** The merge keeps every truthy entry it started from, and changes
      nothing unless it gets dirty. */
  lemma {:induction false} InstallFromKeeps(reg: ReducerMap, dirty: bool, list: seq<JsValue>, production: bool)
    requires InstallFrom(reg, dirty, list, production).Ok?
    ensures var (m, d) := InstallFrom(reg, dirty, list, production).value;
            (forall k :: k in reg && Truthy(reg[k]) ==> k in m && m[k] == reg[k]) &&
            (dirty ==> d) && (!d ==> m == reg)
    decreases |list|
  {
    if list != [] {
      InstallFromUnfold(reg, dirty, list, production);
      var (reg', dirty') := Step(reg, dirty, list[0]);
      InstallFromKeeps(reg', dirty', list[1..], production);
    }
  }

  /** No reducer of the list is null or undefined, and the merge ends with
      the old names plus those of the list. */
  lemma {:induction false} InstallFromNames(reg: ReducerMap, dirty: bool, list: seq<JsValue>, production: bool)
    requires InstallFrom(reg, dirty, list, production).Ok?
    ensures forall i :: 0 <= i < |list| ==> GetReducerName(list[i]).Ok?
    ensures var m := InstallFrom(reg, dirty, list, production).value.0;
            forall k :: k in m <==> k in reg || exists i :: 0 <= i < |list| && NameOf(list[i]) == k
    decreases |list|
  {
    if list != [] {
      InstallFromUnfold(reg, dirty, list, production);
      var (reg', dirty') := Step(reg, dirty, list[0]);
      var rest := list[1..];
      InstallFromNames(reg', dirty', rest, production);
      var m := InstallFrom(reg, dirty, list, production).value.0;
      forall i | 0 <= i < |list| ensures GetReducerName(list[i]).Ok? {
        if i > 0 { assert list[i] == rest[i - 1]; }
      }
      forall k ensures k in m <==> k in reg || exists i :: 0 <= i < |list| && NameOf(list[i]) == k {
        if exists i :: 0 <= i < |list| && NameOf(list[i]) == k {
          var i :| 0 <= i < |list| && NameOf(list[i]) == k;
          if i > 0 { assert NameOf(rest[i - 1]) == k; }
        }
        if exists i :: 0 <= i < |rest| && NameOf(rest[i]) == k {
          var i :| 0 <= i < |rest| && NameOf(rest[i]) == k;
          assert NameOf(list[i + 1]) == k;
        }
      }
    }
  }

  /** A name without a truthy entry is bound to the first reducer of
      that name when that reducer is truthy: within one call the first one
      wins. */
  lemma {:induction false} InstallFromFirstWins(reg: ReducerMap, dirty: bool, list: seq<JsValue>, production: bool, i: nat)
    requires InstallFrom(reg, dirty, list, production).Ok?
    requires i < |list|
    ensures GetReducerName(list[i]).Ok?
    ensures Truthy(list[i]) && !(NameOf(list[i]) in reg && Truthy(reg[NameOf(list[i])])) &&
            (forall j :: 0 <= j < i ==> GetReducerName(list[j]).Ok? && NameOf(list[j]) != NameOf(list[i])) ==>
              var m := InstallFrom(reg, dirty, list, production).value.0;
              NameOf(list[i]) in m && m[NameOf(list[i])] == list[i]
    decreases |list|
  {
    InstallFromNames(reg, dirty, list, production);
    InstallFromUnfold(reg, dirty, list, production);
    var (reg', dirty') := Step(reg, dirty, list[0]);
    var name := NameOf(list[i]);
    if Truthy(list[i]) && !(name in reg && Truthy(reg[name])) &&
       (forall j :: 0 <= j < i ==> GetReducerName(list[j]).Ok? && NameOf(list[j]) != name) {
      if i == 0 {
        InstallFromKeeps(reg', dirty', list[1..], production);
      } else {
        assert list[1..][i - 1] == list[i];
        assert NameOf(list[0]) != name;
        assert forall j :: 0 <= j < i - 1 ==> list[1..][j] == list[j + 1];
        InstallFromFirstWins(reg', dirty', list[1..], production, i - 1);
      }
    }
  }

  /** With truthy reducers over truthy entries, the merge gets dirty
      exactly when a new name was added. */
  lemma {:induction false} InstallFromDirtyExactly(reg: ReducerMap, dirty: bool, list: seq<JsValue>, production: bool)
    requires InstallFrom(reg, dirty, list, production).Ok?
    requires AllTruthy(reg)
    requires forall i :: 0 <= i < |list| ==> Truthy(list[i])
    ensures var (m, d) := InstallFrom(reg, dirty, list, production).value;
            AllTruthy(m) && m.Keys >= reg.Keys && (d <==> dirty || m.Keys != reg.Keys)
    decreases |list|
  {
    if list != [] {
      InstallFromUnfold(reg, dirty, list, production);
      var (reg', dirty') := Step(reg, dirty, list[0]);
      assert forall i :: 0 <= i < |list[1..]| ==> Truthy(list[1..][i]) by {
        forall i | 0 <= i < |list[1..]| ensures Truthy(list[1..][i]) { assert list[1..][i] == list[i + 1]; }
      }
      assert Truthy(list[0]);
      InstallFromDirtyExactly(reg', dirty', list[1..], production);
      if reg' != reg {
        assert NameOf(list[0]) in reg'.Keys - reg.Keys;
      }
    }
  }

  /** The store's recorded map is only written by `markReducerInstalled`. */
  method MarkReducerInstalled(store: Store, reducers: ReducerMap)
    modifies store`recorded
    ensures store.recorded == Some(reducers)
  {
    store.recorded := Some(reducers);
  }

  /** `installReducers`, as written: the recorded map is copied and merged
      with the new reducers, and the root reducer replaced when the copy
      got dirty; the recorded map itself is never updated. */
  method InstallReducers(store: Store, reducers: JsValue, production: bool) returns (r: Result<()>)
    modifies store`current, store`replaced
    ensures store.recorded == old(store.recorded)
    ensures var spec := InstallSpec(old(store.recorded), reducers, production);
            (spec.Err? ==> r == Err(spec.error) && store.replaced == old(store.replaced) && store.current == old(store.current)) &&
            (spec.Ok? && spec.value.None? ==> r == Ok(()) && store.replaced == old(store.replaced) && store.current == old(store.current)) &&
            (spec.Ok? && spec.value.Some? ==> r == Ok(()) && store.replaced == old(store.replaced) + [spec.value.value] &&
                                              store.current == spec.value.value)
  {
    var list := ToArray(reducers);
    var registered: ReducerMap := if store.recorded.Some? then store.recorded.value else map[];
    var dirty := false;
    var i := 0;
    while i < |list|
      invariant 0 <= i <= |list|
      invariant InstallFrom(registered, dirty, list[i..], production) ==
                InstallFrom(old(store.recorded).GetOr(map[]), false, list, production)
    {
      assert list[i..][0] == list[i] && list[i..][1..] == list[i + 1..];
      var reducer := list[i];
      var name := GetReducerName(reducer);
      if name.Err? {
        return Err(name.error);
      }
      if !production {
        if !name.value.Str? || name.value.s == "" {
          return Err(MissingReducerName);
        }
        if !reducer.Fn? {
          return Err(ReducerNotFunction);
        }
      }
      if name.value in registered && Truthy(registered[name.value]) {
        i := i + 1;
        continue;
      }
      registered := registered[name.value := reducer];
      dirty := true;
      i := i + 1;
    }
    assert list[i..] == [];
    if dirty {
      store.ReplaceReducer(registered);
    }
    return Ok(());
  }

  // ---------------------------------------------------------------------
  // Two reducers sharing a name

  /** As written, a second, different reducer under a name already
      installed is skipped without a word: the comparison meant to detect
      it compares the entry with the argument list. */
  lemma SameNameSilentlySkipped()
    ensures var f := Fn(0, "f", Str("todos"), Undefined);
            var g := Fn(1, "g", Str("todos"), Undefined);
            InstallSpec(Some(map[Str("todos") := f]), g, false) == Ok(None) &&
            InstallFromChecked(map[Str("todos") := f], false, [g], false) == Err(DuplicateReducerName)
  {
  }

  /** The loop as its error message intends it: a name already bound to a
      truthy entry is skipped when the entry is this very reducer, and
      refused when it is a different one. */
  function InstallFromChecked(reg: ReducerMap, dirty: bool, list: seq<JsValue>, production: bool): Result<(ReducerMap, bool)>
    decreases |list|
  {
    if list == [] then Ok((reg, dirty))
    else
      var reducer := list[0];
      var name :- GetReducerName(reducer);
      if !production && (!name.Str? || name.s == "") then Err(MissingReducerName)
      else if !production && !reducer.Fn? then Err(ReducerNotFunction)
      else if name in reg && Truthy(reg[name]) then
        if reg[name] == reducer then InstallFromChecked(reg, dirty, list[1..], production)
        else Err(DuplicateReducerName)
      else InstallFromChecked(reg[name := reducer], true, list[1..], production)
  }

  /** The intended merge keeps every truthy entry it started from. */
  lemma {:induction false} InstallFromCheckedKeeps(reg: ReducerMap, dirty: bool, list: seq<JsValue>, production: bool)
    requires InstallFromChecked(reg, dirty, list, production).Ok?
    ensures var m := InstallFromChecked(reg, dirty, list, production).value.0;
            forall k :: k in reg && Truthy(reg[k]) ==> k in m && m[k] == reg[k]
    decreases |list|
  {
    if list != [] {
      var name := NameOf(list[0]);
      if name in reg && Truthy(reg[name]) {
        InstallFromCheckedKeeps(reg, dirty, list[1..], production);
      } else {
        InstallFromCheckedKeeps(reg[name := list[0]], true, list[1..], production);
      }
    }
  }

  /** When the intended merge succeeds, every (truthy) reducer of the list
      ends up installed under its name: none is dropped silently. */
  lemma {:induction false} InstallFromCheckedInstallsAll(reg: ReducerMap, dirty: bool, list: seq<JsValue>, production: bool)
    requires InstallFromChecked(reg, dirty, list, production).Ok?
    requires forall i :: 0 <= i < |list| ==> Truthy(list[i])
    ensures forall i :: 0 <= i < |list| ==> GetReducerName(list[i]).Ok?
    ensures var m := InstallFromChecked(reg, dirty, list, production).value.0;
            forall i :: 0 <= i < |list| ==> NameOf(list[i]) in m && m[NameOf(list[i])] == list[i]
    decreases |list|
  {
    if list != [] {
      var name := NameOf(list[0]);
      var rest := list[1..];
      var reg' := if name in reg && Truthy(reg[name]) then reg else reg[name := list[0]];
      var dirty' := if name in reg && Truthy(reg[name]) then dirty else true;
      assert InstallFromChecked(reg', dirty', rest, production) == InstallFromChecked(reg, dirty, list, production);
      assert forall i :: 0 <= i < |rest| ==> rest[i] == list[i + 1];
      InstallFromCheckedInstallsAll(reg', dirty', rest, production);
      InstallFromCheckedKeeps(reg', dirty', rest, production);
      assert name in reg' && reg'[name] == list[0];
      forall i | 0 <= i < |list| ensures GetReducerName(list[i]).Ok? {
        if i > 0 { assert list[i] == rest[i - 1]; }
      }
    }
  }

  // ---------------------------------------------------------------------
  // Two installs in a row

  /** The recorded map after a call that also records what it installed. */
  function RecordedAfter(recorded: Option<ReducerMap>, spec: Result<Option<ReducerMap>>): Option<ReducerMap> {
    if spec.Ok? && spec.value.Some? then spec.value else recorded
  }

  /** As written, installing a reducer and then another one replaces the
      root reducer with a map that lacks the first: the second call starts
      again from the map recorded at store creation. */
  lemma SecondInstallDropsFirst()
    ensures var app := Fn(0, "appReducer", Str("app"), Undefined);
            var a := Fn(1, "aReducer", Str("a"), Undefined);
            var b := Fn(2, "bReducer", Str("b"), Undefined);
            var recorded := Some(map[Str("app") := app]);
            InstallSpec(recorded, a, false) == Ok(Some(map[Str("app") := app, Str("a") := a])) &&
            InstallSpec(recorded, b, false) == Ok(Some(map[Str("app") := app, Str("b") := b])) &&
            Str("a") !in InstallSpec(recorded, b, false).value.value
  {
  }

  /** `installReducers` followed by `markReducerInstalled` on the merged
      map whenever it replaced the root reducer. */
  method InstallReducersRecording(store: Store, reducers: JsValue, production: bool) returns (r: Result<()>)
    modifies store`current, store`replaced, store`recorded
    ensures var spec := InstallSpec(old(store.recorded), reducers, production);
            (r.Ok? <==> spec.Ok?) &&
            store.recorded == RecordedAfter(old(store.recorded), spec) &&
            (spec.Ok? && spec.value.Some? ==> store.current == spec.value.value)
  {
    var calls := |store.replaced|;
    r := InstallReducers(store, reducers, production);
    if r.Ok? && |store.replaced| != calls {
      MarkReducerInstalled(store, store.current);
    }
  }

  /** Recording what was installed, a later install keeps every reducer
      installed before it (every reducer is a function, so every entry is
      truthy). */
  lemma RecordingKeepsEarlier(recorded: Option<ReducerMap>, first: JsValue, second: JsValue, production: bool)
    requires InstallSpec(recorded, first, production).Ok?
    requires InstallSpec(RecordedAfter(recorded, InstallSpec(recorded, first, production)), second, production).Ok?
    ensures var r1 := RecordedAfter(recorded, InstallSpec(recorded, first, production));
            var spec2 := InstallSpec(r1, second, production);
            var installed := RecordedAfter(r1, spec2).GetOr(map[]);
            forall k :: k in r1.GetOr(map[]) && Truthy(r1.GetOr(map[])[k]) ==> k in installed && installed[k] == r1.GetOr(map[])[k]
  {
    var r1 := RecordedAfter(recorded, InstallSpec(recorded, first, production));
    InstallFromKeeps(r1.GetOr(map[]), false, ToArray(second), production);
  }
}
