/** What the generated reducer, the field accessors and the selectors of a
    slice promise, stated over the functions of `AccessGate`. */
module GateProperties {
  import opened Js
  import opened Utils
  import opened StorePartCodec
  import opened AccessGate

  predicate IsStored(def: SliceDef, name: string) {
    name in def.fields && def.fields[name].Stored?
  }

  /** The gate a matched reduction starts from. */
  function StartGate(def: SliceDef, g: Gate, input: Option<State>): Gate {
    Gate(Reducing(input.GetOr(def.initialState), []), g.snapshot)
  }

  /** The gate and the exception, if any, once every handler of the
      action's type has run. */
  function AfterHandlers(def: SliceDef, g: Gate, input: Option<State>, action: Action, depth: nat): (r: (Gate, Option<Error>))
    requires action.actionType in def.listeners
    ensures r.0.mode.Reducing? && r.0.mode.state == input.GetOr(def.initialState)
  {
    RunHandlersKeepsInput(def, StartGate(def, g, input), def.listeners[action.actionType], Unpack(action.payload), depth);
    RunHandlers(def, StartGate(def, g, input), def.listeners[action.actionType], Unpack(action.payload), depth)
  }

  // ---------------------------------------------------------------------
  // No listener

  /** Without a listener for the action's type, the reducer hands back the
      state it was given (the initial state for an undefined one) and
      leaves the slots alone. */
  lemma NoListenerIdentity(def: SliceDef, g: Gate, input: Option<State>, action: Action, depth: nat)
    requires action.actionType !in def.listeners
    ensures ReduceSpec(def, g, input, action, depth) == (Ok(Same(input.GetOr(def.initialState))), g)
    ensures input.None? ==> ReduceSpec(def, g, input, action, depth).0 == Ok(Same(def.initialState))
  {
  }

  /** An undefined state is the initial state, whatever the action. */
  lemma UndefinedIsInitial(def: SliceDef, g: Gate, action: Action, depth: nat)
    ensures ReduceSpec(def, g, None, action, depth) == ReduceSpec(def, g, Some(def.initialState), action, depth)
  {
  }

  // ---------------------------------------------------------------------
  // Reads and writes inside a reduction

  /** Inside a reduction (with no derived selector running), assigning a
      stored field succeeds, and reading it back gives the assigned value
      while every other field reads as before. */
  lemma ReadAfterWrite(def: SliceDef, s: State, w: seq<(string, JsValue)>, name: string, v: JsValue, depth: nat)
    requires IsStored(def, name)
    ensures var g := Gate(Reducing(s, w), None);
            SetField(def, g, name, v).Ok? &&
            ReadField(def, SetField(def, g, name, v).value, name, depth) == Ok(Value(v)) &&
            forall other :: other != name && IsStored(def, other) ==>
              ReadField(def, SetField(def, g, name, v).value, other, depth) == ReadField(def, g, other, depth)
  {
    MapSetSpec(w, name, v);
  }

  /** A stored field not yet assigned in this reduction reads as the
      incoming state's value, `undefined` when it has none. */
  lemma ReadWithoutWrite(def: SliceDef, s: State, w: seq<(string, JsValue)>, name: string, depth: nat)
    requires IsStored(def, name)
    requires name !in KeySet(w)
    ensures ReadField(def, Gate(Reducing(s, w), None), name, depth) ==
              Ok(Value(if name in s then s[name] else Undefined))
  {
  }

  /** Every key of the write-set is a stored field: derived fields refuse
      assignment and other members never reach it. */
  predicate WritesStored(def: SliceDef, g: Gate)
    requires g.mode.Reducing?
  {
    forall k :: k in KeySet(g.mode.writes) ==> IsStored(def, k)
  }

  lemma {:induction false} RunBodyWritesStored(def: SliceDef, g: Gate, args: seq<JsValue>, body: seq<Stmt>, depth: nat)
    requires g.mode.Reducing? && WritesStored(def, g)
    ensures RunBody(def, g, args, body, depth).0.mode.Reducing?
    ensures WritesStored(def, RunBody(def, g, args, body, depth).0)
    decreases |body|
  {
    RunBodyKeepsInput(def, g, args, body, depth);
    if body != [] {
      var r := Exec(def, g, args, body[0], depth);
      if r.Ok? {
        if body[0].Assign? && IsStored(def, body[0].field) {
          var v := Eval(def, g, args, body[0].value, depth).value;
          MapSetSpec(g.mode.writes, body[0].field, v);
        }
        RunBodyWritesStored(def, r.value, args, body[1..], depth);
      }
    }
  }

  lemma {:induction false} RunHandlersWritesStored(def: SliceDef, g: Gate, hs: seq<Handler>, args: seq<JsValue>, depth: nat)
    requires g.mode.Reducing? && WritesStored(def, g)
    ensures RunHandlers(def, g, hs, args, depth).0.mode.Reducing?
    ensures WritesStored(def, RunHandlers(def, g, hs, args, depth).0)
    decreases |hs|
  {
    RunHandlersKeepsInput(def, g, hs, args, depth);
    if hs != [] {
      RunBodyWritesStored(def, g, args, hs[0].body, depth);
      var (next, err) := RunBody(def, g, args, hs[0].body, depth);
      if err.None? {
        RunHandlersWritesStored(def, next, hs[1..], args, depth);
      }
    }
  }

  // ---------------------------------------------------------------------
  // Handler order

  /** Running two bodies one after the other is running their
      concatenation. */
  lemma {:induction false} RunBodyAppend(def: SliceDef, g: Gate, args: seq<JsValue>, b1: seq<Stmt>, b2: seq<Stmt>, depth: nat)
    requires g.mode.Reducing?
    ensures RunBody(def, g, args, b1 + b2, depth) ==
              (RunBodyKeepsInput(def, g, args, b1, depth);
               var (next, err) := RunBody(def, g, args, b1, depth);
               if err.Some? then (next, err) else RunBody(def, next, args, b2, depth))
    decreases |b1|
  {
    RunBodyKeepsInput(def, g, args, b1, depth);
    if b1 != [] {
      assert (b1 + b2)[0] == b1[0] && (b1 + b2)[1..] == b1[1..] + b2;
      var r := Exec(def, g, args, b1[0], depth);
      if r.Ok? {
        RunBodyAppend(def, r.value, args, b1[1..], b2, depth);
      }
    } else {
      assert b1 + b2 == b2;
    }
  }

  /** The statements of a list of handlers, in order. */
  function Bodies(hs: seq<Handler>): (r: seq<Stmt>)
    ensures hs == [] ==> r == []
  {
    if hs == [] then [] else hs[0].body + Bodies(hs[1..])
  }

  /** The handlers of a type run once each, in registration order: the
      reduction is the concatenation of their bodies run in one go. */
  lemma {:induction false} HandlersRunInOrder(def: SliceDef, g: Gate, hs: seq<Handler>, args: seq<JsValue>, depth: nat)
    requires g.mode.Reducing?
    ensures RunHandlers(def, g, hs, args, depth) == RunBody(def, g, args, Bodies(hs), depth)
    decreases |hs|
  {
    if hs != [] {
      RunBodyAppend(def, g, args, hs[0].body, Bodies(hs[1..]), depth);
      RunBodyKeepsInput(def, g, args, hs[0].body, depth);
      var (next, err) := RunBody(def, g, args, hs[0].body, depth);
      if err.None? {
        HandlersRunInOrder(def, next, hs[1..], args, depth);
      }
    }
  }

  // ---------------------------------------------------------------------
  // The merged result and the slots afterwards

  /** When the handlers of a type run without an exception, the result is
      a fresh object holding every key of the input state: an unassigned
      or non-stored key keeps its value, new keys are stored fields, and
      every key holds what reading that field at the end of the reduction
      would have given. Both slots are the sentinel again and the snapshot
      is the one found on entry. */
  lemma {:induction false} ReduceMerges(def: SliceDef, g: Gate, input: Option<State>, action: Action, depth: nat)
    requires action.actionType in def.listeners
    requires ReduceSpec(def, g, input, action, depth).0.Ok?
    ensures var s := input.GetOr(def.initialState);
            var after := AfterHandlers(def, g, input, action, depth).0;
            var n := ReduceSpec(def, g, input, action, depth).0.value;
            after.mode.Reducing? && n.Fresh? &&
            n.state.Keys == s.Keys + KeySet(after.mode.writes) &&
            (forall k :: k in n.state && k !in s ==> IsStored(def, k)) &&
            (forall k :: k in s && !IsStored(def, k) ==> n.state[k] == s[k]) &&
            (forall k :: k in n.state ==>
               ReadStored(def.domain, Gate(after.mode, None), k) == Ok(Value(n.state[k])))
    ensures ReduceSpec(def, g, input, action, depth).1 == Gate(Immutable, g.snapshot)
  {
    var s := input.GetOr(def.initialState);
    var start := StartGate(def, g, input);
    var hs := def.listeners[action.actionType];
    var args := Unpack(action.payload);
    RunHandlersKeepsInput(def, start, hs, args, depth);
    RunHandlersWritesStored(def, start, hs, args, depth);
    var after := RunHandlers(def, start, hs, args, depth).0;
    var w := after.mode.writes;
    var m := s + AsObject(w);
    forall k | k in m
      ensures ReadStored(def.domain, Gate(after.mode, None), k) == Ok(Value(m[k]))
    {
      if k in KeySet(w) {
        assert Lookup(w, k) == Some(AsObject(w)[k]);
      }
    }
  }

  /** After a reduction that ran its handlers, writing a stored field
      from outside is refused and reading it from outside (no derived
      selector running) yields its selector again. */
  lemma RestoredAfterReduce(def: SliceDef, g: Gate, input: Option<State>, action: Action, depth: nat, name: string, v: JsValue)
    requires action.actionType in def.listeners
    requires ReduceSpec(def, g, input, action, depth).0.Ok?
    requires IsStored(def, name)
    ensures SetField(def, ReduceSpec(def, g, input, action, depth).1, name, v) == Err(AccessDenied)
    ensures g.snapshot.None? ==>
              ReadField(def, ReduceSpec(def, g, input, action, depth).1, name, depth) == Ok(StoredSelector(name))
  {
    ReduceMerges(def, g, input, action, depth);
  }

  /** Before the first reduction the write slot is `undefined`, so an
      outside write fails with a `TypeError` rather than the access error. */
  lemma WriteBeforeFirstReduction(def: SliceDef, snapshot: Option<AppState>, name: string, v: JsValue)
    requires IsStored(def, name)
    ensures SetField(def, Gate(Pristine, snapshot), name, v) == Err(NoWriteSet)
    ensures NoWriteSet.IsTypeError() && !AccessDenied.IsTypeError()
  {
  }

  /** A handler that throws leaves the reduction open: the slots keep the
      state and the write-set, so an outside read of a stored field gets a
      value instead of a selector, and an outside write is accepted. */
  lemma {:induction false} ThrowLeavesReducing(def: SliceDef, input: Option<State>, action: Action, depth: nat, name: string)
    requires action.actionType in def.listeners
    requires ReduceSpec(def, Gate(Immutable, None), input, action, depth).0.Err?
    requires IsStored(def, name)
    ensures var after := ReduceSpec(def, Gate(Immutable, None), input, action, depth).1;
            after.mode.Reducing? && after.mode.state == input.GetOr(def.initialState) &&
            ReadField(def, after, name, depth).Ok? && ReadField(def, after, name, depth).value.Value?
  {
    RunHandlersKeepsInput(def, StartGate(def, Gate(Immutable, None), input), def.listeners[action.actionType], Unpack(action.payload), depth);
  }

  // ---------------------------------------------------------------------
  // The emptiness test

  lemma {:induction false} EmptyBodiesWriteNothing(def: SliceDef, g: Gate, hs: seq<Handler>, args: seq<JsValue>, depth: nat)
    requires g.mode.Reducing?
    requires forall i :: 0 <= i < |hs| ==> hs[i].body == []
    ensures RunHandlers(def, g, hs, args, depth) == (g, None)
    decreases |hs|
  {
    if hs != [] {
      EmptyBodiesWriteNothing(def, g, hs[1..], args, depth);
    }
  }

  /** As written, a matched action whose handlers assign nothing still
      yields a fresh object (equal to the input), where the emptiness test
      meant to return the input itself. */
  lemma FreshWithoutWrites(def: SliceDef, g: Gate, input: Option<State>, action: Action, depth: nat)
    requires action.actionType in def.listeners
    requires forall i :: 0 <= i < |def.listeners[action.actionType]| ==> def.listeners[action.actionType][i].body == []
    ensures ReduceSpec(def, g, input, action, depth).0 == Ok(Fresh(input.GetOr(def.initialState)))
    ensures ReduceIntended(def, g, input, action, depth).0 == Ok(Same(input.GetOr(def.initialState)))
  {
    var s := input.GetOr(def.initialState);
    EmptyBodiesWriteNothing(def, StartGate(def, g, input), def.listeners[action.actionType], Unpack(action.payload), depth);
    assert AsObject([]) == map[];
    assert s + map[] == s;
  }

  /** The intended reducer differs from the written one only in handing
      back the input itself when nothing was written: it leaves the same
      slots, fails in the same way, and always yields the same contents. */
  lemma IntendedReduceKeepsIdentity(def: SliceDef, g: Gate, input: Option<State>, action: Action, depth: nat)
    ensures ReduceIntended(def, g, input, action, depth).1 == ReduceSpec(def, g, input, action, depth).1
    ensures ReduceIntended(def, g, input, action, depth).0.Err? <==> ReduceSpec(def, g, input, action, depth).0.Err?
    ensures ReduceIntended(def, g, input, action, depth).0.Err? ==>
              ReduceIntended(def, g, input, action, depth).0 == ReduceSpec(def, g, input, action, depth).0
    ensures ReduceIntended(def, g, input, action, depth).0.Ok? ==>
              ReduceIntended(def, g, input, action, depth).0.value.state == ReduceSpec(def, g, input, action, depth).0.value.state
    ensures action.actionType in def.listeners && ReduceIntended(def, g, input, action, depth).0.Ok? ==>
              (ReduceIntended(def, g, input, action, depth).0.value.Same? <==>
               AfterHandlers(def, g, input, action, depth).0.mode.writes == [])
  {
    if action.actionType in def.listeners {
      var s := input.GetOr(def.initialState);
      RunHandlersKeepsInput(def, StartGate(def, g, input), def.listeners[action.actionType], Unpack(action.payload), depth);
      assert AsObject([]) == map[];
      assert s + map[] == s;
    }
  }

  // ---------------------------------------------------------------------
  // Precedence and derived selectors

  /** A stored field read while a reduction is in progress and a derived
      selector supplied a container state projects that container state;
      a derived field, in the same situation, runs its getter against the
      same gate whichever of the two checks comes first. */
  lemma SnapshotBeforeReducing(def: SliceDef, s: State, w: seq<(string, JsValue)>, app: AppState, name: string, depth: nat)
    requires IsStored(def, name)
    ensures ReadField(def, Gate(Reducing(s, w), Some(app)), name, depth) ==
              match SelectProperty(def.domain, app, name)
              case Ok(v) => Ok(Value(v))
              case Err(e) => Err(e)
  {
  }

  /** Reading a derived field while a derived selector runs nests another
      run of its selector; since the snapshot is set to the value it
      already holds and put back, the gate ends as it began, whether the
      getter returns or throws, and the read yields the getter's value. */
  lemma NestedSelectorRestores(def: SliceDef, mode: Mode, app: AppState, name: string, depth: nat)
    requires name in def.fields && def.fields[name].Derived?
    requires !mode.Reducing?
    ensures var g := Gate(mode, Some(app));
            GetterSelectorSpec(def, g, def.fields[name].getter, app, depth).1 == g &&
            ReadField(def, g, name, depth + 1) ==
              match GetterSelectorSpec(def, g, def.fields[name].getter, app, depth).0
              case Ok(v) => Ok(Value(v))
              case Err(e) => Err(e)
  {
  }

  /** A derived selector that returns puts the snapshot back. */
  lemma SelectorRestoresOnReturn(def: SliceDef, g: Gate, getter: Expr, app: AppState, depth: nat)
    requires GetterSelectorSpec(def, g, getter, app, depth).0.Ok?
    ensures GetterSelectorSpec(def, g, getter, app, depth).1 == g
  {
  }

  /** As written, a derived selector whose getter throws (here: the
      container state lacks the slice) leaves its container state in the
      snapshot, and from then on an outside read of a stored field
      projects that stale container state instead of yielding a selector. */
  lemma StaleSnapshotAfterThrow()
    ensures var def := SliceDef(DomainName("cart"),
                                map["count" := Stored, "total" := Derived(Field("count"))],
                                map["count" := Num(0)], map[]);
            var g := Gate(Immutable, None);
            var app: AppState := map[];
            ReadField(def, g, "count", 1) == Ok(StoredSelector("count")) &&
            GetterSelectorSpec(def, g, Field("count"), app, 1) == (Err(MissingSubdomain), Gate(Immutable, Some(app))) &&
            ReadField(def, Gate(Immutable, Some(app)), "count", 1) == Err(MissingSubdomain)
  {
  }

  /** The intended selector leaves the gate as it found it, so outside
      reads behave the same before and after any call, and it yields what
      the written one yields. */
  lemma IntendedSelectorRestores(def: SliceDef, g: Gate, getter: Expr, app: AppState, depth: nat, name: string)
    ensures GetterSelectorIntended(def, g, getter, app, depth).0 == GetterSelectorSpec(def, g, getter, app, depth).0
    ensures ReadField(def, GetterSelectorIntended(def, g, getter, app, depth).1, name, depth) == ReadField(def, g, name, depth)
  {
  }

  /** On the input that leaves the written selector's snapshot stale, the
      intended one fails the same way but puts the gate back, so a later
      outside read of the stored field yields its selector again. */
  lemma IntendedSelectorAfterThrow()
    ensures var def := SliceDef(DomainName("cart"),
                                map["count" := Stored, "total" := Derived(Field("count"))],
                                map["count" := Num(0)], map[]);
            var g := Gate(Immutable, None);
            var app: AppState := map[];
            var (result, after) := GetterSelectorIntended(def, g, Field("count"), app, 1);
            result == Err(MissingSubdomain) && after == g &&
            ReadField(def, after, "count", 1) == Ok(StoredSelector("count"))
  {
    var def := SliceDef(DomainName("cart"),
                        map["count" := Stored, "total" := Derived(Field("count"))],
                        map["count" := Num(0)], map[]);
    var g := Gate(Immutable, None);
    var app: AppState := map[];
    StaleSnapshotAfterThrow();
    IntendedSelectorRestores(def, g, Field("count"), app, 1, "count");
  }

  /** `select` accepts a stored field's selector and applies it to the
      store's state; a derived field's selector is a plain function and is
      refused. */
  lemma SelectStoredOnly(def: SliceDef, name: string, app: AppState, depth: nat)
    requires name in def.fields
    ensures var a := ReadField(def, Gate(Immutable, None), name, depth).value;
            Select(def, a, Some(app)) ==
              if def.fields[name].Stored? then SelectProperty(def.domain, app, name) else Err(NotSelectable)
  {
  }
}
