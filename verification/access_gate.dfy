/** The access-control state of a compiled slice and what its reducer,
    its field accessors and its derived-field selectors do with it.

    A slice class carries three slots. The state slot holds either the
    `IMMUTABLE_STATE` sentinel or the state being reduced. The write slot
    is `undefined` before the first reduction, the write-set `Map` during
    a reduction and the sentinel afterwards. The snapshot slot holds the
    container state a derived-field selector was called with. The state and
    write slots always change together (two consecutive assignments with
    nothing in between), so they are one `Mode` here; the snapshot is
    independent of them.

    Handler and getter bodies are written in a small language: a handler
    is a list of statements, each assigning an expression to a member of
    the class or throwing; an expression is a constant, a positional
    argument, a member read, or a list of expressions. */
module AccessGate {
  import opened Js
  import opened Utils
  import opened StorePartCodec

  /** A slice's own state object: its field values by name. */
  type State = map<string, JsValue>

  datatype Expr =
    | Lit(v: JsValue)            // a constant
    | Arg(index: nat)            // the handler's positional argument, `undefined` if absent
    | Field(name: string)        // `this.<name>`
    | ListOf(items: seq<Expr>)   // `[e1, e2, ...]`

  datatype Stmt =
    | Assign(field: string, value: Expr)   // `this.<field> = <value>;`
    | Throw                                 // `throw new Error(...)`

  /** A reducer method body, or the generated `running`-status setter;
      `owner` is the member it came from. */
  datatype Handler = Handler(owner: string, body: seq<Stmt>)

  /** A state field: a stored value (with a getter and a setter installed
      over it), or a getter of the class, which becomes derived state. */
  datatype FieldKind = Stored | Derived(getter: Expr)

  /** What compiling a slice class leaves for its reducer and accessors:
      the domain, the kind of every state field, the initial state and the
      action listeners, each an ordered list of handlers. */
  datatype SliceDef = SliceDef(
    domain: DomainId,
    fields: map<string, FieldKind>,
    initialState: State,
    listeners: map<JsValue, seq<Handler>>)

  /** The state and write slots together. `Pristine`: state slot is the
      sentinel and no reduction ran yet, so the write slot is `undefined`.
      `Reducing`: the state being reduced and the write-set, an ordered
      map. `Immutable`: both slots are the sentinel. */
  datatype Mode =
    | Pristine
    | Reducing(state: State, writes: seq<(string, JsValue)>)
    | Immutable

  datatype Gate = Gate(mode: Mode, snapshot: Option<AppState>)

  /** What reading a field gives: a value, or (read from outside a
      reduction and outside a derived selector) a selector of it. */
  datatype Access = Value(v: JsValue) | StoredSelector(name: string) | DerivedSelector(name: string)

  /** A reducer result: the very same state object, or a fresh one. */
  datatype Next = Same(state: State) | Fresh(state: State)

  // ---------------------------------------------------------------------
  // Reading fields

  function Size(e: Expr): nat {
    match e
    case ListOf(items) => 1 + SizeList(items)
    case _ => 1
  }

  function SizeList(items: seq<Expr>): nat {
    if items == [] then 0 else 1 + Size(items[0]) + SizeList(items[1..])
  }

  /** Whether a getter body may run: a reduction is in progress or a
      derived selector supplied a container state. */
  predicate CanDerive(g: Gate) {
    g.mode.Reducing? || g.snapshot.Some?
  }

  /** The getter installed over a stored field: a derived selector's
      container state comes first, then (outside a reduction) the field's
      selector, then the value written in this reduction, then the value
      of the state being reduced. */
  function ReadStored(domain: DomainId, g: Gate, name: string): (r: Result<Access>)
    ensures g.snapshot.Some? ==> r == match SelectProperty(domain, g.snapshot.value, name)
                                      case Ok(v) => Ok(Value(v))
                                      case Err(e) => Err(e)
    ensures g.snapshot.None? && !g.mode.Reducing? ==> r == Ok(StoredSelector(name))
    ensures g.snapshot.None? && g.mode.Reducing? ==>
              r == Ok(Value(match Lookup(g.mode.writes, name)
                            case Some(v) => v
                            case None => if name in g.mode.state then g.mode.state[name] else Undefined))
    ensures CanDerive(g) && r.Ok? ==> r.value.Value?
  {
    match g.snapshot
    case Some(app) =>
      var v :- SelectProperty(domain, app, name);
      Ok(Value(v))
    case None =>
      match g.mode
      case Reducing(s, w) =>
        Ok(Value(match Lookup(w, name)
                 case Some(v) => v
                 case None => if name in s then s[name] else Undefined))
      case _ => Ok(StoredSelector(name))
  }

  /** Reading `this.<name>` / `Provider.<name>`. A derived field runs its
      getter when a reduction is in progress (directly) or when a snapshot
      is set (through its selector, which sets the snapshot to the value it
      already has and puts it back, so the gate is the same); otherwise it
      yields its selector. Every getter run costs one frame of `depth`.
      Members that are not state fields read as `undefined`. */
  function ReadField(def: SliceDef, g: Gate, name: string, depth: nat): (r: Result<Access>)
    ensures name !in def.fields ==> r == Ok(Value(Undefined))
    ensures CanDerive(g) && r.Ok? ==> r.value.Value?
    ensures !CanDerive(g) && name in def.fields ==>
              r == Ok(if def.fields[name].Stored? then StoredSelector(name) else DerivedSelector(name))
    decreases depth, 0
  {
    if name !in def.fields then Ok(Value(Undefined))
    else match def.fields[name]
      case Stored => ReadStored(def.domain, g, name)
      case Derived(getter) =>
        if !CanDerive(g) then Ok(DerivedSelector(name))
        else if depth == 0 then Err(CallStackExceeded)
        else
          var v :- Eval(def, g, [], getter, depth - 1);
          Ok(Value(v))
  }

  /** The value of an expression in a handler or getter body. */
  function Eval(def: SliceDef, g: Gate, args: seq<JsValue>, e: Expr, depth: nat): (r: Result<JsValue>)
    requires CanDerive(g)
    decreases depth, Size(e)
  {
    match e
    case Lit(v) => Ok(v)
    case Arg(i) => Ok(if i < |args| then args[i] else Undefined)
    case Field(name) =>
      var a :- ReadField(def, g, name, depth);
      if a.Value? then Ok(a.v) else assert false; Ok(Undefined)
    case ListOf(items) =>
      var vs :- EvalList(def, g, args, items, depth);
      Ok(Arr(vs))
  }

  function EvalList(def: SliceDef, g: Gate, args: seq<JsValue>, items: seq<Expr>, depth: nat): (r: Result<seq<JsValue>>)
    requires CanDerive(g)
    ensures r.Ok? ==> |r.value| == |items|
    decreases depth, SizeList(items)
  {
    if items == [] then Ok([])
    else
      var v :- Eval(def, g, args, items[0], depth);
      var vs :- EvalList(def, g, args, items[1..], depth);
      Ok([v] + vs)
  }

  // ---------------------------------------------------------------------
  // Writing fields and running handlers

  /** Assigning `this.<name> = v`. A stored field's setter adds to the
      write-set; outside a reduction it meets `undefined` (before the first
      one) or the sentinel, whose `set` refuses access. A derived field has
      no setter. Assignments to other members are not modelled. */
  function SetField(def: SliceDef, g: Gate, name: string, v: JsValue): (r: Result<Gate>)
    ensures name in def.fields && def.fields[name].Derived? ==> r == Err(GetterOnly)
    ensures name in def.fields && def.fields[name].Stored? ==>
              (g.mode.Pristine? ==> r == Err(NoWriteSet)) &&
              (g.mode.Immutable? ==> r == Err(AccessDenied)) &&
              (g.mode.Reducing? ==> r.Ok?)
    ensures r.Ok? ==> r.value.snapshot == g.snapshot
    ensures r.Ok? && g.mode.Reducing? ==>
              r.value.mode.Reducing? && r.value.mode.state == g.mode.state
    ensures r.Ok? && !g.mode.Reducing? ==> r.value == g
  {
    if name !in def.fields then Ok(g)
    else match def.fields[name]
      case Derived(_) => Err(GetterOnly)
      case Stored =>
        match g.mode
        case Pristine => Err(NoWriteSet)
        case Immutable => Err(AccessDenied)
        case Reducing(s, w) => Ok(Gate(Reducing(s, MapSet(w, name, v)), g.snapshot))
  }

  /** One statement of a handler body. */
  function Exec(def: SliceDef, g: Gate, args: seq<JsValue>, st: Stmt, depth: nat): (r: Result<Gate>)
    requires g.mode.Reducing?
    ensures r.Ok? ==> r.value.mode.Reducing? && r.value.mode.state == g.mode.state
    ensures r.Ok? ==> r.value.snapshot == g.snapshot
  {
    match st
    case Throw => Err(HandlerThrew)
    case Assign(name, e) =>
      var v :- Eval(def, g, args, e, depth);
      SetField(def, g, name, v)
  }

  /** A handler body, statement by statement. The first exception stops
      it and is returned with the gate as it was then: the writes made so
      far stay. */
  function RunBody(def: SliceDef, g: Gate, args: seq<JsValue>, body: seq<Stmt>, depth: nat): (r: (Gate, Option<Error>))
    requires g.mode.Reducing?
    decreases |body|
  {
    if body == [] then (g, None)
    else match Exec(def, g, args, body[0], depth)
      case Err(e) => (g, Some(e))
      case Ok(next) => RunBody(def, next, args, body[1..], depth)
  }

  /** The handlers of one action type, in registration order, each called
      with the same arguments; the first exception stops the sequence. */
  function RunHandlers(def: SliceDef, g: Gate, hs: seq<Handler>, args: seq<JsValue>, depth: nat): (r: (Gate, Option<Error>))
    requires g.mode.Reducing?
    decreases |hs|
  {
    if hs == [] then (g, None)
    else
      RunBodyKeepsInput(def, g, args, hs[0].body, depth);
      var (next, err) := RunBody(def, g, args, hs[0].body, depth);
      if err.Some? then (next, err)
      else RunHandlers(def, next, hs[1..], args, depth)
  }

  /** A handler body never replaces the state being reduced nor the
      snapshot; it only adds to the write-set. */
  lemma {:induction false} RunBodyKeepsInput(def: SliceDef, g: Gate, args: seq<JsValue>, body: seq<Stmt>, depth: nat)
    requires g.mode.Reducing?
    ensures RunBody(def, g, args, body, depth).0.mode.Reducing?
    ensures RunBody(def, g, args, body, depth).0.mode.state == g.mode.state
    ensures RunBody(def, g, args, body, depth).0.snapshot == g.snapshot
    decreases |body|
  {
    if body != [] {
      var r := Exec(def, g, args, body[0], depth);
      if r.Ok? {
        RunBodyKeepsInput(def, r.value, args, body[1..], depth);
      }
    }
  }

  /** The same for a sequence of handlers. */
  lemma {:induction false} RunHandlersKeepsInput(def: SliceDef, g: Gate, hs: seq<Handler>, args: seq<JsValue>, depth: nat)
    requires g.mode.Reducing?
    ensures RunHandlers(def, g, hs, args, depth).0.mode.Reducing?
    ensures RunHandlers(def, g, hs, args, depth).0.mode.state == g.mode.state
    ensures RunHandlers(def, g, hs, args, depth).0.snapshot == g.snapshot
    decreases |hs|
  {
    if hs != [] {
      RunBodyKeepsInput(def, g, args, hs[0].body, depth);
      var (next, err) := RunBody(def, g, args, hs[0].body, depth);
      if err.None? {
        RunHandlersKeepsInput(def, next, hs[1..], args, depth);
      }
    }
  }

  // ---------------------------------------------------------------------
  // The reducer

  /** The generated reducer, as written: an undefined state stands for the
      initial state; without listeners for the action's type the state is
      returned as it is; otherwise the handlers run against a fresh
      write-set, both slots are put back to the sentinel, and a fresh
      object merging the write-set over the state is returned. The test
      meant to return the state when nothing was written reads `.size` of
      an array of keys, which is always `undefined`, so it never succeeds.
      An exception leaves the slots as they were when it was thrown. */
  function ReduceSpec(def: SliceDef, g: Gate, input: Option<State>, action: Action, depth: nat): (r: (Result<Next>, Gate))
  {
    var s := input.GetOr(def.initialState);
    if action.actionType !in def.listeners then (Ok(Same(s)), g)
    else
      var start := Gate(Reducing(s, []), g.snapshot);
      RunHandlersKeepsInput(def, start, def.listeners[action.actionType], Unpack(action.payload), depth);
      var (after, err) := RunHandlers(def, start, def.listeners[action.actionType], Unpack(action.payload), depth);
      if err.Some? then (Err(err.value), after)
      else (Ok(Fresh(s + AsObject(after.mode.writes))), Gate(Immutable, after.snapshot))
  }

  /** The reducer as its emptiness test intends it (`mutatedObjectMap.size
      === 0`): the state itself when no handler wrote anything. */
  function ReduceIntended(def: SliceDef, g: Gate, input: Option<State>, action: Action, depth: nat): (r: (Result<Next>, Gate))
  {
    var s := input.GetOr(def.initialState);
    if action.actionType !in def.listeners then (Ok(Same(s)), g)
    else
      var start := Gate(Reducing(s, []), g.snapshot);
      RunHandlersKeepsInput(def, start, def.listeners[action.actionType], Unpack(action.payload), depth);
      var (after, err) := RunHandlers(def, start, def.listeners[action.actionType], Unpack(action.payload), depth);
      if err.Some? then (Err(err.value), after)
      else if after.mode.writes == [] then (Ok(Same(s)), Gate(Immutable, after.snapshot))
      else (Ok(Fresh(s + AsObject(after.mode.writes))), Gate(Immutable, after.snapshot))
  }

  // ---------------------------------------------------------------------
  // Derived-field selectors and `select`

  /** A derived field's selector called with a container state: the
      snapshot is saved, set to that state while the getter runs, and put
      back afterwards. There is no `finally`: when the getter throws, the
      snapshot keeps the container state. */
  function GetterSelectorSpec(def: SliceDef, g: Gate, getter: Expr, app: AppState, depth: nat): (r: (Result<JsValue>, Gate))
  {
    var during := Gate(g.mode, Some(app));
    match Eval(def, during, [], getter, depth)
    case Ok(v) => (Ok(v), g)
    case Err(e) => (Err(e), during)
  }

  /** The selector as its comment intends it: the snapshot it found is put
      back whether the getter returns or throws. */
  function GetterSelectorIntended(def: SliceDef, g: Gate, getter: Expr, app: AppState, depth: nat): (r: (Result<JsValue>, Gate))
  {
    var during := Gate(g.mode, Some(app));
    (Eval(def, during, [], getter, depth), g)
  }

  /** `select(property, store)`: the store is required and the property
      must be a memoised selector; only stored fields' selectors are. */
  function Select(def: SliceDef, property: Access, store: Option<AppState>): (r: Result<JsValue>)
    ensures store.None? ==> r == Err(StoreExpected)
    ensures store.Some? && !property.StoredSelector? ==> r == Err(NotSelectable)
    ensures store.Some? && property.StoredSelector? ==>
              r == SelectProperty(def.domain, store.value, property.name)
  {
    if store.None? then Err(StoreExpected)
    else if !property.StoredSelector? then Err(NotSelectable)
    else SelectProperty(def.domain, store.value, property.name)
  }
}
