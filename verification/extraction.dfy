/** Compiling the members of a slice class: each own member that is not
    blacklisted is routed by its kind tag. State members become stored or
    derived fields, reducer methods become action listeners, effect
    handlers become watchers (with an optional running-status field), and
    reducer and effect methods are replaced by action builders. */
module Extraction {
  import opened Js
  import opened PropertyMeta
  import opened StorePartCodec
  import opened AccessGate

  /** An own member of the slice class, with the parts of its property
      descriptor the compiler reads. A method is a function carrying a
      decorator tag and its metadata; its body is the handler code. */
  datatype Member =
    | DataMember(name: string, value: JsValue, configurable: bool)
    | AccessorMember(name: string, getter: Expr, hasSetter: bool, configurable: bool)
    | MethodMember(name: string, tag: Tag, meta: Meta, body: seq<Stmt>, value: JsValue)
  {
    function Name(): string {
      match this
      case DataMember(n, _, _) => n
      case AccessorMember(n, _, _, _) => n
      case MethodMember(n, _, _, _, _) => n
    }
  }

  /** What replaces a reducer or effect method: an action builder for the
      derived action type, or nothing when the method has no action type. */
  datatype Builder = Killed | ActionBuilder(actionType: JsValue)

  /** An effect handler's watcher: the take strategy and action type of
      every listened type, in order, and the status action type its calls
      are wrapped with when tracked. */
  datatype Watcher = Watcher(owner: string, tracking: Option<JsValue>, watches: seq<(Strategy, JsValue)>)

  /** Everything compilation collects. */
  datatype Bag = Bag(
    fields: map<string, FieldKind>,
    initialState: State,
    listeners: map<JsValue, seq<Handler>>,
    sagas: seq<Watcher>,
    builders: map<string, Builder>)

  const EmptyBag := Bag(map[], map[], map[], [], map[])

  /** Names skipped: the own properties of `Object.prototype`, those of a
      plain function, and `displayName`. */
  const Blacklist: seq<string> := [
    "constructor", "__defineGetter__", "__defineSetter__", "hasOwnProperty",
    "__lookupGetter__", "__lookupSetter__", "isPrototypeOf", "propertyIsEnumerable",
    "toString", "valueOf", "__proto__", "toLocaleString",
    "length", "name", "prototype",
    "displayName"]

  // ---------------------------------------------------------------------
  // Action listeners

  /** `addActionListener`: the list of a type is created empty on first
      use and the handler is appended to it. */
  function AddListener(ls: map<JsValue, seq<Handler>>, t: JsValue, h: Handler): map<JsValue, seq<Handler>> {
    ls[t := (if t in ls then ls[t] else []) + [h]]
  }

  function AddListeners(ls: map<JsValue, seq<Handler>>, pairs: seq<(JsValue, Handler)>): map<JsValue, seq<Handler>>
    decreases |pairs|
  {
    if pairs == [] then ls else AddListeners(AddListener(ls, pairs[0].0, pairs[0].1), pairs[1..])
  }

  /** The handlers registered under `t`, in registration order. */
  function HandlersFor(pairs: seq<(JsValue, Handler)>, t: JsValue): seq<Handler>
    decreases |pairs|
  {
    if pairs == [] then []
    else (if pairs[0].0 == t then [pairs[0].1] else []) + HandlersFor(pairs[1..], t)
  }

  /** Registering a list of listeners keeps every type's handlers in the
      order they were registered, after those it already had; a type gets
      an entry exactly when it already had one or a handler was
      registered for it. */
  lemma {:induction false} AddListenersInOrder(ls: map<JsValue, seq<Handler>>, pairs: seq<(JsValue, Handler)>, t: JsValue)
    ensures t in AddListeners(ls, pairs) <==> t in ls || HandlersFor(pairs, t) != []
    ensures t in AddListeners(ls, pairs) ==>
              AddListeners(ls, pairs)[t] == (if t in ls then ls[t] else []) + HandlersFor(pairs, t)
    decreases |pairs|
  {
    if pairs != [] {
      var next := AddListener(ls, pairs[0].0, pairs[0].1);
      AddListenersInOrder(next, pairs[1..], t);
      if pairs[0].0 == t {
        assert (if t in next then next[t] else []) == (if t in ls then ls[t] else []) + [pairs[0].1];
      }
    }
  }

  lemma {:induction false} AddListenersAppend(ls: map<JsValue, seq<Handler>>, p1: seq<(JsValue, Handler)>, p2: seq<(JsValue, Handler)>)
    ensures AddListeners(ls, p1 + p2) == AddListeners(AddListeners(ls, p1), p2)
    decreases |p1|
  {
    if p1 == [] {
      assert p1 + p2 == p2;
    } else {
      assert (p1 + p2)[0] == p1[0] && (p1 + p2)[1..] == p1[1..] + p2;
      AddListenersAppend(AddListener(ls, p1[0].0, p1[0].1), p1[1..], p2);
    }
  }

  // ---------------------------------------------------------------------
  // One member at a time

  /** `installActionBuilder`: a method without a (truthy) action type is
      killed; otherwise it becomes a builder of its derived action type. */
  function BuilderFor(meta: Meta, domain: DomainId, name: string, cc: string -> string): (b: Builder)
    ensures meta.actionType.None? ==> b == Killed
    ensures meta.actionType == Some(Dynamic) ==>
              b == ActionBuilder(Str(DynamicType(cc(DomainText(domain)), cc(name))))
    ensures meta.actionType.Some? && meta.actionType.value.Given? ==>
              b == if Truthy(meta.actionType.value.value) then ActionBuilder(meta.actionType.value.value) else Killed
  {
    match meta.actionType
    case None => Killed
    case Some(Dynamic) => ActionBuilder(ParseActionType(Dynamic, domain, name, cc))
    case Some(Given(v)) => if Truthy(v) then ActionBuilder(ParseActionType(Given(v), domain, name, cc)) else Killed
  }

  /** The listeners a reducer method registers: itself, under each of its
      listened types. */
  function ReducerPairs(keys: seq<ActionKey>, domain: DomainId, name: string, cc: string -> string, h: Handler): (r: seq<(JsValue, Handler)>)
    ensures |r| == |keys|
    ensures forall i :: 0 <= i < |keys| ==> r[i] == (ParseActionType(keys[i], domain, name, cc), h)
  {
    seq(|keys|, i requires 0 <= i < |keys| => (ParseActionType(keys[i], domain, name, cc), h))
  }

  /** `extractState`: a non-configurable member or one with a setter is
      refused; a getter becomes a derived field; a value becomes a stored
      field whose initial value it is. */
  function ExtractState(bag: Bag, m: Member): (r: Result<Bag>)
    requires !m.MethodMember?
    ensures !m.configurable ==> r == Err(NonConfigurable)
    ensures m.configurable && m.AccessorMember? && m.hasSetter ==> r == Err(SetterUnsupported)
    ensures r.Ok? ==> r.value.fields.Keys == bag.fields.Keys + {m.Name()}
    ensures r.Ok? && m.AccessorMember? ==>
              r.value == bag.(fields := bag.fields[m.name := Derived(m.getter)])
    ensures r.Ok? && m.DataMember? ==>
              r.value == bag.(fields := bag.fields[m.name := Stored],
                              initialState := bag.initialState[m.name := m.value])
    ensures r.Err? ==> r.error.IsTypeError()
  {
    if !m.configurable then Err(NonConfigurable)
    else match m
      case AccessorMember(name, getter, hasSetter, _) =>
        if hasSetter then Err(SetterUnsupported)
        else Ok(bag.(fields := bag.fields[name := Derived(getter)]))
      case DataMember(name, value, _) =>
        Ok(bag.(fields := bag.fields[name := Stored], initialState := bag.initialState[name := value]))
  }

  /** `extractReducer`: the method listens to each of its types (a method
      without a listened set cannot be iterated), then is replaced. */
  function ExtractReducer(bag: Bag, name: string, meta: Meta, body: seq<Stmt>, domain: DomainId, cc: string -> string): (r: Result<Bag>)
  {
    if meta.listened.None? then Err(NotIterable)
    else
      var ls := AddListeners(bag.listeners, ReducerPairs(meta.listened.value, domain, name, cc, Handler(name, body)));
      Ok(bag.(listeners := ls, builders := bag.builders[name := BuilderFor(meta, domain, name, cc)]))
  }

  /** The status action type of a tracked effect handler. */
  function TrackType(domain: DomainId, name: string, cc: string -> string): string {
    "@@" + cc(DomainText(domain)) + "/SET_RUNNING/" + cc(name)
  }

  function RunningField(name: string): string {
    name + ".running"
  }

  /** The listener that stores a tracked handler's running status: it
      assigns its argument to the status field. */
  function RunningHandler(name: string): Handler {
    Handler(name, [Assign(RunningField(name), Arg(0))])
  }

  /** The watch of the listened type at position `j`: the take strategy
      chosen for that position and the type's derived action type. */
  function WatchAt(tf: Option<map<int, Strategy>>, tfKeys: Option<seq<int>>, keys: seq<ActionKey>, j: nat,
                   domain: DomainId, name: string, cc: string -> string): (r: Result<(Strategy, JsValue)>)
    requires j < |keys|
    ensures r.Ok? <==> StrategyFor(tf, tfKeys, j).Ok?
    ensures r.Ok? ==> r.value.0 == StrategyFor(tf, tfKeys, j).value && r.value.1 == ParseActionType(keys[j], domain, name, cc)
  {
    var st :- StrategyFor(tf, tfKeys, j);
    Ok((st, ParseActionType(keys[j], domain, name, cc)))
  }

  /** The watches of the listened types from position `i` on, appended to
      `acc`; a strategy that cannot be found fails the whole list. */
  function WatchesFrom(acc: seq<(Strategy, JsValue)>, tf: Option<map<int, Strategy>>, tfKeys: Option<seq<int>>, keys: seq<ActionKey>, i: nat,
                       domain: DomainId, name: string, cc: string -> string): (r: Result<seq<(Strategy, JsValue)>>)
    requires i <= |keys|
    decreases |keys| - i
  {
    if i == |keys| then Ok(acc)
    else
      var w :- WatchAt(tf, tfKeys, keys, i, domain, name, cc);
      WatchesFrom(acc + [w], tf, tfKeys, keys, i + 1, domain, name, cc)
  }

  /** The watches gathered keep those already there and add one per
      remaining listened type. */
  lemma {:induction false} WatchesShape(acc: seq<(Strategy, JsValue)>, tf: Option<map<int, Strategy>>, tfKeys: Option<seq<int>>, keys: seq<ActionKey>, i: nat,
                                       domain: DomainId, name: string, cc: string -> string)
    requires i <= |keys|
    requires WatchesFrom(acc, tf, tfKeys, keys, i, domain, name, cc).Ok?
    ensures var r := WatchesFrom(acc, tf, tfKeys, keys, i, domain, name, cc).value;
            |r| == |acc| + |keys| - i && r[..|acc|] == acc
    decreases |keys| - i
  {
    if i < |keys| {
      var next := acc + [WatchAt(tf, tfKeys, keys, i, domain, name, cc).value];
      WatchesShape(next, tf, tfKeys, keys, i + 1, domain, name, cc);
      var r := WatchesFrom(acc, tf, tfKeys, keys, i, domain, name, cc).value;
      assert r[..|next|][..|acc|] == acc;
    }
  }

  /** Every listened type from position `i` on is watched at its own
      place, with its own watch. */
  lemma {:induction false} WatchesSpec(acc: seq<(Strategy, JsValue)>, tf: Option<map<int, Strategy>>, tfKeys: Option<seq<int>>, keys: seq<ActionKey>, i: nat,
                                      domain: DomainId, name: string, cc: string -> string, j: nat)
    requires i <= j < |keys|
    requires WatchesFrom(acc, tf, tfKeys, keys, i, domain, name, cc).Ok?
    ensures WatchAt(tf, tfKeys, keys, j, domain, name, cc).Ok?
    ensures var r := WatchesFrom(acc, tf, tfKeys, keys, i, domain, name, cc).value;
            |acc| + j - i < |r| && r[|acc| + j - i] == WatchAt(tf, tfKeys, keys, j, domain, name, cc).value
    decreases |keys| - i
  {
    var next := acc + [WatchAt(tf, tfKeys, keys, i, domain, name, cc).value];
    WatchesShape(next, tf, tfKeys, keys, i + 1, domain, name, cc);
    if i < j {
      WatchesSpec(next, tf, tfKeys, keys, i + 1, domain, name, cc, j);
    } else {
      var r := WatchesFrom(acc, tf, tfKeys, keys, i, domain, name, cc).value;
      assert r[..|next|][|acc|] == r[|acc|];
    }
  }

  /** A listened type whose take function cannot be found fails the
      whole list. */
  lemma {:induction false} WatchesFail(acc: seq<(Strategy, JsValue)>, tf: Option<map<int, Strategy>>, tfKeys: Option<seq<int>>, keys: seq<ActionKey>, i: nat,
                                      domain: DomainId, name: string, cc: string -> string, j: nat)
    requires i <= j < |keys| && StrategyFor(tf, tfKeys, j).Err?
    ensures WatchesFrom(acc, tf, tfKeys, keys, i, domain, name, cc).Err?
    decreases |keys| - i
  {
    if i < j && WatchAt(tf, tfKeys, keys, i, domain, name, cc).Ok? {
      WatchesFail(acc + [WatchAt(tf, tfKeys, keys, i, domain, name, cc).value], tf, tfKeys, keys, i + 1, domain, name, cc, j);
    }
  }

  /** The status-tracking part of `extractSaga`, after the builder was
      installed: a stored `<name>.running` field starting `false` is added,
      the builder gets its selector (which fails on a killed method), and a
      status listener is registered. Without tracking, nothing changes. */
  function WithStatus(bag: Bag, name: string, meta: Meta, builder: Builder, domain: DomainId, cc: string -> string): (r: Result<Bag>)
    ensures r.Ok? ==> r.value.sagas == bag.sagas && r.value.builders == bag.builders
    ensures !meta.trackStatus ==> r == Ok(bag)
    ensures meta.trackStatus && builder.Killed? ==> r == Err(DefineOnNonObject)
  {
    if !meta.trackStatus then Ok(bag)
    else if builder.Killed? then Err(DefineOnNonObject)
    else Ok(bag.(fields := bag.fields[RunningField(name) := Stored],
                 initialState := bag.initialState[RunningField(name) := Bool(false)],
                 listeners := AddListener(bag.listeners, Str(TrackType(domain, name, cc)), RunningHandler(name))))
  }

  /** `extractSaga`: the method is replaced by its builder first, then
      the status tracking is set up; a watcher is added only when the
      method listens to at least one type. */
  function ExtractSaga(bag: Bag, name: string, meta: Meta, domain: DomainId, cc: string -> string): (r: Result<Bag>)
  {
    var builder := BuilderFor(meta, domain, name, cc);
    var tracked :- WithStatus(bag.(builders := bag.builders[name := builder]), name, meta, builder, domain, cc);
    if meta.listened.None? || meta.listened.value == [] then Ok(tracked)
    else
      var watches :- WatchesFrom([], meta.takeFunctions, TakeKeys(meta.takeFunctions), meta.listened.value, 0, domain, name, cc);
      Ok(tracked.(sagas := tracked.sagas + [Watcher(name, Tracking(meta, domain, name, cc), watches)]))
  }

  /** The status action type a tracked handler's calls are wrapped with. */
  function Tracking(meta: Meta, domain: DomainId, name: string, cc: string -> string): (r: Option<JsValue>)
    ensures r.Some? <==> meta.trackStatus
  {
    if meta.trackStatus then Some(Str(TrackType(domain, name, cc))) else None
  }

  /** What `extractSaga` does to the list of watchers: nothing without
      listened types, and otherwise appends one watcher. */
  lemma ExtractSagaSagas(bag: Bag, name: string, meta: Meta, domain: DomainId, cc: string -> string)
    requires ExtractSaga(bag, name, meta, domain, cc).Ok?
    ensures meta.listened.None? || meta.listened.value == [] ==> ExtractSaga(bag, name, meta, domain, cc).value.sagas == bag.sagas
    ensures meta.listened.Some? && meta.listened.value != [] ==>
              WatchesFrom([], meta.takeFunctions, TakeKeys(meta.takeFunctions), meta.listened.value, 0, domain, name, cc).Ok? &&
              ExtractSaga(bag, name, meta, domain, cc).value.sagas ==
                bag.sagas + [Watcher(name, Tracking(meta, domain, name, cc),
                                     WatchesFrom([], meta.takeFunctions, TakeKeys(meta.takeFunctions), meta.listened.value, 0, domain, name, cc).value)]
  {
    var builder := BuilderFor(meta, domain, name, cc);
    var tracked := WithStatus(bag.(builders := bag.builders[name := builder]), name, meta, builder, domain, cc);
    assert tracked.Ok? && tracked.value.sagas == bag.sagas;
  }

  /** One member of the class, routed by its kind tag. */
  function ExtractMember(bag: Bag, m: Member, domain: DomainId, cc: string -> string): (r: Result<Bag>)
    ensures m.Name() in Blacklist ==> r == Ok(bag)
    ensures m.MethodMember? && m.tag == TagActionGenerator ==> r == Ok(bag)
    ensures m.Name() !in Blacklist && !m.MethodMember? ==> r == ExtractState(bag, m)
  {
    if m.Name() in Blacklist then Ok(bag)
    else match m
      case MethodMember(name, tag, meta, body, value) =>
        (match tag
         case TagActionGenerator => Ok(bag)
         case TagReducer => ExtractReducer(bag, name, meta, body, domain, cc)
         case TagSaga => ExtractSaga(bag, name, meta, domain, cc)
         case TagState => ExtractState(bag, DataMember(name, value, true)))
      case _ => ExtractState(bag, m)
  }

  /** `extractFromProvider`: the members in order; the first exception
      stops compilation. */
  function ExtractAll(bag: Bag, ms: seq<Member>, domain: DomainId, cc: string -> string): Result<Bag>
    decreases |ms|
  {
    if ms == [] then Ok(bag)
    else match ExtractMember(bag, ms[0], domain, cc)
      case Err(e) => Err(e)
      case Ok(next) => ExtractAll(next, ms[1..], domain, cc)
  }

  // ---------------------------------------------------------------------
  // Properties of compilation

  /** The listeners one member registers, in order. */
  function MemberPairs(m: Member, domain: DomainId, cc: string -> string): seq<(JsValue, Handler)> {
    if m.Name() in Blacklist || !m.MethodMember? then []
    else if m.tag == TagReducer && m.meta.listened.Some? then
      ReducerPairs(m.meta.listened.value, domain, m.name, cc, Handler(m.name, m.body))
    else if m.tag == TagSaga && m.meta.trackStatus then
      [(Str(TrackType(domain, m.name, cc)), RunningHandler(m.name))]
    else []
  }

  function AllPairs(ms: seq<Member>, domain: DomainId, cc: string -> string): seq<(JsValue, Handler)>
    decreases |ms|
  {
    if ms == [] then [] else MemberPairs(ms[0], domain, cc) + AllPairs(ms[1..], domain, cc)
  }

  lemma ExtractMemberListeners(bag: Bag, m: Member, domain: DomainId, cc: string -> string)
    requires ExtractMember(bag, m, domain, cc).Ok?
    ensures ExtractMember(bag, m, domain, cc).value.listeners == AddListeners(bag.listeners, MemberPairs(m, domain, cc))
  {
    if m.Name() !in Blacklist && m.MethodMember? && m.tag == TagSaga {
      ExtractSagaListeners(bag, m.name, m.meta, domain, cc);
      if m.meta.trackStatus {
        var t := Str(TrackType(domain, m.name, cc));
        assert AddListeners(bag.listeners, [(t, RunningHandler(m.name))]) ==
               AddListeners(AddListener(bag.listeners, t, RunningHandler(m.name)), []);
      }
    }
  }

  /** What `extractSaga` does to the listeners: a tracked handler adds its
      status listener, an untracked one nothing. */
  lemma ExtractSagaListeners(bag: Bag, name: string, meta: Meta, domain: DomainId, cc: string -> string)
    requires ExtractSaga(bag, name, meta, domain, cc).Ok?
    ensures ExtractSaga(bag, name, meta, domain, cc).value.listeners ==
              if meta.trackStatus then AddListener(bag.listeners, Str(TrackType(domain, name, cc)), RunningHandler(name))
              else bag.listeners
  {
    var builder := BuilderFor(meta, domain, name, cc);
    var tracked := WithStatus(bag.(builders := bag.builders[name := builder]), name, meta, builder, domain, cc);
    assert tracked.Ok?;
  }

  /** Compilation registers listeners exactly as a single pass over the
      members would, member by member: so the handlers of every action
      type are the matching methods and status setters, in class order. */
  lemma {:induction false} ExtractAllListeners(bag: Bag, ms: seq<Member>, domain: DomainId, cc: string -> string, t: JsValue)
    requires ExtractAll(bag, ms, domain, cc).Ok?
    ensures ExtractAll(bag, ms, domain, cc).value.listeners == AddListeners(bag.listeners, AllPairs(ms, domain, cc))
    ensures var ls := ExtractAll(bag, ms, domain, cc).value.listeners;
            t in ls ==> ls[t] == (if t in bag.listeners then bag.listeners[t] else []) + HandlersFor(AllPairs(ms, domain, cc), t)
    decreases |ms|
  {
    if ms != [] {
      var next := ExtractMember(bag, ms[0], domain, cc).value;
      ExtractMemberListeners(bag, ms[0], domain, cc);
      ExtractAllListeners(next, ms[1..], domain, cc, t);
      AddListenersAppend(bag.listeners, MemberPairs(ms[0], domain, cc), AllPairs(ms[1..], domain, cc));
    }
    AddListenersInOrder(bag.listeners, AllPairs(ms, domain, cc), t);
  }

  /** A tracked effect handler gets a stored `<name>.running` field that
      starts `false`, a status listener last in its type's list, and a
      builder. */
  lemma TrackedSaga(bag: Bag, name: string, meta: Meta, domain: DomainId, cc: string -> string)
    requires meta.trackStatus
    requires ExtractSaga(bag, name, meta, domain, cc).Ok?
    ensures var r := ExtractSaga(bag, name, meta, domain, cc).value;
            var t := Str(TrackType(domain, name, cc));
            RunningField(name) in r.fields && r.fields[RunningField(name)] == Stored &&
            RunningField(name) in r.initialState && r.initialState[RunningField(name)] == Bool(false) &&
            t in r.listeners && |r.listeners[t]| > 0 && r.listeners[t][|r.listeners[t]| - 1] == RunningHandler(name) &&
            name in r.builders && r.builders[name].ActionBuilder?
  {
    var builder := BuilderFor(meta, domain, name, cc);
    var tracked := WithStatus(bag.(builders := bag.builders[name := builder]), name, meta, builder, domain, cc);
    assert tracked.Ok? && builder.ActionBuilder?;
    ExtractSagaListeners(bag, name, meta, domain, cc);
  }

  /** Running a status listener inside a reduction with a non-array
      payload `p` writes `p` to the status field. */
  lemma RunningHandlerWrites(name: string, def: SliceDef, s: State, w: seq<(string, JsValue)>, p: JsValue)
    requires def.fields.Keys >= {RunningField(name)} && def.fields[RunningField(name)].Stored?
    requires !p.Arr?
    ensures RunBody(def, Gate(Reducing(s, w), None), Unpack(p), RunningHandler(name).body, 0) ==
              (Gate(Reducing(s, Utils.MapSet(w, RunningField(name), p)), None), None)
  {
  }

  /** An effect handler gets a watcher exactly when it listens to at least
      one type; the watcher watches every listened type in order, and
      without a strategy table each with `takeLatest`. */
  lemma SagaWatcher(bag: Bag, name: string, meta: Meta, domain: DomainId, cc: string -> string)
    requires ExtractSaga(bag, name, meta, domain, cc).Ok?
    ensures var r := ExtractSaga(bag, name, meta, domain, cc).value;
            (meta.listened.None? || meta.listened.value == [] ==> r.sagas == bag.sagas) &&
            (meta.listened.Some? && meta.listened.value != [] ==>
               |r.sagas| == |bag.sagas| + 1 && r.sagas[..|bag.sagas|] == bag.sagas &&
               var wt := r.sagas[|bag.sagas|];
               wt.owner == name && |wt.watches| == |meta.listened.value| &&
               (wt.tracking.Some? <==> meta.trackStatus) &&
               forall j :: 0 <= j < |wt.watches| ==>
                 wt.watches[j].1 == ParseActionType(meta.listened.value[j], domain, name, cc) &&
                 (meta.takeFunctions.None? ==> wt.watches[j].0 == TakeLatest))
  {
    ExtractSagaSagas(bag, name, meta, domain, cc);
    if meta.listened.Some? && meta.listened.value != [] {
      var keys := meta.listened.value;
      var tfKeys := TakeKeys(meta.takeFunctions);
      WatchesTypes(meta.takeFunctions, tfKeys, keys, domain, name, cc);
      var watches := WatchesFrom([], meta.takeFunctions, tfKeys, keys, 0, domain, name, cc).value;
      var r := ExtractSaga(bag, name, meta, domain, cc).value;
      assert r.sagas[|bag.sagas|] == Watcher(name, Tracking(meta, domain, name, cc), watches);
      assert r.sagas[..|bag.sagas|] == bag.sagas;
    }
  }

  /** The watches of a list of listened types: one per type, in order,
      each for the type's derived action type, and with `takeLatest`
      when there is no key list. */
  lemma WatchesTypes(tf: Option<map<int, Strategy>>, tfKeys: Option<seq<int>>, keys: seq<ActionKey>,
                     domain: DomainId, name: string, cc: string -> string)
    requires WatchesFrom([], tf, tfKeys, keys, 0, domain, name, cc).Ok?
    ensures var watches := WatchesFrom([], tf, tfKeys, keys, 0, domain, name, cc).value;
            |watches| == |keys| &&
            forall j :: 0 <= j < |watches| ==>
              watches[j].1 == ParseActionType(keys[j], domain, name, cc) &&
              (tfKeys.None? ==> watches[j].0 == TakeLatest)
  {
    WatchesShape([], tf, tfKeys, keys, 0, domain, name, cc);
    forall j | 0 <= j < |keys|
      ensures WatchAt(tf, tfKeys, keys, j, domain, name, cc).Ok?
      ensures WatchesFrom([], tf, tfKeys, keys, 0, domain, name, cc).value[j] == WatchAt(tf, tfKeys, keys, j, domain, name, cc).value
    {
      WatchesSpec([], tf, tfKeys, keys, 0, domain, name, cc, j);
    }
  }

  // ---------------------------------------------------------------------
  // The compiler's working state

  /** The data bag of one compilation, filled in place member by member. */
  class DataBag {
    const domain: DomainId
    const cc: string -> string
    var fields: map<string, FieldKind>
    var initialState: State
    var listeners: map<JsValue, seq<Handler>>
    var sagas: seq<Watcher>
    var builders: map<string, Builder>

    function Contents(): Bag
      reads this
    {
      Bag(fields, initialState, listeners, sagas, builders)
    }

    constructor (domain: DomainId, cc: string -> string)
      ensures this.domain == domain && this.cc == cc && Contents() == EmptyBag
    {
      this.domain := domain;
      this.cc := cc;
      fields := map[];
      initialState := map[];
      listeners := map[];
      sagas := [];
      builders := map[];
    }

    method AddActionListener(t: JsValue, h: Handler)
      modifies this`listeners
      ensures listeners == AddListener(old(listeners), t, h)
    {
      if t !in listeners {
        listeners := listeners[t := []];
      }
      listeners := listeners[t := listeners[t] + [h]];
    }

    method InstallActionBuilder(name: string, meta: Meta) returns (b: Builder)
      modifies this`builders
      ensures b == BuilderFor(meta, domain, name, cc)
      ensures builders == old(builders)[name := b]
    {
      if meta.actionType.None? || (meta.actionType.value.Given? && !Truthy(meta.actionType.value.value)) {
        b := Killed;
      } else {
        b := ActionBuilder(ParseActionType(meta.actionType.value, domain, name, cc));
      }
      builders := builders[name := b];
    }

    method ExtractStateMember(m: Member) returns (r: Result<()>)
      requires !m.MethodMember?
      modifies this`fields, this`initialState
      ensures Outcome(r, ExtractState(old(Contents()), m), old(Contents()), Contents())
    {
      if !m.configurable {
        return Err(NonConfigurable);
      }
      match m {
        case AccessorMember(name, getter, hasSetter, _) =>
          if hasSetter {
            return Err(SetterUnsupported);
          }
          fields := fields[name := Derived(getter)];
        case DataMember(name, value, _) =>
          initialState := initialState[name := value];
          fields := fields[name := Stored];
      }
      return Ok(());
    }

    method ExtractReducerMember(name: string, meta: Meta, body: seq<Stmt>) returns (r: Result<()>)
      modifies this`listeners, this`builders
      ensures Outcome(r, ExtractReducer(old(Contents()), name, meta, body, domain, cc), old(Contents()), Contents())
    {
      if meta.listened.None? {
        return Err(NotIterable);
      }
      var keys := meta.listened.value;
      ghost var pairs := ReducerPairs(keys, domain, name, cc, Handler(name, body));
      var i := 0;
      while i < |keys|
        invariant 0 <= i <= |keys|
        invariant builders == old(builders)
        invariant AddListeners(listeners, pairs[i..]) == AddListeners(old(listeners), pairs)
      {
        assert pairs[i..][0] == pairs[i] && pairs[i..][1..] == pairs[i + 1..];
        AddActionListener(ParseActionType(keys[i], domain, name, cc), Handler(name, body));
        i := i + 1;
      }
      assert pairs[i..] == [];
      var _ := InstallActionBuilder(name, meta);
      return Ok(());
    }

    method ExtractSagaMember(name: string, meta: Meta) returns (r: Result<()>)
      modifies this
      ensures Outcome(r, ExtractSaga(old(Contents()), name, meta, domain, cc), old(Contents()), Contents())
    {
      var builder := InstallActionBuilder(name, meta);
      if meta.trackStatus {
        var running := RunningField(name);
        fields := fields[running := Stored];
        initialState := initialState[running := Bool(false)];
        if builder.Killed? {
          return Err(DefineOnNonObject);
        }
        AddActionListener(Str(TrackType(domain, name, cc)), RunningHandler(name));
      }
      if meta.listened.None? || meta.listened.value == [] {
        return Ok(());
      }
      var keys := meta.listened.value;
      var watches := [];
      var tfKeys := TakeKeys(meta.takeFunctions);
      var i := 0;
      while i < |keys|
        invariant 0 <= i <= |keys|
        invariant WatchesFrom(watches, meta.takeFunctions, tfKeys, keys, i, domain, name, cc) ==
                  WatchesFrom([], meta.takeFunctions, tfKeys, keys, 0, domain, name, cc)
      {
        var st := StrategyFor(meta.takeFunctions, tfKeys, i);
        if st.Err? {
          return Err(st.error);
        }
        watches := watches + [(st.value, ParseActionType(keys[i], domain, name, cc))];
        i := i + 1;
      }
      sagas := sagas + [Watcher(name, Tracking(meta, domain, name, cc), watches)];
      return Ok(());
    }

    /** `extractFromProvider`. */
    method ExtractFromProvider(ms: seq<Member>) returns (r: Result<()>)
      modifies this
      ensures Outcome(r, ExtractAll(old(Contents()), ms, domain, cc), old(Contents()), Contents())
    {
      var i := 0;
      while i < |ms|
        invariant 0 <= i <= |ms|
        invariant ExtractAll(Contents(), ms[i..], domain, cc) == ExtractAll(old(Contents()), ms, domain, cc)
      {
        assert ms[i..][0] == ms[i] && ms[i..][1..] == ms[i + 1..];
        var m := ms[i];
        var step: Result<()> := Ok(());
        if m.Name() !in Blacklist {
          match m {
            case MethodMember(name, tag, meta, body, value) =>
              match tag {
                case TagActionGenerator =>
                case TagReducer => step := ExtractReducerMember(name, meta, body);
                case TagSaga => step := ExtractSagaMember(name, meta);
                case TagState => step := ExtractStateMember(DataMember(name, value, true));
              }
            case _ => step := ExtractStateMember(m);
          }
        }
        if step.Err? {
          return step;
        }
        i := i + 1;
      }
      assert ms[i..] == [];
      return Ok(());
    }
  }

  /** A method's result matches its specification: it fails exactly when
      the specification does, with the same exception, and otherwise
      leaves the bag the specification gives. */
  ghost predicate Outcome(r: Result<()>, spec: Result<Bag>, before: Bag, after: Bag) {
    (r.Ok? <==> spec.Ok?) &&
    (spec.Ok? ==> after == spec.value) &&
    (spec.Err? ==> r == Err(spec.error))
  }
}
