/** A compiled slice at run time: the class with its two mutable slots,
    whose generated reducer, field setters and derived-field selectors
    update them in place. Each method is proved to do what the matching
    function of `AccessGate` says. */
module SliceRuntime {
  import opened Js
  import opened Utils
  import opened StorePartCodec
  import opened AccessGate

  class Slice {
    const def: SliceDef
    /** Frames available to getters that read other derived fields; a
        stand-in for the engine's call-stack limit. */
    const stack: nat
    var mode: Mode
    var snapshot: Option<AppState>

    function Slots(): Gate
      reads this
    {
      Gate(mode, snapshot)
    }

    /** The write-set is a `Map`: its keys are distinct. */
    ghost predicate Valid()
      reads this
    {
      mode.Reducing? ==> DistinctKeys(mode.writes)
    }

    /** Right after compilation the state slot holds the sentinel, the
        write slot was never set, and no derived selector runs. */
    constructor (def: SliceDef, stack: nat)
      ensures this.def == def && this.stack == stack
      ensures Slots() == Gate(Pristine, None) && Valid()
    {
      this.def := def;
      this.stack := stack;
      mode := Pristine;
      snapshot := None;
    }

    /** `this.<name> = v`, from a handler or from outside. */
    method Write(name: string, v: JsValue) returns (r: Result<()>)
      requires Valid()
      modifies this`mode
      ensures Valid()
      ensures SetField(def, old(Slots()), name, v).Err? ==>
                r == Err(SetField(def, old(Slots()), name, v).error) && Slots() == old(Slots())
      ensures SetField(def, old(Slots()), name, v).Ok? ==>
                r == Ok(()) && Slots() == SetField(def, old(Slots()), name, v).value
    {
      if name !in def.fields {
        return Ok(());
      }
      if def.fields[name].Derived? {
        return Err(GetterOnly);
      }
      match mode {
        case Pristine => return Err(NoWriteSet);
        case Immutable => return Err(AccessDenied);
        case Reducing(s, w) =>
          MapSetDistinct(w, name, v);
          mode := Reducing(s, MapSet(w, name, v));
          return Ok(());
      }
    }

    /** The selector of the derived field `name`, called with a container
        state: saves the snapshot, sets it, runs the getter, and puts the
        saved one back once the getter has returned. */
    method GetterSelector(name: string, app: AppState) returns (r: Result<JsValue>)
      requires name in def.fields && def.fields[name].Derived?
      modifies this`snapshot
      ensures (r, Slots()) == GetterSelectorSpec(def, old(Slots()), def.fields[name].getter, app, stack)
    {
      var original := snapshot;
      snapshot := Some(app);
      r := Eval(def, Slots(), [], def.fields[name].getter, stack);
      if r.Err? {
        return;
      }
      snapshot := original;
    }

    /** The generated reducer. */
    method Reduce(input: Option<State>, action: Action) returns (r: Result<Next>)
      requires Valid()
      modifies this`mode
      ensures Valid()
      ensures (r, Slots()) == ReduceSpec(def, old(Slots()), input, action, stack)
    {
      var s := input.GetOr(def.initialState);
      if action.actionType !in def.listeners {
        return Ok(Same(s));
      }
      var hs := def.listeners[action.actionType];
      var args := Unpack(action.payload);
      mode := Reducing(s, []);
      ghost var start := Slots();
      RunHandlersKeepsInput(def, start, hs, args, stack);
      var i := 0;
      while i < |hs|
        invariant 0 <= i <= |hs|
        invariant Valid() && mode.Reducing? && mode.state == s && snapshot == old(snapshot)
        invariant RunHandlers(def, Slots(), hs[i..], args, stack) == RunHandlers(def, start, hs, args, stack)
      {
        assert hs[i..][0] == hs[i] && hs[i..][1..] == hs[i + 1..];
        RunBodyKeepsInput(def, Slots(), args, hs[i].body, stack);
        ghost var entry := Slots();
        var body := hs[i].body;
        var j := 0;
        while j < |body|
          invariant 0 <= j <= |body|
          invariant Valid() && mode.Reducing? && mode.state == s && snapshot == old(snapshot)
          invariant RunBody(def, Slots(), args, body[j..], stack) == RunBody(def, entry, args, body, stack)
        {
          assert body[j..][0] == body[j] && body[j..][1..] == body[j + 1..];
          match body[j] {
            case Throw =>
              return Err(HandlerThrew);
            case Assign(name, e) =>
              var v := Eval(def, Slots(), args, e, stack);
              if v.Err? {
                return Err(v.error);
              }
              var w := Write(name, v.value);
              if w.Err? {
                return Err(w.error);
              }
          }
          j := j + 1;
        }
        assert body[j..] == [];
        i := i + 1;
      }
      assert hs[i..] == [];
      var written := MapToObject(mode.writes);
      mode := Immutable;
      return Ok(Fresh(s + written));
    }
  }
}
