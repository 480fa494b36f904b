/** The `@reducer` method decorator: option parsing, the already-tagged
    check, and the metadata it records (the method's own action type and
    the set of action types it listens to). */
module ReducerDecorator {
  import opened Js
  import opened PropertyMeta

  /** The options object `parseOptions` settles on. Only its `actionType`
      is read afterwards; `Undefined` when it has none. */
  datatype ReducerOptions = ReducerOptions(actionType: JsValue)

  /** What `parseOptions` lets through as `actionType`. */
  predicate AcceptedActionType(v: JsValue) {
    IsNullish(v) || v.Str? || v.Fn?
  }

  /** `parseOptions`: at most one decorator argument; null or undefined
      means no options; an object is taken as the options object and any
      other value `x` as `{ actionType: x }`; the action type must then be
      null, undefined, a string or a function. */
  function ParseOptions(options: seq<JsValue>): (r: Result<ReducerOptions>)
    ensures |options| > 1 ==> r == Err(TooManyArguments)
    ensures |options| <= 1 && (options == [] || IsNullish(options[0])) ==> r == Ok(ReducerOptions(Undefined))
    ensures |options| == 1 && TypeOf(options[0]) != TObject && !IsNullish(options[0]) ==>
              r == (if options[0].Str? || options[0].Fn? then Ok(ReducerOptions(options[0]))
                    else Err(InvalidActionTypeOption))
    ensures |options| == 1 && options[0].Obj? && "actionType" !in options[0].props ==>
              r == Ok(ReducerOptions(Undefined))
    ensures |options| == 1 && options[0].Obj? && "actionType" in options[0].props ==>
              var at := options[0].props["actionType"];
              r == (if AcceptedActionType(at) then Ok(ReducerOptions(at)) else Err(InvalidActionTypeOption))
    ensures |options| == 1 && options[0].Arr? ==> r == Ok(ReducerOptions(Undefined))
    ensures r.Ok? ==> AcceptedActionType(r.value.actionType)
    ensures r.Err? ==> r.error.IsTypeError()
  {
    if |options| > 1 then Err(TooManyArguments)
    else if |options| == 0 || IsNullish(options[0]) then Ok(ReducerOptions(Undefined))
    else
      var objArg := if TypeOf(options[0]) == TObject then options[0]
                    else Obj(map["actionType" := options[0]]);
      var actionType := Get(objArg, "actionType").value;
      if !IsNullish(actionType) && !actionType.Str? && !actionType.Fn? then Err(InvalidActionTypeOption)
      else Ok(ReducerOptions(actionType))
  }

  /** An array is never an accepted action type, so `transform`'s branch
      for an array of action types cannot be reached through the
      decorator. */
  lemma ArrayBranchUnreachable(options: seq<JsValue>)
    ensures ParseOptions(options).Ok? ==> !ParseOptions(options).value.actionType.Arr?
  {
  }

  /** `parseActionType`: a function stands for the action type of the
      action builder it is, and must have one; anything else is used as
      it is. */
  function ParseActionType(actionType: JsValue): (r: Result<JsValue>)
    ensures actionType.Fn? && Truthy(actionType.actionType) ==> r == Ok(actionType.actionType)
    ensures actionType.Fn? && !Truthy(actionType.actionType) ==> r == Err(MissingActionType)
    ensures !actionType.Fn? ==> r == Ok(actionType)
  {
    if actionType.Fn? then
      if Truthy(actionType.actionType) then Ok(actionType.actionType) else Err(MissingActionType)
    else Ok(actionType)
  }

  /** Adds the action types of `items`, in order, to the listened set;
      the first that cannot be resolved stops the loop with its error and
      leaves what was added before it. */
  function AddAll(listened: seq<ActionKey>, items: seq<JsValue>): (seq<ActionKey>, Option<Error>)
    decreases |items|
  {
    if items == [] then (listened, None)
    else match ParseActionType(items[0])
      case Err(e) => (listened, Some(e))
      case Ok(t) => AddAll(SetAdd(listened, Given(t)), items[1..])
  }

  /** The listened set `transform` leaves behind, and the error it raises
      if any. The set is created empty when the record has none. */
  function Listened(listened: Option<seq<ActionKey>>, options: ReducerOptions): (seq<ActionKey>, Option<Error>)
  {
    var base := listened.GetOr([]);
    if !Truthy(options.actionType) then (SetAdd(base, Dynamic), None)
    else if options.actionType.Arr? then AddAll(base, options.actionType.items)
    else match ParseActionType(options.actionType)
      case Err(e) => (base, Some(e))
      case Ok(t) => (SetAdd(base, Given(t)), None)
  }

  /** Adding several action types only grows the set and keeps it free of
      duplicates. */
  lemma {:induction false} AddAllGrows(listened: seq<ActionKey>, items: seq<JsValue>)
    requires NoDuplicates(listened)
    ensures listened <= AddAll(listened, items).0
    ensures NoDuplicates(AddAll(listened, items).0)
    decreases |items|
  {
    if items != [] && ParseActionType(items[0]).Ok? {
      var next := SetAdd(listened, Given(ParseActionType(items[0]).value));
      SetAddSpec(listened, Given(ParseActionType(items[0]).value));
      AddAllGrows(next, items[1..]);
    }
  }

  /** What `transform` promises about the listened set: the old set is
      kept (an existing `Set` is reused, never replaced), no element
      appears twice, an action type already present does not change it,
      and without an action type the dynamic sentinel is listened to. */
  lemma ListenedGrows(listened: Option<seq<ActionKey>>, options: ReducerOptions)
    requires listened.Some? ==> NoDuplicates(listened.value)
    ensures listened.Some? ==> listened.value <= Listened(listened, options).0
    ensures NoDuplicates(Listened(listened, options).0)
    ensures !Truthy(options.actionType) ==> Dynamic in Listened(listened, options).0
    ensures !Truthy(options.actionType) && listened.Some? && Dynamic in listened.value ==>
              Listened(listened, options).0 == listened.value
    ensures options.actionType.Str? && options.actionType.s != "" ==>
              Listened(listened, options) == (SetAdd(listened.GetOr([]), Given(options.actionType)), None)
  {
    var base := listened.GetOr([]);
    if !Truthy(options.actionType) {
      SetAddSpec(base, Dynamic);
    } else if options.actionType.Arr? {
      AddAllGrows(base, options.actionType.items);
    } else if ParseActionType(options.actionType).Ok? {
      SetAddSpec(base, Given(ParseActionType(options.actionType).value));
    }
  }

  /** The metadata record of one method, as far as `@reducer` reads and
      writes it. */
  class MethodMetadata {
    var tag: Option<Tag>
    var actionType: Option<ActionKey>
    var listened: Option<seq<ActionKey>>

    ghost predicate Valid()
      reads this
    {
      listened.Some? ==> NoDuplicates(listened.value)
    }

    constructor (tag: Option<Tag>, actionType: Option<ActionKey>, listened: Option<seq<ActionKey>>)
      requires listened.Some? ==> NoDuplicates(listened.value)
      ensures Valid()
      ensures this.tag == tag && this.actionType == actionType && this.listened == listened
    {
      this.tag := tag;
      this.actionType := actionType;
      this.listened := listened;
    }

    /** Tags the method, unless an annotation already tagged it with
        another kind; says whether it did. */
    method SetPropertyType(t: Tag) returns (ok: bool)
      modifies this`tag
      ensures ok <==> old(tag) == None || old(tag) == Some(t)
      ensures tag == if ok then Some(t) else old(tag)
    {
      ok := tag == None || tag == Some(t);
      if ok {
        tag := Some(t);
      }
    }
  }

  /** `transform`: records the dynamic sentinel as the method's action type
      when the options give none, and adds every listened action type to
      the metadata's set. */
  method Transform(md: MethodMetadata, options: ReducerOptions) returns (r: Result<()>)
    requires md.Valid()
    modifies md`listened, md`actionType
    ensures md.Valid()
    ensures md.listened == Some(Listened(old(md.listened), options).0)
    ensures r.Err? <==> Listened(old(md.listened), options).1.Some?
    ensures r.Err? ==> r.error == Listened(old(md.listened), options).1.value
    ensures md.actionType == if Truthy(options.actionType) then old(md.actionType) else Some(Dynamic)
  {
    ListenedGrows(md.listened, options);
    if md.listened.None? {
      md.listened := Some([]);
    }
    var listened := md.listened.value;
    if !Truthy(options.actionType) {
      md.actionType := Some(Dynamic);
      md.listened := Some(SetAdd(listened, Dynamic));
      return Ok(());
    } else if options.actionType.Arr? {
      var items := options.actionType.items;
      var i := 0;
      while i < |items|
        invariant 0 <= i <= |items|
        invariant md.listened.Some?
        invariant AddAll(md.listened.value, items[i..]) == AddAll(listened, items)
        invariant md.actionType == old(md.actionType)
      {
        assert items[i..][0] == items[i] && items[i..][1..] == items[i + 1..];
        var t := ParseActionType(items[i]);
        if t.Err? {
          return Err(t.error);
        }
        md.listened := Some(SetAdd(md.listened.value, Given(t.value)));
        i := i + 1;
      }
      return Ok(());
    } else {
      var t := ParseActionType(options.actionType);
      if t.Err? {
        return Err(t.error);
      }
      md.listened := Some(SetAdd(listened, Given(t.value)));
      return Ok(());
    }
  }

  /** The decorator itself: options are parsed first, then the method is
      tagged as a reducer (failing if it already carries another kind),
      then its metadata is filled in. */
  method Decorate(md: MethodMetadata, options: seq<JsValue>) returns (r: Result<()>)
    requires md.Valid()
    modifies md
    ensures md.Valid()
    ensures ParseOptions(options).Err? ==> r == Err(ParseOptions(options).error) && unchanged(md)
    ensures ParseOptions(options).Ok? && old(md.tag) != None && old(md.tag) != Some(TagReducer) ==>
              r == Err(AlreadyTagged) && unchanged(md)
    ensures ParseOptions(options).Ok? && (old(md.tag) == None || old(md.tag) == Some(TagReducer)) ==>
              md.tag == Some(TagReducer) &&
              md.listened == Some(Listened(old(md.listened), ParseOptions(options).value).0) &&
              md.actionType == (if Truthy(ParseOptions(options).value.actionType) then old(md.actionType) else Some(Dynamic)) &&
              (r.Err? <==> Listened(old(md.listened), ParseOptions(options).value).1.Some?) &&
              (r.Err? ==> r.error == Listened(old(md.listened), ParseOptions(options).value).1.value)
  {
    var parsed := ParseOptions(options);
    if parsed.Err? {
      return Err(parsed.error);
    }
    var ok := md.SetPropertyType(TagReducer);
    if !ok {
      return Err(AlreadyTagged);
    }
    r := Transform(md, parsed.value);
  }
}
