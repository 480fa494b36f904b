/** The slice decorator itself: parses its options, picks and registers
    the domain, compiles the class's members, and leaves behind the slice
    with its generated reducer (named after the domain) and its effect
    watchers. */
module StorePart {
  import opened Js
  import opened PropertyMeta
  import opened StorePartCodec
  import opened AccessGate
  import opened SliceRuntime
  import opened Extraction

  /** What decorating a class produces. */
  datatype Compiled = Compiled(
    slice: Slice,
    /** The generated reducer's `[Symbols.name]`: the domain itself. */
    reducerName: JsValue,
    sagas: seq<Watcher>,
    builders: map<string, Builder>)

  /** The domain as the value it was given as (or built from the class
      name). */
  function DomainValue(d: DomainId): (v: JsValue)
    ensures d.DomainName? ==> v.Str? && v.s == d.name
    ensures d.DomainSymbol? ==> v.Sym? && v.id == d.id && v.description == d.description
  {
    match d
    case DomainName(name) => Str(name)
    case DomainSymbol(id, description) => Sym(id, description)
  }

  /** The domain a decoration with these options picks, if the options
      parse. */
  function ChosenDomain(options: seq<JsValue>, className: string): Result<DomainId> {
    var opts :- ParseOptions(options);
    Ok(DomainIdentifier(opts, className))
  }

  /** The registry after a decoration: the chosen domain is appended when
      it is new, and stays registered even if compiling the members then
      fails. */
  function RegistryAfter(domains: seq<DomainId>, options: seq<JsValue>, className: string): seq<DomainId> {
    var d := ChosenDomain(options, className);
    if d.Ok? && d.value !in domains then domains + [d.value] else domains
  }

  /** What a decoration yields: the domain and everything compiled from
      the members, or the exception it stops with. */
  function DecorateSpec(domains: seq<DomainId>, options: seq<JsValue>, className: string, members: seq<Member>, cc: string -> string): (r: Result<(DomainId, Bag)>)
    ensures r.Ok? ==> ChosenDomain(options, className) == Ok(r.value.0) && r.value.0 !in domains
    ensures ChosenDomain(options, className).Ok? && ChosenDomain(options, className).value in domains ==>
              r == Err(DuplicateDomain)
  {
    var d :- ChosenDomain(options, className);
    if d in domains then Err(DuplicateDomain)
    else
      var bag :- ExtractAll(EmptyBag, members, d, cc);
      Ok((d, bag))
  }

  /** The decorator. */
  method Decorate(registry: DomainRegistry, options: seq<JsValue>, className: string, members: seq<Member>,
                  cc: string -> string, stack: nat) returns (r: Result<Compiled>)
    requires registry.Valid()
    modifies registry
    ensures registry.Valid()
    ensures registry.domains == RegistryAfter(old(registry.domains), options, className)
    ensures var spec := DecorateSpec(old(registry.domains), options, className, members, cc);
            (r.Ok? <==> spec.Ok?) &&
            (spec.Err? ==> r == Err(spec.error)) &&
            (spec.Ok? ==>
               var (d, bag) := spec.value;
               fresh(r.value.slice) &&
               r.value.slice.def == SliceDef(d, bag.fields, bag.initialState, bag.listeners) &&
               r.value.slice.stack == stack &&
               r.value.slice.Slots() == Gate(Pristine, None) && r.value.slice.Valid() &&
               r.value.reducerName == DomainValue(d) &&
               r.value.sagas == bag.sagas && r.value.builders == bag.builders)
  {
    var opts := ParseOptions(options);
    if opts.Err? {
      return Err(opts.error);
    }
    var d := DomainIdentifier(opts.value, className);
    var registered := registry.Register(d);
    if registered.Err? {
      return Err(registered.error);
    }
    var bag := new DataBag(d, cc);
    var extracted := bag.ExtractFromProvider(members);
    if extracted.Err? {
      return Err(extracted.error);
    }
    var slice := new Slice(SliceDef(d, bag.fields, bag.initialState, bag.listeners), stack);
    return Ok(Compiled(slice, DomainValue(d), bag.sagas, bag.builders));
  }

  /** The generated reducers of two slices decorated one after the other
      have different names, so the reducer map keeps both: the second
      decoration with the same domain fails before compiling anything. */
  lemma DomainsUnique(domains: seq<DomainId>, o1: seq<JsValue>, c1: string, o2: seq<JsValue>, c2: string,
                      m1: seq<Member>, m2: seq<Member>, cc: string -> string)
    requires DecorateSpec(domains, o1, c1, m1, cc).Ok?
    requires DecorateSpec(RegistryAfter(domains, o1, c1), o2, c2, m2, cc).Ok?
    ensures DomainValue(DecorateSpec(domains, o1, c1, m1, cc).value.0) !=
            DomainValue(DecorateSpec(RegistryAfter(domains, o1, c1), o2, c2, m2, cc).value.0)
  {
    var d1 := DecorateSpec(domains, o1, c1, m1, cc).value.0;
    var d2 := DecorateSpec(RegistryAfter(domains, o1, c1), o2, c2, m2, cc).value.0;
    assert d1 in RegistryAfter(domains, o1, c1);
  }

  /** Two classes decorated without a domain but with the same class name
      collide: the second one is refused. */
  lemma SameClassNameCollides(domains: seq<DomainId>, className: string, m1: seq<Member>, m2: seq<Member>, cc: string -> string)
    requires DecorateSpec(domains, [], className, m1, cc).Ok?
    ensures DecorateSpec(RegistryAfter(domains, [], className), [], className, m2, cc) == Err(DuplicateDomain)
  {
  }
}
