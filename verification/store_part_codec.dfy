/** The value-level parts of the `@storePart` slice compiler: its option
    parsing, the process-wide domain registry, the projection of a slice's
    sub-state out of the container state, action-type derivation, action
    builders, and the choice of a take strategy per listened type. */
module StorePartCodec {
  import opened Js
  import opened PropertyMeta

  /** A slice's domain identifier: a string or a symbol. */
  datatype DomainId = DomainName(name: string) | DomainSymbol(id: nat, description: string)

  /** The container's whole state: one entry per installed slice reducer. */
  type AppState = map<DomainId, JsValue>

  /** A dispatched action `{ type, payload }`. */
  datatype Action = Action(actionType: JsValue, payload: JsValue)

  // ---------------------------------------------------------------------
  // Options and the domain identifier

  /** The `domain` of the options object `parseOptions` returns
      (`Undefined` when it has none). */
  datatype SliceOptions = SliceOptions(domain: JsValue)

  /** `parseOptions`: at most one argument; a falsy one means no options; a
      string or symbol is the domain; an object must carry a string or
      symbol `domain`; anything else is refused. */
  function ParseOptions(options: seq<JsValue>): (r: Result<SliceOptions>)
    ensures |options| > 1 ==> r == Err(TooManyArguments)
    ensures |options| <= 1 && (options == [] || !Truthy(options[0])) ==> r == Ok(SliceOptions(Undefined))
    ensures |options| == 1 && Truthy(options[0]) && (options[0].Str? || options[0].Sym?) ==>
              r == Ok(SliceOptions(options[0]))
    ensures |options| == 1 && Truthy(options[0]) && TypeOf(options[0]) == TObject ==>
              var d := Get(options[0], "domain").value;
              r == if d.Str? || d.Sym? then Ok(SliceOptions(d)) else Err(InvalidDomain)
    ensures |options| == 1 && Truthy(options[0]) && (options[0].Num? || options[0].Bool? || options[0].Fn?) ==>
              r == Err(InvalidFirstArgument)
    ensures r.Ok? ==> r.value.domain.Undefined? || r.value.domain.Str? || r.value.domain.Sym?
    ensures r.Err? ==> r.error.IsTypeError()
  {
    if |options| > 1 then Err(TooManyArguments)
    else if |options| == 0 || !Truthy(options[0]) then Ok(SliceOptions(Undefined))
    else match TypeOf(options[0])
      case TString => Ok(SliceOptions(options[0]))
      case TSymbol => Ok(SliceOptions(options[0]))
      case TObject =>
        var domain := Get(options[0], "domain").value;
        if !domain.Str? && !domain.Sym? then Err(InvalidDomain)
        else Ok(SliceOptions(domain))
      case _ => Err(InvalidFirstArgument)
  }

  /** `options.domain || 'RJS-' + className`. */
  function DomainIdentifier(options: SliceOptions, className: string): (d: DomainId)
    ensures options.domain.Str? && options.domain.s != "" ==> d == DomainName(options.domain.s)
    ensures options.domain.Sym? ==> d == DomainSymbol(options.domain.id, options.domain.description)
    ensures !Truthy(options.domain) ==> d == DomainName("RJS-" + className)
  {
    match options.domain
    case Str(s) => if s != "" then DomainName(s) else DomainName("RJS-" + className)
    case Sym(id, description) => DomainSymbol(id, description)
    case _ => DomainName("RJS-" + className)
  }

  /** A slice registered without a usable domain is named after its class,
      whatever falsy argument it was given. */
  lemma DefaultDomain(options: seq<JsValue>, className: string)
    requires |options| <= 1
    requires options == [] || !Truthy(options[0])
    ensures ParseOptions(options).Ok?
    ensures DomainIdentifier(ParseOptions(options).value, className) == DomainName("RJS-" + className)
  {
  }

  /** The module-level list of registered domains. */
  class DomainRegistry {
    var domains: seq<DomainId>

    ghost predicate Valid()
      reads this
    {
      NoDuplicates(domains)
    }

    constructor ()
      ensures Valid() && domains == []
    {
      domains := [];
    }

    /** Refuses a domain that is already registered, otherwise appends it.
        No domain is ever registered twice. */
    method Register(d: DomainId) returns (r: Result<()>)
      requires Valid()
      modifies this
      ensures Valid()
      ensures d in old(domains) ==> r == Err(DuplicateDomain) && domains == old(domains)
      ensures d !in old(domains) ==> r == Ok(()) && domains == old(domains) + [d]
    {
      if d in domains {
        return Err(DuplicateDomain);
      }
      domains := domains + [d];
      return Ok(());
    }
  }

  // ---------------------------------------------------------------------
  // Projections

  /** `selectDomain()`'s projection: the slice's sub-state, which must be
      present (not undefined) in the container state. */
  function SelectDomain(domain: DomainId, app: AppState): (r: Result<JsValue>)
    ensures r.Err? <==> domain !in app || app[domain] == Undefined
    ensures r.Err? ==> r.error == MissingSubdomain
    ensures r.Ok? ==> r.value == app[domain]
  {
    if domain !in app || app[domain] == Undefined then Err(MissingSubdomain)
    else Ok(app[domain])
  }

  /** A stored field's selector, `appState[domain][property]`; reading a
      property of a null sub-state throws. */
  function SelectProperty(domain: DomainId, app: AppState, property: string): (r: Result<JsValue>)
    ensures r.Ok? ==> domain in app && app[domain] != Undefined
    ensures domain in app && app[domain].Obj? ==>
              r == Ok(if property in app[domain].props then app[domain].props[property] else Undefined)
  {
    match SelectDomain(domain, app)
    case Err(e) => Err(e)
    case Ok(sub) => Get(sub, property)
  }

  // ---------------------------------------------------------------------
  // Action types and action builders

  /** The text constant-case receives for a domain: the string itself, or
      a symbol's `String()` form. */
  function DomainText(d: DomainId): string {
    match d
    case DomainName(name) => name
    case DomainSymbol(_, description) => "Symbol(" + description + ")"
  }

  /** The type string of a dynamic action type, `@@<DOMAIN>/<MEMBER>`. */
  function DynamicType(domainCase: string, propCase: string): string {
    "@@" + domainCase + "/" + propCase
  }

  /** `parseActionType`: the dynamic sentinel becomes
      `@@` + constantCase(domain) + `/` + constantCase(property); an explicit
      action type is kept as it is. `cc` stands for constant-case. */
  function ParseActionType(t: ActionKey, domain: DomainId, property: string, cc: string -> string): (r: JsValue)
    ensures t.Dynamic? ==> r == Str(DynamicType(cc(DomainText(domain)), cc(property)))
    ensures t.Given? ==> r == t.value
  {
    match t
    case Dynamic => Str(DynamicType(cc(DomainText(domain)), cc(property)))
    case Given(v) => v
  }

  /** Index of the first `/` in `s`, if any. */
  function FirstSlash(s: string): (r: Option<nat>)
    ensures r.Some? ==> r.value < |s| && s[r.value] == '/' && '/' !in s[..r.value]
    ensures r.None? ==> '/' !in s
  {
    if s == [] then None
    else if s[0] == '/' then Some(0)
    else match FirstSlash(s[1..])
      case None => None
      case Some(k) => assert s[..k + 1] == [s[0]] + s[1..][..k]; Some(k + 1)
  }

  /** Reads the two cased parts back out of a dynamic action type. */
  function SplitDynamicType(t: string): Option<(string, string)> {
    if |t| < 2 || t[..2] != "@@" then None
    else match FirstSlash(t[2..])
      case None => None
      case Some(k) => Some((t[2..][..k], t[2..][k + 1..]))
  }

  /** The first `/` of a string is the one at `n` when none comes before. */
  lemma {:induction false} FirstSlashAt(s: string, n: nat)
    requires n < |s| && s[n] == '/' && '/' !in s[..n]
    ensures FirstSlash(s) == Some(n)
  {
    if n > 0 {
      assert s[0] in s[..n];
      assert s[1..][..n - 1] == s[1..n];
      assert forall c :: c in s[1..n] ==> c in s[..n];
      FirstSlashAt(s[1..], n - 1);
    }
  }

  /** A dynamic action type determines the cased domain and member it was
      built from, as long as the cased domain has no `/` (constant-case
      output never has one). */
  lemma DynamicTypeRoundTrip(domainCase: string, propCase: string)
    requires '/' !in domainCase
    ensures SplitDynamicType(DynamicType(domainCase, propCase)) == Some((domainCase, propCase))
  {
    var t := DynamicType(domainCase, propCase);
    assert t[..2] == "@@";
    var rest := t[2..];
    assert rest == domainCase + "/" + propCase;
    assert rest[..|domainCase|] == domainCase;
    FirstSlashAt(rest, |domainCase|);
    assert rest[|domainCase| + 1..] == propCase;
  }

  /** Two slices whose cased domains differ never share a dynamic action
      type; neither do two members of one slice whose cased names differ. */
  lemma DynamicTypesDistinct(d1: string, p1: string, d2: string, p2: string)
    requires '/' !in d1 && '/' !in d2
    requires (d1, p1) != (d2, p2)
    ensures DynamicType(d1, p1) != DynamicType(d2, p2)
  {
    DynamicTypeRoundTrip(d1, p1);
    DynamicTypeRoundTrip(d2, p2);
  }

  /** The action an action builder returns: its type, and its arguments as
      the payload. */
  function CreateAction(actionType: JsValue, args: seq<JsValue>): (a: Action)
    ensures a.actionType == actionType && a.payload == Arr(args)
  {
    Action(actionType, Arr(args))
  }

  /** A handler receives exactly the arguments its action builder was
      called with. */
  lemma BuilderArgumentsRoundTrip(actionType: JsValue, args: seq<JsValue>)
    ensures Unpack(CreateAction(actionType, args).payload) == args
  {
  }

  // ---------------------------------------------------------------------
  // Take strategies

  predicate StrictlySorted(s: seq<int>) {
    forall i, j :: 0 <= i < j < |s| ==> s[i] < s[j]
  }

  /** Index of the first element of `numbers` greater than `i`. */
  function FirstAbove(numbers: seq<int>, i: int): (r: Option<nat>)
    ensures r.Some? ==> r.value < |numbers| && numbers[r.value] > i
    ensures r.Some? ==> forall k :: 0 <= k < r.value ==> numbers[k] <= i
    ensures r.None? ==> forall k :: 0 <= k < |numbers| ==> numbers[k] <= i
  {
    if numbers == [] then None
    else if numbers[0] > i then Some(0)
    else match FirstAbove(numbers[1..], i)
      case None => None
      case Some(k) => Some(k + 1)
  }

  /** `orderedClampUp`: the first of `numbers` strictly greater than `i`,
      or else the last of them (`None` for `undefined`, when there are
      none). On ascending keys that is the least key above `i`, or the
      greatest key when no key is above `i`. */
  function OrderedClampUp(numbers: seq<int>, i: int): (r: Option<int>)
    ensures r.None? <==> numbers == []
    ensures r.Some? ==> r.value in numbers
    ensures StrictlySorted(numbers) && r.Some? && r.value > i ==>
              forall x :: x in numbers && x > i ==> r.value <= x
    ensures StrictlySorted(numbers) && r.Some? && r.value <= i ==>
              r.value == numbers[|numbers| - 1] && forall x :: x in numbers ==> x <= i
  {
    match FirstAbove(numbers, i)
    case Some(k) =>
      assert StrictlySorted(numbers) ==> forall x :: x in numbers && x > i ==> numbers[k] <= x by {
        if StrictlySorted(numbers) {
          forall x | x in numbers && x > i ensures numbers[k] <= x {
            var j :| 0 <= j < |numbers| && numbers[j] == x;
          }
        }
      }
      Some(numbers[k])
    case None => if numbers == [] then None else Some(numbers[|numbers| - 1])
  }

  predicate IsMin(s: set<int>, m: int) {
    m in s && forall x :: x in s ==> m <= x
  }

  /** The least element of a non-empty set. */
  function MinOf(s: set<int>): (m: int)
    requires s != {}
    ensures IsMin(s, m)
  {
    MinExists(s);
    var m :| IsMin(s, m);
    m
  }

  lemma {:induction false} MinExists(s: set<int>)
    requires s != {}
    ensures exists m :: IsMin(s, m)
    decreases |s|
  {
    if forall e :: e !in s { assert false; }
    var y :| y in s;
    var rest := s - {y};
    if rest == {} {
      assert forall x :: x in s ==> x == y by {
        forall x | x in s ensures x == y { assert x !in rest; }
      }
      assert IsMin(s, y);
    } else {
      MinExists(rest);
      var m :| IsMin(rest, m);
      var least := if y < m then y else m;
      forall x | x in s ensures least <= x {
        if x != y { assert x in rest; }
      }
      assert IsMin(s, least);
    }
  }

  /** `Object.keys(takeFunctions).map(Number).sort((a, b) => a - b)`. */
  function SortedKeys(s: set<int>): (r: seq<int>)
    ensures StrictlySorted(r)
    ensures forall x :: x in r <==> x in s
    decreases |s|
  {
    if s == {} then []
    else
      var m := MinOf(s);
      var rest := SortedKeys(s - {m});
      assert forall x :: x in [m] + rest ==> m <= x;
      [m] + rest
  }

  /** The last element of an ascending sequence is its greatest. */
  lemma LastIsMax(keys: seq<int>)
    requires StrictlySorted(keys) && keys != []
    ensures forall x :: x in keys ==> x <= keys[|keys| - 1]
  {
    forall x | x in keys ensures x <= keys[|keys| - 1] {
      var j :| 0 <= j < |keys| && keys[j] == x;
    }
  }

  /** `orderedClampUp` over the sorted keys of a table; `None` for an
      empty table, and otherwise one of its keys. */
  function ClampKey(s: set<int>, i: int): (r: Option<int>)
    ensures r.None? <==> s == {}
    ensures r.Some? ==> r.value in s
  {
    OrderedClampUp(SortedKeys(s), i)
  }

  /** The key `ClampKey` picks is the least key above `i`, or else the
      greatest key. */
  lemma ClampKeyOrder(s: set<int>, i: int)
    requires s != {}
    ensures var k := ClampKey(s, i).value;
            (k > i ==> forall x :: x in s && x > i ==> k <= x) &&
            (k <= i ==> forall x :: x in s ==> x <= k)
  {
    var keys := SortedKeys(s);
    if OrderedClampUp(keys, i).value <= i {
      LastIsMax(keys);
    }
  }

  /** `tfKeys`: the keys of the strategy table in ascending order, or
      `null` without a table. */
  function TakeKeys(takeFunctions: Option<map<int, Strategy>>): (r: Option<seq<int>>)
    ensures r.None? <==> takeFunctions.None?
    ensures r.Some? ==> StrictlySorted(r.value) && forall x :: x in r.value <==> x in takeFunctions.value
  {
    match takeFunctions
    case None => None
    case Some(table) => Some(SortedKeys(table.Keys))
  }

  /** The take function used for the listened type with ordinal `i`:
      `takeLatest` without keys, and otherwise the table's entry under
      `orderedClampUp` of the keys. A missing entry is `undefined`, which
      fails when called. */
  function StrategyFor(takeFunctions: Option<map<int, Strategy>>, tfKeys: Option<seq<int>>, i: nat): (r: Result<Strategy>)
    ensures tfKeys.None? ==> r == Ok(TakeLatest)
    ensures tfKeys.Some? && r.Ok? ==>
              takeFunctions.Some? && OrderedClampUp(tfKeys.value, i).Some? &&
              OrderedClampUp(tfKeys.value, i).value in takeFunctions.value &&
              r.value == takeFunctions.value[OrderedClampUp(tfKeys.value, i).value]
    ensures tfKeys == Some([]) ==> r == Err(NotAFunction)
  {
    match tfKeys
    case None => Ok(TakeLatest)
    case Some(keys) =>
      match OrderedClampUp(keys, i)
      case None => Err(NotAFunction)
      case Some(k) =>
        if takeFunctions.Some? && k in takeFunctions.value then Ok(takeFunctions.value[k])
        else Err(NotAFunction)
  }

  /** Over the table's own sorted keys: `takeLatest` without a table, a
      failure for an empty table, and otherwise the entry under the
      `ClampKey` of the table's keys. */
  lemma StrategyForTable(takeFunctions: Option<map<int, Strategy>>, i: nat)
    ensures var r := StrategyFor(takeFunctions, TakeKeys(takeFunctions), i);
            (takeFunctions.None? ==> r == Ok(TakeLatest)) &&
            (takeFunctions == Some(map[]) ==> r == Err(NotAFunction)) &&
            (takeFunctions.Some? && takeFunctions.value != map[] ==>
               ClampKey(takeFunctions.value.Keys, i).Some? &&
               r == Ok(takeFunctions.value[ClampKey(takeFunctions.value.Keys, i).value]))
  {
    if takeFunctions.Some? {
      var keys := TakeKeys(takeFunctions).value;
      assert keys == SortedKeys(takeFunctions.value.Keys);
    }
  }
}
