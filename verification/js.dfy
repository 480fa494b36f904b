/** JavaScript values, exceptions and the few value-level operations of the
    language (truthiness, `typeof`, property reads) that the modelled code
    branches on. */
module Js {

  datatype Option<+T> = None | Some(value: T) {
    function GetOr(default: T): T {
      if Some? then value else default
    }
  }

  /** Every exception the modelled code raises, named by its cause.
      `IsTypeError` says which of them are `TypeError`s. */
  datatype Error =
    | TooManyArguments          // a decorator was given more than one argument
    | InvalidDomain             // @storePart({ domain }) with a domain that is not a string or symbol
    | InvalidFirstArgument      // @storePart(x) with x neither string, symbol nor object
    | DuplicateDomain           // a second slice with an already registered domain
    | MissingSubdomain          // the container state has no entry for the slice's domain
    | AccessDenied              // denyAccess: state written outside a reduction
    | NoWriteSet                // `undefined.set(...)`: write before any reduction ran
    | GetterOnly                // assignment to a derived field, which has no setter
    | CallStackExceeded         // unbounded getter recursion
    | HandlerThrew              // a handler body raised its own exception
    | NullProperty              // property read on null or undefined
    | NotIterable               // `for ... of` or spread over a value that is not iterable
    | NotAFunction              // a missing take function was called
    | DefineOnNonObject         // Object.defineProperty on undefined
    | NotSelectable             // select() on something that is not a memoised selector
    | StoreExpected             // select() without a store
    | NonConfigurable           // @storePart cannot redefine a non-configurable property
    | SetterUnsupported         // @storePart does not support setters
    | InvalidActionTypeOption   // @reducer({ actionType }) with a bad actionType
    | MissingActionType         // @reducer(fn) where fn has no action type
    | AlreadyTagged             // @reducer on a method already tagged @saga or @action
    | MissingReducerName        // installReducers: a reducer without a string name
    | ReducerNotFunction        // installReducers: a reducer that is not a function
    | DuplicateReducerName      // installReducers, as intended: two reducers sharing one name
  {
    predicate IsTypeError() {
      !(DuplicateDomain? || MissingSubdomain? || AccessDenied? || CallStackExceeded? || HandlerThrew? || DuplicateReducerName?)
    }
  }

  datatype Result<+T> = Ok(value: T) | Err(error: Error) {
    predicate IsFailure() {
      Err?
    }
    function PropagateFailure<U>(): Result<U>
      requires Err?
    {
      Err(error)
    }
    function Extract(): T
      requires Ok?
    {
      value
    }
  }

  /** A JavaScript value. Functions carry the two properties the modelled
      code reads from them: the `[Symbols.name]` tag a slice reducer is given
      (`Undefined` when absent) and `.actionType`, set on action builders. */
  datatype JsValue =
    | Undefined
    | Null
    | Bool(b: bool)
    | Num(n: int)
    | Str(s: string)
    | Sym(id: nat, description: string)
    | Arr(items: seq<JsValue>)
    | Obj(props: map<string, JsValue>)
    | Fn(id: nat, name: string, nameTag: JsValue, actionType: JsValue)

  /** `v == null` in JavaScript: true of null and undefined only. */
  predicate IsNullish(v: JsValue) {
    v.Undefined? || v.Null?
  }

  /** JavaScript's conversion to boolean. */
  predicate Truthy(v: JsValue) {
    match v
    case Undefined => false
    case Null => false
    case Bool(b) => b
    case Num(n) => n != 0
    case Str(s) => s != ""
    case _ => true
  }

  datatype TypeTag = TUndefined | TObject | TBoolean | TNumber | TString | TSymbol | TFunction

  /** The `typeof` operator; `null` and arrays are "object". */
  function TypeOf(v: JsValue): TypeTag {
    match v
    case Undefined => TUndefined
    case Null => TObject
    case Bool(_) => TBoolean
    case Num(_) => TNumber
    case Str(_) => TString
    case Sym(_, _) => TSymbol
    case Arr(_) => TObject
    case Obj(_) => TObject
    case Fn(_, _, _, _) => TFunction
  }

  /** Reading the string-keyed property `key` of `v`: it throws on null and
      undefined, and a missing property reads as undefined. */
  function Get(v: JsValue, key: string): (r: Result<JsValue>)
    ensures r.Err? <==> IsNullish(v)
    ensures v.Obj? && key in v.props ==> r == Ok(v.props[key])
    ensures v.Obj? && key !in v.props ==> r == Ok(Undefined)
  {
    match v
    case Undefined => Err(NullProperty)
    case Null => Err(NullProperty)
    case Obj(props) => Ok(if key in props then props[key] else Undefined)
    case Fn(_, name, _, actionType) =>
      Ok(if key == "name" then Str(name) else if key == "actionType" then actionType else Undefined)
    case _ => Ok(Undefined)
  }

  /** The list of values an array stands for when it is unpacked: its
      items; any other value stands for itself alone. The reducer passes a
      payload to a handler this way (`apply` for an array, `call`
      otherwise), and the patched dispatch forwards its argument so. */
  function Unpack(v: JsValue): (r: seq<JsValue>)
    ensures v.Arr? ==> r == v.items
    ensures !v.Arr? ==> r == [v]
  {
    if v.Arr? then v.items else [v]
  }
}
