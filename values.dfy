/**
 * Errors raised by the runtime. The interpreter throws one structured
 * error type (a kind and a detail string) that `try`/`catch` can catch;
 * a C++ crash or undefined behaviour (null dereference, an uncaught
 * std::out_of_range, an out-of-bounds write) ends the process and is kept
 * apart as `Fatal`.
 */
module KiwiErrors {

  datatype ErrorKind =
    | IndexError
    | RangeError
    | HashKeyError
    | ParameterCountMismatchError
    | FunctionUndefinedError
    | ClassUndefinedError
    | UnimplementedMethodError
    | InvalidContextError
    | InvalidOperationError
    | VariableUndefinedError
    | IllegalNameError
    | SyntaxError
    | ConversionError
    | UnknownBuiltinError
    | UserError(typeName: string)

  /** A structured, catchable error: its kind and the text it was raised with. */
  datatype KiwiError = KiwiError(kind: ErrorKind, detail: string)

  datatype FatalReason =
    | NullDereference      // a moved-from or default-inserted unique_ptr is used
    | OutOfRangeAccess     // std::vector::at / std::string::at past the end
    | OutOfBoundsWrite     // a write or erase outside the vector
    | OutOfBoundsRead      // a read through `operator[]` outside the vector
    | MemoryExhausted      // push_back without end
    | EmptyCallStack       // top() of a call stack that has been popped empty
    | UnmodelledCase       // a library routine that is not part of this model
    | AliasedCopy          // a vector copied or inserted into from its own elements

  /** How an evaluation can fail: a catchable error, a crash, or the model's fuel bound. */
  datatype Failure =
    | Thrown(error: KiwiError)
    | Fatal(reason: FatalReason)
    | OutOfFuel

  /** The name `catch (type, message)` binds: the class name, or the type a `throw` chose. */
  function ErrorTypeName(k: ErrorKind): (name: string)
    ensures k.UserError? ==> name == k.typeName
  {
    match k
    case IndexError => "IndexError"
    case RangeError => "RangeError"
    case HashKeyError => "HashKeyError"
    case ParameterCountMismatchError => "ParameterCountMismatchError"
    case FunctionUndefinedError => "FunctionUndefinedError"
    case ClassUndefinedError => "ClassUndefinedError"
    case UnimplementedMethodError => "UnimplementedMethodError"
    case InvalidContextError => "InvalidContextError"
    case InvalidOperationError => "InvalidOperationError"
    case VariableUndefinedError => "VariableUndefinedError"
    case IllegalNameError => "IllegalNameError"
    case SyntaxError => "SyntaxError"
    case ConversionError => "ConversionError"
    case UnknownBuiltinError => "UnknownBuiltinError"
    case UserError(t) => t
  }

  function Raise(kind: ErrorKind, detail: string): (f: Failure)
    ensures f.Thrown? && f.error.kind == kind
  {
    Thrown(KiwiError(kind, detail))
  }
}

/**
 * The runtime value union and its heap containers. Scalars are values;
 * lists, hashes and objects are shared, mutable containers, so a `Value`
 * holds a reference to them and two bindings may alias one container.
 */
module Values {
  import opened KiwiErrors

  datatype Option<T> = None | Some(value: T)

  datatype Result<T> = Ok(value: T) | Err(failure: Failure) {
    predicate IsFailure() { Err? }
    function PropagateFailure<U>(): Result<U>
      requires Err?
    {
      Err(failure)
    }
    function Extract(): T
      requires Ok?
    {
      value
    }
  }

  /** The container-free part of the value union. */
  datatype Scalar = SNull | SBool(b: bool) | SInt(i: int) | SDouble(d: real) | SStr(s: string)

  datatype Value =
    | Null
    | Bool(b: bool)
    | Int(i: int)
    | Double(d: real)
    | Str(s: string)
    | ListV(list: KList)
    | HashV(hash: KHash)
    | ObjectV(obj: KObject)
    | ClassV(className: string)
    | LambdaV(lambdaId: string)

  function FromScalar(s: Scalar): (v: Value)
    ensures v.ListV? == false && v.HashV? == false && v.ObjectV? == false
  {
    match s
    case SNull => Null
    case SBool(b) => Bool(b)
    case SInt(i) => Int(i)
    case SDouble(d) => Double(d)
    case SStr(t) => Str(t)
  }

  /** What a default-constructed k_value holds. */
  const DefaultValue: Value := Int(0)

  /** A list: an ordered, mutable, 0-indexed sequence of values. */
  class KList {
    var elements: seq<Value>

    constructor (elements: seq<Value>)
      ensures this.elements == elements
    {
      this.elements := elements;
    }
  }

  /** A hash: insertion-ordered string keys and their values. */
  class KHash {
    var keys: seq<string>
    var kvp: map<string, Value>

    /** `keys` lists every key of `kvp` once, in first-insertion order. */
    ghost predicate Valid()
      reads this
    {
      (forall i, j :: 0 <= i < j < |keys| ==> keys[i] != keys[j]) &&
      (forall k :: k in kvp <==> k in keys)
    }

    constructor ()
      ensures Valid() && keys == [] && kvp == map[]
    {
      keys := [];
      kvp := map[];
    }

    predicate HasKey(key: string)
      reads this
    {
      key in kvp
    }

    function Get(key: string): Value
      reads this
      requires HasKey(key)
    {
      kvp[key]
    }

    /** Insert-or-overwrite: a new key goes to the end of the order, an old one keeps its place. */
    method Add(key: string, value: Value)
      modifies this
      ensures old(Valid()) ==> Valid()
      ensures kvp == old(kvp)[key := value]
      ensures keys == if key in old(kvp) then old(keys) else old(keys) + [key]
    {
      if key !in kvp {
        keys := keys + [key];
      }
      kvp := kvp[key := value];
    }
  }

  /** The containers a value can refer to: evaluation may update any of them. */
  ghost predicate Shared(o: object) {
    o is KList || o is KHash || o is KObject
  }

  /** An instance of a declared class. */
  class KObject {
    var identifier: string
    var className: string
    var instanceVariables: map<string, Value>

    constructor ()
      ensures identifier == "" && className == "" && instanceVariables == map[]
    {
      identifier := "";
      className := "";
      instanceVariables := map[];
    }
  }
}
