/** The shell's dynamic scripting values (shcore::Value), the object bridges
    they can point to, the argument-list helpers the X DevAPI objects use to
    validate their arguments, and the errors those helpers raise. */
module ShellTypes {

  newtype int64 = x: int | -0x8000_0000_0000_0000 <= x < 0x8000_0000_0000_0000
  newtype uint64 = x: int | 0 <= x < 0x1_0000_0000_0000_0000

  /** A double is carried as its 64 IEEE-754 bits; nothing computes on it. */
  datatype Double = Double(bits: bv64)

  /** The address of a heap object. Object identity is the address; the
      model does not tie an object's contents to its address. */
  type Address = nat

  /** The objects a Value of type Object can refer to. `Expression` is the
      class of mod_mysqlx_expression.cc (its one field is `_data`); every
      other bridge class is `OtherObject`, known by its class name only. */
  datatype ObjectBridge =
    | Expression(addr: Address, data: string)
    | OtherObject(addr: Address, name: string)

  /** Object_bridge::class_name() */
  function ClassName(o: ObjectBridge): string
  {
    match o
    case Expression(_, _) => "Expression"
    case OtherObject(_, name) => name
  }

  /** shcore::Value: one constructor per type tag of the closed tag set. */
  datatype Value =
    | Undefined
    | Null
    | Bool(b: bool)
    | String(s: string)
    | Integer(i: int64)
    | UInteger(u: uint64)
    | Float(d: Double)
    | Object(obj: ObjectBridge)
    | Array(items: seq<Value>)
    | Map(entries: map<string, Value>)
    | MapRef(target: Address)
    | Function(callee: Address)

  datatype Option<+T> = None | Some(value: T)

  /** The argument counts Argument_list::ensure_count and ensure_at_least accept. */
  datatype Arity = Exactly(n: nat) | Between(lo: nat, hi: nat) | AtLeast(least: nat)

  predicate Admits(a: Arity, count: nat)
  {
    match a
    case Exactly(n) => count == n
    case Between(lo, hi) => lo <= count <= hi
    case AtLeast(least) => least <= count
  }

  /** shcore exceptions, as far as this model distinguishes them. */
  datatype Error =
    | ArgumentError(msg: string)
      /** raised by ensure_count / ensure_at_least for the named function */
    | ArgumentCountError(counted: string, expected: Arity, got: nat)
      /** raised by Argument_list::string_at / uint_at for argument `index` */
    | TypeConversionError(index: nat, wanted: string)
      /** an error caught and rethrown by CATCH_AND_TRANSLATE_CRUD_EXCEPTION
          on behalf of the named CRUD function */
    | Crud(operation: string, cause: Error)

  datatype Result<+T> = Ok(value: T) | Err(error: Error)

  /** The result of a call that returns nothing of interest or throws. */
  datatype Outcome = Pass | Fail(error: Error)

  /** Argument_list::ensure_count / ensure_at_least */
  function EnsureCount(args: seq<Value>, context: string, expected: Arity): (r: Outcome)
    ensures r.Pass? <==> Admits(expected, |args|)
    ensures r.Fail? ==> r.error == ArgumentCountError(context, expected, |args|)
  {
    if Admits(expected, |args|) then Pass
    else Fail(ArgumentCountError(context, expected, |args|))
  }

  /** Argument_list::string_at: the argument must be a String. */
  function StringAt(args: seq<Value>, index: nat): (r: Result<string>)
    requires index < |args|
    ensures r.Ok? <==> args[index].String?
    ensures r.Ok? ==> args[index] == String(r.value)
  {
    match args[index]
    case String(s) => Ok(s)
    case _ => Err(TypeConversionError(index, "String"))
  }

  /** Argument_list::uint_at: an unsigned integer, or a signed one that is
      not negative, read as unsigned. */
  function UIntAt(args: seq<Value>, index: nat): (r: Result<uint64>)
    requires index < |args|
    ensures r.Ok? <==> args[index].UInteger? || (args[index].Integer? && args[index].i >= 0)
    ensures r.Ok? ==> args[index] == UInteger(r.value) || (args[index].Integer? && args[index].i as int == r.value as int)
  {
    match args[index]
    case UInteger(u) => Ok(u)
    case Integer(i) => if i >= 0 then Ok(i as int as uint64) else Err(TypeConversionError(index, "UInteger"))
    case _ => Err(TypeConversionError(index, "UInteger"))
  }
}
