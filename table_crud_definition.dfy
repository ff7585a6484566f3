/** Table_crud_definition::map_table_value: the bridge from a scripting value
    to the protocol's TableValue, used for the operands of table CRUD
    operations. */
module TableCrudDefinition {
  import opened ShellTypes
  import MysqlxExpression

  /** ::mysqlx::TableValue: the wire operand. `TExpression` text is sent to
      the server as an expression, not as a quoted literal. */
  datatype TableValue =
    | TNull
    | TBool(b: bool)
    | TString(s: string)
    | TInteger(i: int64)
    | TUInteger(u: uint64)
    | TDouble(d: Double)
    | TExpression(text: string)

  const InvalidValueMessage := "Invalid value"
  const EmptyExpressionMessage := "Expressions can not be empty."
  const UnsupportedPrefix := "Unsupported value received: "

  /** The scalar type tags: the ones that have a TableValue of their own. */
  predicate IsScalar(v: Value)
  {
    v.Null? || v.Bool? || v.String? || v.Integer? || v.UInteger? || v.Float?
  }

  /** `t` carries exactly what `v` carries, with no narrowing or
      reinterpretation: the same kind and the same payload. */
  predicate Carries(v: Value, t: TableValue)
  {
    match t
    case TNull => v == Null
    case TBool(b) => v == Bool(b)
    case TString(s) => v == String(s)
    case TInteger(i) => v == Integer(i)
    case TUInteger(u) => v == UInteger(u)
    case TDouble(d) => v == Float(d)
    case TExpression(text) => v.Object? && v.obj.Expression? && v.obj.data == text
  }

  /** The scripting value a TableValue was made from; an expression comes
      back as an Expression object at `addr`. */
  function ToValue(t: TableValue, addr: Address): (v: Value)
    ensures Carries(v, t)
  {
    match t
    case TNull => Null
    case TBool(b) => Bool(b)
    case TString(s) => String(s)
    case TInteger(i) => Integer(i)
    case TUInteger(u) => UInteger(u)
    case TDouble(d) => Float(d)
    case TExpression(text) => Object(Expression(addr, text))
  }

  /** map_table_value AS WRITTEN. `descr` is shcore::Value::descr(). The
      Expression branch accepts the expression when its text is EMPTY and
      rejects it, with the message about empty expressions, when it is not. */
  function MapTableValue(source: Value, descr: Value -> string): (r: Result<TableValue>)
    ensures r.Ok? <==> IsScalar(source) || (source.Object? && source.obj.Expression? && source.obj.data == "")
    ensures r.Ok? ==> Carries(source, r.value)
    ensures r.Err? ==> r.error.ArgumentError?
  {
    match source
    case Undefined => Err(ArgumentError(InvalidValueMessage))
    case Null => Ok(TNull)
    case Bool(b) => Ok(TBool(b))
    case String(s) => Ok(TString(s))
    case Integer(i) => Ok(TInteger(i))
    case UInteger(u) => Ok(TUInteger(u))
    case Float(d) => Ok(TDouble(d))
    case Object(obj) =>
      if obj.Expression? then
        if obj.data == "" then Ok(TExpression(obj.data))
        else Err(ArgumentError(EmptyExpressionMessage))
      else Err(ArgumentError(UnsupportedPrefix + descr(source) + "."))
    case Array(_) | Map(_) | MapRef(_) | Function(_) =>
      Err(ArgumentError(UnsupportedPrefix + descr(source)))
  }

  /** map_table_value with the empty-text check the right way round: an
      Expression is accepted exactly when its text is not empty. Every other
      type tag is handled as in MapTableValue. */
  function MapTableValueIntended(source: Value, descr: Value -> string): (r: Result<TableValue>)
    ensures r.Ok? <==> IsScalar(source) || (source.Object? && source.obj.Expression? && source.obj.data != "")
    ensures r.Ok? ==> Carries(source, r.value)
    ensures r.Ok? && r.value.TExpression? ==> r.value.text != ""
    ensures source.Object? && source.obj.Expression? && source.obj.data == "" ==>
      r == Err(ArgumentError(EmptyExpressionMessage))
    ensures r.Err? ==> r.error.ArgumentError?
  {
    match source
    case Object(obj) =>
      if obj.Expression? then
        if obj.data != "" then Ok(TExpression(obj.data))
        else Err(ArgumentError(EmptyExpressionMessage))
      else MapTableValue(source, descr)
    case _ => MapTableValue(source, descr)
  }

  /** Undefined is never an operand. */
  lemma UndefinedRejected(descr: Value -> string)
    ensures MapTableValue(Undefined, descr) == Err(ArgumentError("Invalid value"))
  {
  }

  /** Null becomes the default (null) TableValue. */
  lemma NullIsDefault(descr: Value -> string)
    ensures MapTableValue(Null, descr) == Ok(TNull)
  {
  }

  /** A scalar maps to the same kind of TableValue with its payload, and
      turning that TableValue back into a scripting value gives the scalar
      itself: the mapping is lossless. */
  lemma ScalarRoundTrip(v: Value, descr: Value -> string, addr: Address)
    requires IsScalar(v)
    ensures MapTableValue(v, descr).Ok?
    ensures ToValue(MapTableValue(v, descr).value, addr) == v
  {
  }

  /** Conversely, every TableValue other than an expression is reached from
      exactly the scalar it carries. */
  lemma TableValueRoundTrip(t: TableValue, descr: Value -> string, addr: Address)
    requires !t.TExpression?
    ensures MapTableValue(ToValue(t, addr), descr) == Ok(t)
  {
  }

  /** An object that is not an Expression is refused with its description
      and a trailing period. */
  lemma OtherObjectRejected(o: ObjectBridge, descr: Value -> string)
    requires o.OtherObject?
    ensures MapTableValue(Object(o), descr) == Err(ArgumentError("Unsupported value received: " + descr(Object(o)) + "."))
  {
  }

  /** Arrays, maps, map references and functions are refused with their
      description and no trailing period. */
  lemma ContainerRejected(v: Value, descr: Value -> string)
    requires v.Array? || v.Map? || v.MapRef? || v.Function?
    ensures MapTableValue(v, descr) == Err(ArgumentError("Unsupported value received: " + descr(v)))
  {
  }

  /** As written, the only text a TExpression can ever carry is the empty
      one, and every non-empty Expression is refused with a message that
      calls it empty. */
  lemma AsWrittenOnlyEmptyExpressions(source: Value, descr: Value -> string)
    ensures MapTableValue(source, descr).Ok? && MapTableValue(source, descr).value.TExpression? ==>
      MapTableValue(source, descr).value.text == ""
    ensures source.Object? && source.obj.Expression? && source.obj.data != "" ==>
      MapTableValue(source, descr) == Err(ArgumentError("Expressions can not be empty."))
  {
  }

  /** Across the two files: mysqlx.expr(s) creates an Expression for every
      string s, and map_table_value as written accepts it exactly when s is
      empty; the corrected bridge accepts it exactly when s is not. */
  lemma ExprThroughBridge(s: string, addr: Address, descr: Value -> string)
    ensures MysqlxExpression.Create([String(s)], addr).Ok?
    ensures var e := Object(MysqlxExpression.Create([String(s)], addr).value);
      (MapTableValue(e, descr).Ok? <==> s == "") &&
      (MapTableValue(e, descr).Ok? ==> MapTableValue(e, descr).value == TExpression("")) &&
      (MapTableValueIntended(e, descr).Ok? <==> s != "") &&
      (MapTableValueIntended(e, descr).Ok? ==> MapTableValueIntended(e, descr).value == TExpression(s))
  {
  }

  /** The concrete discrepancy: mysqlx.expr("5+6") is refused by the bridge
      as written, with the message for an empty expression, while the
      corrected bridge sends it as expression text. */
  lemma AsWrittenRejectsNonEmptyExpression(addr: Address, descr: Value -> string)
    ensures MysqlxExpression.Create([String("5+6")], addr) == Ok(Expression(addr, "5+6"))
    ensures MapTableValue(Object(Expression(addr, "5+6")), descr) == Err(ArgumentError("Expressions can not be empty."))
    ensures MapTableValueIntended(Object(Expression(addr, "5+6")), descr) == Ok(TExpression("5+6"))
  {
  }

  /** The correction changes nothing outside the Expression branch. */
  lemma IntendedAgreesOutsideExpressions(source: Value, descr: Value -> string)
    requires !(source.Object? && source.obj.Expression?)
    ensures MapTableValueIntended(source, descr) == MapTableValue(source, descr)
  {
  }
}
