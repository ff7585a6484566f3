/** mysqlx.expr(): the Expression object, an immutable bridge whose only
    state is the expression text it was created with. */
module MysqlxExpression {
  import opened ShellTypes

  const ExprFunctionName := "mysqlx.expr"
  const NotAStringMessage := "mysqlx.expr: Argument #1 is expected to be a string"

  /** Expression::create. `addr` is the address the allocation of the new
      object hands out. Exactly one argument is accepted, and it must be a
      String; the empty string is accepted. */
  function Create(args: seq<Value>, addr: Address): (r: Result<ObjectBridge>)
    ensures r.Ok? <==> |args| == 1 && args[0].String?
    ensures |args| != 1 ==> r == Err(ArgumentCountError(ExprFunctionName, Exactly(1), |args|))
    ensures |args| == 1 && !args[0].String? ==> r == Err(ArgumentError(NotAStringMessage))
    ensures r.Ok? ==> r.value.Expression? && r.value.addr == addr
  {
    if |args| != 1 then Err(ArgumentCountError(ExprFunctionName, Exactly(1), |args|))
    else if !args[0].String? then Err(ArgumentError(NotAStringMessage))
    else Ok(Expression(addr, args[0].s))
  }

  /** Expression::get_member. "data" yields the text; every other name is
      looked up by the base bridge, modelled by `inherited`. */
  function GetMember(e: ObjectBridge, prop: string, inherited: (Address, string) -> Value): (r: Value)
    requires e.Expression?
    ensures prop == "data" ==> r.String? && r.s == e.data
    ensures prop != "data" ==> r == inherited(e.addr, prop)
  {
    if prop == "data" then String(e.data) else inherited(e.addr, prop)
  }

  /** Expression::operator==: the other object has the same class name and
      is this very object. */
  function Equals(e: ObjectBridge, other: ObjectBridge): (r: bool)
    requires e.Expression?
    ensures r ==> ClassName(other) == ClassName(e) && other.addr == e.addr
    ensures other == e ==> r
    ensures other.Expression? ==> (r <==> other.addr == e.addr)
  {
    ClassName(e) == ClassName(other) && e.addr == other.addr
  }

  /** What mysqlx.expr(s) was given is what its "data" member gives back. */
  lemma CreateGetMemberRoundTrip(s: string, addr: Address, inherited: (Address, string) -> Value)
    ensures Create([String(s)], addr).Ok?
    ensures GetMember(Create([String(s)], addr).value, "data", inherited) == String(s)
  {
  }

  /** No member but "data" depends on the text: an Expression whose text is
      replaced answers every other member as before. */
  lemma GetMemberOtherIgnoresData(e1: ObjectBridge, e2: ObjectBridge, prop: string, inherited: (Address, string) -> Value)
    requires e1.Expression? && e2.Expression? && e1.addr == e2.addr
    requires prop != "data"
    ensures GetMember(e1, prop, inherited) == GetMember(e2, prop, inherited)
  {
  }

  /** Equality is identity: two Expressions created at different addresses
      from the same text are not equal, and each is equal to itself. */
  lemma EqualsIsIdentity(s: string, a1: Address, a2: Address)
    requires a1 != a2
    ensures var e1, e2 := Create([String(s)], a1).value, Create([String(s)], a2).value;
      Equals(e1, e1) && Equals(e2, e2) && !Equals(e1, e2) && !Equals(e2, e1)
  {
  }
}
