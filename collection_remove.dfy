/** CollectionRemove: the chaining builder behind collection.remove(). Each
    call validates its arguments, updates the accumulated remove statement
    and then advances the set of functions that may be called next. A call
    that fails changes nothing. */
module MysqlxCollectionRemove {
  import opened ShellTypes
  import opened RemoveChaining

  const EmptySortMessage := "Sort criteria can not be empty"

  /** The accumulated ::mysqlx::RemoveStatement: the search condition, the
      sort criteria, the limit and the placeholder bindings in call order. */
  datatype RemoveStatement = RemoveStatement(
    filter: string,
    sortFields: seq<string>,
    limit: Option<uint64>,
    bindings: seq<(string, Value)>)

  /** What the statement holds in each chaining state: nothing before the
      first remove, and afterwards exactly the parts the calls so far have
      set. */
  predicate Built(last: LastCall, st: Option<RemoveStatement>)
  {
    match last
    case Start => st == None
    case After(RemoveFn) => st.Some? && st.value.sortFields == [] && st.value.limit == None && st.value.bindings == []
    case After(SortFn) => st.Some? && st.value.sortFields != [] && st.value.limit == None && st.value.bindings == []
    case After(LimitFn) => st.Some? && st.value.limit.Some? && st.value.bindings == []
    case After(_) => st.Some? && st.value.bindings != []
  }

  class CollectionRemove {
    /** Whether the owning Collection is still alive (_owner.lock()). */
    var ownerAlive: bool
    /** _remove_statement; None until the first successful remove. */
    var statement: Option<RemoveStatement>
    /** The dynamic functions currently enabled. */
    var enabled: set<Fn>
    /** The calls so far that advanced the chaining state: every successful
        remove, sort, limit and bind, except a remove made when the owner is
        gone, which succeeds without calling update_functions. execute is
        never recorded. */
    ghost var history: seq<Fn>

    ghost predicate Valid()
      reads this
    {
      Chains(Start, history) &&
      enabled == EnabledAfter(Final(Start, history)) &&
      Built(Final(Start, history), statement)
    }

    /** The constructor registers the dynamic functions and calls
        update_functions(""): only remove is enabled. */
    constructor (ownerAlive: bool)
      ensures Valid()
      ensures this.ownerAlive == ownerAlive && statement == None && history == []
      ensures enabled == {RemoveFn}
    {
      this.ownerAlive := ownerAlive;
      statement := None;
      enabled := EnabledAfter(Start);  // update_functions("")
      history := [];
      new;
      InitiallyOnlyRemove();
    }

    /** remove([searchCondition]): zero or one String argument; a missing
        condition is the empty one. With the owner gone the call does
        nothing. Otherwise a new statement replaces the old one. */
    method Remove(args: seq<Value>) returns (r: Outcome)
      requires Valid() && RemoveFn in enabled
      modifies this
      ensures Valid() && ownerAlive == old(ownerAlive)
      ensures r.Pass? <==> Admits(Between(0, 1), |args|) && (!ownerAlive || |args| == 0 || args[0].String?)
      ensures !Admits(Between(0, 1), |args|) ==> r == Fail(ArgumentCountError("remove", Between(0, 1), |args|))
      ensures Admits(Between(0, 1), |args|) && ownerAlive && |args| == 1 && !args[0].String? ==>
        r == Fail(Crud("remove", TypeConversionError(0, "String")))
      ensures r.Fail? || !ownerAlive ==> unchanged(this)
      ensures r.Pass? && ownerAlive ==>
        statement.Some? && statement == Some(RemoveStatement(statement.value.filter, [], None, [])) &&
        (|args| == 0 ==> statement.value.filter == "") &&
        (|args| == 1 ==> args[0] == String(statement.value.filter)) &&
        enabled == EnabledAfter(After(RemoveFn)) && history == old(history) + [RemoveFn]
    {
      var count := EnsureCount(args, "remove", Between(0, 1));
      if count.Fail? {
        return count;
      }
      if ownerAlive {
        var condition: Result<string> := if |args| == 0 then Ok("") else StringAt(args, 0);
        if condition.Err? {
          return Fail(Crud("remove", condition.error));
        }
        ChainExtend(Start, history, RemoveFn);
        statement := Some(RemoveStatement(condition.value, [], None, []));
        enabled := EnabledAfter(After(RemoveFn));  // update_functions
        history := history + [RemoveFn];
      }
      r := Pass;
    }

    /** sort(criteria...): at least one argument; the criteria list that
        parse_string_list extracts (`parseStringList`) must not be empty. */
    method Sort(args: seq<Value>, parseStringList: seq<Value> -> Result<seq<string>>) returns (r: Outcome)
      requires Valid() && SortFn in enabled
      modifies this
      ensures old(statement).Some?
      ensures Valid() && ownerAlive == old(ownerAlive)
      ensures r.Pass? <==> |args| >= 1 && parseStringList(args).Ok? && parseStringList(args).value != []
      ensures |args| < 1 ==> r == Fail(ArgumentCountError("sort", AtLeast(1), |args|))
      ensures |args| >= 1 && parseStringList(args).Err? ==> r == Fail(Crud("sort", parseStringList(args).error))
      ensures |args| >= 1 && parseStringList(args) == Ok([]) ==> r == Fail(Crud("sort", ArgumentError(EmptySortMessage)))
      ensures r.Fail? ==> unchanged(this)
      ensures r.Pass? ==>
        statement == Some(old(statement).value.(sortFields := parseStringList(args).value)) &&
        enabled == EnabledAfter(After(SortFn)) && history == old(history) + [SortFn]
    {
      SortOnlyAfterRemove(Final(Start, history));
      var count := EnsureCount(args, "sort", AtLeast(1));
      if count.Fail? {
        return count;
      }
      var fields := parseStringList(args);
      if fields.Err? {
        return Fail(Crud("sort", fields.error));
      }
      if fields.value == [] {
        return Fail(Crud("sort", ArgumentError(EmptySortMessage)));
      }
      ChainExtend(Start, history, SortFn);
      statement := Some(statement.value.(sortFields := fields.value));
      enabled := EnabledAfter(After(SortFn));  // update_functions
      history := history + [SortFn];
      r := Pass;
    }

    /** limit(numberOfDocs): exactly one unsigned argument, recorded as the
        statement's limit. */
    method Limit(args: seq<Value>) returns (r: Outcome)
      requires Valid() && LimitFn in enabled
      modifies this
      ensures old(statement).Some?
      ensures Valid() && ownerAlive == old(ownerAlive)
      ensures r.Pass? <==> |args| == 1 && UIntAt(args, 0).Ok?
      ensures |args| != 1 ==> r == Fail(ArgumentCountError("limit", Exactly(1), |args|))
      ensures |args| == 1 && UIntAt(args, 0).Err? ==> r == Fail(Crud("limit", UIntAt(args, 0).error))
      ensures r.Fail? ==> unchanged(this)
      ensures r.Pass? ==>
        statement == Some(old(statement).value.(limit := Some(UIntAt(args, 0).value))) &&
        enabled == EnabledAfter(After(LimitFn)) && history == old(history) + [LimitFn]
    {
      LimitOnlyAfterRemoveOrSort(Final(Start, history));
      var count := EnsureCount(args, "limit", Exactly(1));
      if count.Fail? {
        return count;
      }
      var n := UIntAt(args, 0);
      if n.Err? {
        return Fail(Crud("limit", n.error));
      }
      ChainExtend(Start, history, LimitFn);
      statement := Some(statement.value.(limit := Some(n.value)));
      enabled := EnabledAfter(After(LimitFn));  // update_functions
      history := history + [LimitFn];
      r := Pass;
    }

    /** bind(name, value): exactly two arguments, a String placeholder name
        and a value that map_document_value accepts (`documentCheck`). The
        binding is appended to the statement's bindings. */
    method Bind(args: seq<Value>, documentCheck: Value -> Outcome) returns (r: Outcome)
      requires Valid() && BindFn in enabled
      modifies this
      ensures old(statement).Some?
      ensures Valid() && ownerAlive == old(ownerAlive)
      ensures r.Pass? <==> |args| == 2 && args[0].String? && documentCheck(args[1]).Pass?
      ensures |args| != 2 ==> r == Fail(ArgumentCountError("bind", Exactly(2), |args|))
      ensures |args| == 2 && !args[0].String? ==> r == Fail(Crud("bind", TypeConversionError(0, "String")))
      ensures |args| == 2 && args[0].String? && documentCheck(args[1]).Fail? ==>
        r == Fail(Crud("bind", documentCheck(args[1]).error))
      ensures r.Fail? ==> unchanged(this)
      ensures r.Pass? ==>
        statement == Some(old(statement).value.(bindings := old(statement).value.bindings + [(args[0].s, args[1])])) &&
        enabled == EnabledAfter(After(BindFn)) && history == old(history) + [BindFn]
    {
      var count := EnsureCount(args, "bind", Exactly(2));
      if count.Fail? {
        return count;
      }
      var name := StringAt(args, 0);
      if name.Err? {
        return Fail(Crud("bind", name.error));
      }
      var converted := documentCheck(args[1]);
      if converted.Fail? {
        return Fail(Crud("bind", converted.error));
      }
      ChainExtend(Start, history, BindFn);
      var st := statement.value;
      statement := Some(st.(bindings := st.bindings + [(name.value, args[1])]));
      enabled := EnabledAfter(After(BindFn));  // update_functions
      history := history + [BindFn];
      r := Pass;
    }

    /** execute(): no arguments; hands the accumulated statement to the
        server, here returned as the request that is sent. It does not call
        update_functions, so nothing about the builder changes. */
    method Execute(args: seq<Value>) returns (r: Result<RemoveStatement>)
      requires Valid() && ExecuteFn in enabled
      ensures r.Ok? <==> |args| == 0
      ensures |args| != 0 ==> r == Err(Crud("execute", ArgumentCountError("execute", Exactly(0), |args|)))
      ensures r.Ok? ==> statement == Some(r.value)
    {
      var count := EnsureCount(args, "execute", Exactly(0));
      if count.Fail? {
        return Err(Crud("execute", count.error));
      }
      return Ok(statement.value);
    }
  }

  /** A remove chain as a script would write it:
      remove('name = :n').sort('age').limit(1).bind('n', 'x').execute(). */
  method RemoveChainExample(sortList: seq<Value> -> Result<seq<string>>, documentCheck: Value -> Outcome)
    requires sortList([String("age")]) == Ok(["age"])
    requires documentCheck(String("x")) == Pass
  {
    var builder := new CollectionRemove(true);
    var r := builder.Remove([String("name = :n")]);
    assert r == Pass;
    assert builder.statement == Some(RemoveStatement("name = :n", [], None, []));
    r := builder.Sort([String("age")], sortList);
    assert r == Pass;
    r := builder.Limit([UInteger(1)]);
    assert r == Pass;
    assert builder.statement == Some(RemoveStatement("name = :n", ["age"], Some(1), []));
    r := builder.Bind([String("n"), String("x")], documentCheck);
    assert r == Pass;
    assert [] + [("n", String("x"))] == [("n", String("x"))];
    AfterBindEnabled();
    var result := builder.Execute([]);
    assert result == Ok(RemoveStatement("name = :n", ["age"], Some(1), [("n", String("x"))]));
  }

  /** With the owner collection gone, remove succeeds as often as it is
      called and the builder stays where it was: remove remains the only
      enabled function. */
  method OrphanRemoveExample()
  {
    var builder := new CollectionRemove(false);
    var r := builder.Remove([]);
    assert r == Pass;
    r := builder.Remove([String("x = 1")]);
    assert r == Pass;
    assert builder.history == [] && builder.enabled == {RemoveFn};
  }
}
