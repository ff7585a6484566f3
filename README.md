# mysql-shell X DevAPI: value bridge, Expression object and CollectionRemove chaining

This project models three pieces of the shell's X DevAPI layer in Dafny and proves properties of them.

- **The table-value bridge** (`Table_crud_definition::map_table_value`). It turns a scripting value (`shcore::Value`, one constructor per type tag) into a protocol `TableValue` (module `TableCrudDefinition`), or it throws an argument error with a fixed message. Scalars are carried over losslessly, and the lemmas prove a round trip both ways. Undefined, containers, functions and non-Expression objects are refused with the source's exact messages. The Expression branch is modelled as written: it accepts only an **empty** expression text (see Findings).
- **The Expression object** (`mysqlx.expr`, module `MysqlxExpression`). `Create` checks the arguments: there must be exactly one, and it must be a String. The empty string is accepted. `GetMember("data")` returns the text, and every other member name goes to the base bridge. `Equals` is identity: same class name and same object. Object identity is an explicit address, and the address a new object gets is a parameter of `Create`.
- **The CollectionRemove chaining builder** (modules `RemoveChaining` and `MysqlxCollectionRemove`).
  - The registrations give each dynamic function the list of calls after which it may be called. `update_functions(name)` enables exactly the functions whose list holds `name`.
  - The class `CollectionRemove` holds these fields: the owner's liveness, the accumulated remove statement (filter, sort criteria, limit, bindings), the set of enabled functions, and a ghost history of the calls that advanced the chaining state (every successful remove, sort, limit and bind, except a remove made when the owner is gone).
  - remove, sort, limit and bind validate their arguments and then update the statement and the enabled set; a failed call leaves the object unchanged. execute changes nothing.
  - Its invariant `Valid()` ties the history to the pure chain model `Chains`. The lemmas about that model are therefore about every reachable builder. A chain is a sequence of enabled calls other than the shell hook, of which remove, sort, limit and bind advance the state (a remove made with the owner gone is not one of them); execute may appear in it and leaves the state as it is. The lemmas prove that in every chain from construction remove comes first, that remove, sort and limit occur at most once, that sort comes before limit, and that only bind and execute follow a bind.

Shared types are in module `ShellTypes`:
- the scripting `Value`;
- `int64` and `uint64` newtypes for the payloads of `as_int` and `as_uint`;
- doubles carried as their 64 bits;
- the `Argument_list` helpers `ensure_count`, `string_at` and `uint_at`;
- the shell's error kinds.

The code accepts an Expression operand only when its text is empty, and refuses a non-empty one with the message "Expressions can not be empty." (modules/table_crud_definition.cc:59-62). The message names the empty case as the one to refuse, so the check is inverted. The model states the code's behaviour, and `MapTableValueIntended` is the corrected version.

## Model

| member | source | states |
|---|---|---|
| TableCrudDefinition.MapTableValue | modules/table_crud_definition.cc:26-80 | The result is a value exactly for scalars and for an Expression with empty text; any value produced carries the source's kind and payload unchanged; every failure is an argument error |
| TableCrudDefinition.ToValue | modules/table_crud_definition.cc:32-48 | Inverse of the bridge: the scripting value a TableValue carries |
| TableCrudDefinition.UndefinedRejected | modules/table_crud_definition.cc:30-31 | Undefined is refused with argument error "Invalid value" |
| TableCrudDefinition.NullIsDefault | modules/table_crud_definition.cc:32-33 | Null maps to the default (null) TableValue |
| TableCrudDefinition.ScalarRoundTrip | modules/table_crud_definition.cc:35-48 | Bool, String, Integer, UInteger and Float map to the same-kind TableValue, and mapping back gives the original value (no narrowing) |
| TableCrudDefinition.TableValueRoundTrip | modules/table_crud_definition.cc:32-48 | Every non-expression TableValue is produced from exactly the scalar it carries |
| TableCrudDefinition.OtherObjectRejected | modules/table_crud_definition.cc:64-69 | A non-Expression object is refused with "Unsupported value received: " + descr + "." |
| TableCrudDefinition.ContainerRejected | modules/table_crud_definition.cc:72-78 | Array, Map, MapRef and Function are refused with "Unsupported value received: " + descr, without a trailing period |
| TableCrudDefinition.AsWrittenOnlyEmptyExpressions | modules/table_crud_definition.cc:54-62 | As written, a TExpression result always has empty text, and every non-empty Expression is refused with "Expressions can not be empty." |
| TableCrudDefinition.ExprThroughBridge | modules/table_crud_definition.cc:56-62 | mysqlx.expr(s) succeeds for every s; the bridge as written accepts it iff s is empty (yielding TExpression("")), the corrected bridge iff s is non-empty (yielding TExpression(s)) |
| TableCrudDefinition.AsWrittenRejectsNonEmptyExpression | modules/table_crud_definition.cc:58-62 | mysqlx.expr("5+6") is refused by the bridge as written with the empty-expression message, and accepted by the corrected bridge |
| TableCrudDefinition.MapTableValueIntended | modules/table_crud_definition.cc:58-62 | Corrected bridge: accepts exactly scalars and Expressions with non-empty text, preserves kind and payload, and never yields an empty TExpression |
| TableCrudDefinition.IntendedAgreesOutsideExpressions | modules/table_crud_definition.cc:28-80 | The correction changes no outcome except for Expression objects |
| MysqlxExpression.Create | modules/mod_mysqlx_expression.cc:63-72 | Succeeds iff there is exactly one argument and it is a String; otherwise an argument-count error for "mysqlx.expr", or "mysqlx.expr: Argument #1 is expected to be a string"; the new object is an Expression at the allocated address |
| MysqlxExpression.GetMember | modules/mod_mysqlx_expression.cc:47-57 | "data" yields the Expression's text as a String; any other name yields the base bridge's answer for that object |
| MysqlxExpression.Equals | modules/mod_mysqlx_expression.cc:59-61 | Equal objects have the same address; an object equals itself; against another Expression, equal iff same address |
| MysqlxExpression.CreateGetMemberRoundTrip | modules/mod_mysqlx_expression.cc:47-72 | create([s]) succeeds for every string s, including the empty one, and its "data" member is exactly s |
| MysqlxExpression.GetMemberOtherIgnoresData | modules/mod_mysqlx_expression.cc:51-54 | For one object, every member other than "data" is independent of the text, so the text is never returned under another name |
| MysqlxExpression.EqualsIsIdentity | modules/mod_mysqlx_expression.cc:59-61 | Equality is reflexive, and two Expressions created from the same text at different addresses are unequal |
| ShellTypes.EnsureCount | modules/mod_mysqlx_collection_remove.cc:100 | The argument count passes exactly when the arity admits it; otherwise an argument-count error naming the function, the expected arity and the count received |
| ShellTypes.StringAt | modules/mod_mysqlx_collection_remove.cc:108 | Succeeds exactly for a String argument, and yields its text |
| ShellTypes.UIntAt | modules/mod_mysqlx_collection_remove.cc:223 | Succeeds exactly for an unsigned or a non-negative signed integer argument, and yields its numeric value |
| RemoveChaining.EnabledAfter | modules/mod_mysqlx_collection_remove.cc:44-53 | update_functions(name) enables a function iff name is in the predecessor list it was registered with |
| RemoveChaining.InitiallyOnlyRemove | modules/mod_mysqlx_collection_remove.cc:45-53 | After update_functions("") at construction, only remove is enabled |
| RemoveChaining.AfterRemoveEnabled | modules/mod_mysqlx_collection_remove.cc:45-50 | After remove, sort, limit, bind, execute and the shell hook are enabled, and remove is not |
| RemoveChaining.SortOnlyAfterRemove | modules/mod_mysqlx_collection_remove.cc:46 | sort is enabled iff the last call that advanced the chaining state was remove |
| RemoveChaining.LimitOnlyAfterRemoveOrSort | modules/mod_mysqlx_collection_remove.cc:47 | limit is enabled iff the last call that advanced the chaining state was remove or sort |
| RemoveChaining.AfterBindEnabled | modules/mod_mysqlx_collection_remove.cc:48-50 | After bind, exactly bind, execute and the shell hook are enabled |
| RemoveChaining.FirstCallIsRemove | modules/mod_mysqlx_collection_remove.cc:45 | Every call sequence from construction begins with remove |
| RemoveChaining.OnlyBindAndExecuteRepeat | modules/mod_mysqlx_collection_remove.cc:45-49 | In any chain from construction (a sequence of enabled calls other than the shell hook, of which remove, sort, limit and bind advance the state; a remove made with the owner gone is not one of them), remove, sort and limit each occur at most once; only bind and execute may repeat |
| RemoveChaining.SortBeforeLimit | modules/mod_mysqlx_collection_remove.cc:46-47 | When both occur, sort comes before limit |
| RemoveChaining.OnlyBindOrExecuteAfterBind | modules/mod_mysqlx_collection_remove.cc:48-49 | Once bind has been called, every later call is bind or execute |
| MysqlxCollectionRemove.CollectionRemove.constructor | modules/mod_mysqlx_collection_remove.cc:36-54 | A new builder has no statement, an empty history and only remove enabled |
| MysqlxCollectionRemove.CollectionRemove.Remove | modules/mod_mysqlx_collection_remove.cc:98-119 | 0 or 1 arguments, else an argument-count error; with the owner gone, success and no change; a non-String condition is a translated type error with no change; otherwise a fresh statement with that condition (empty if absent) and nothing else, remove's successors enabled |
| MysqlxCollectionRemove.CollectionRemove.Sort | modules/mod_mysqlx_collection_remove.cc:163-181 | At least one argument; a parse failure or an empty criteria list ("Sort criteria can not be empty") fails with no change to statement or enabled set; otherwise the criteria are recorded and sort's successors enabled |
| MysqlxCollectionRemove.CollectionRemove.Limit | modules/mod_mysqlx_collection_remove.cc:219-230 | Exactly one argument that converts to unsigned, recorded as the limit; any failure changes nothing; success enables limit's successors |
| MysqlxCollectionRemove.CollectionRemove.Bind | modules/mod_mysqlx_collection_remove.cc:270-281 | Exactly two arguments, a String name and a value the document mapping accepts; the binding is appended; failures change nothing; success enables bind's successors |
| MysqlxCollectionRemove.CollectionRemove.Execute | modules/mod_mysqlx_collection_remove.cc:321-335 | Zero arguments, else a translated argument-count error; succeeds with the accumulated statement; changes nothing, in particular not the enabled set |

## Left out

- RemoveChaining.OnlyBindAndExecuteRepeat: a remove made when the owner collection is gone succeeds without calling update_functions (modules/mod_mysqlx_collection_remove.cc:102-118). It does not advance the chaining state, is not recorded in `history`, and may repeat any number of times; the chain lemmas do not count it among the calls of a chain.
- ShellTypes.ClassName: the class name of an Expression is taken to be "Expression"; the header that declares it is not part of this model. `Equals` relies on it (modules/mod_mysqlx_expression.cc:60).
- ShellTypes.Address: the model does not enforce one object per address. Two ObjectBridge values with the same address and different contents can be written down, and `Equals` holds between them; in the program one address holds one object.

- I/O and the server. `execute` returns the statement it sends. The round trip to the server, `::mysqlx::Result` and the library's checks (for example that a bound placeholder exists) are not modelled.
- MySQL_timer timing and the REGISTER_HELP strings: timing is not behaviour, and the help strings are documentation.
- Foreign calls whose bodies are not part of this model are parameters:
  - `shcore::Value::descr()` is `descr`;
  - `parse_string_list` is `parseStringList`;
  - `map_document_value` is `documentCheck`;
  - `Cpp_object_bridge::get_member` is `inherited`, given the object's address and the member name.
- MysqlxCollectionRemove.CollectionRemove.Bind: only whether map_document_value succeeds is modelled. The binding stores the raw scripting value, not the converted document value.
- MysqlxCollectionRemove.CollectionRemove.Bind: C++ does not fix whether `string_at(0)` or `map_document_value(args[1])` is evaluated first. When both would fail, the model reports the name's error.
- The dispatch guard that refuses a disabled dynamic function lives in the base class and is not part of this model. Each method instead requires that its function is enabled.
- `__shell_hook__`: only its registration (when it is enabled) is modelled. Its body is not part of this model, so it is left out of the call sequences `Chains`.
- The exact texts of errors raised by `Argument_list` (`ensure_count`, `ensure_at_least`, `string_at`, `uint_at`) and the translation done by CATCH_AND_TRANSLATE_CRUD_EXCEPTION are not part of this model. They are structured errors here: `ArgumentCountError`, `TypeConversionError` and `Crud(operation, cause)`.
- ShellTypes.UIntAt: the body of `Argument_list::uint_at` is not part of this model; its acceptance rule (unsigned, or signed and not negative) is an assumption, and any other conversion it may perform (of a Bool or an integral Float, say) is not modelled.
- `get_function_name`, which maps a name to the scripting language's spelling. The model uses the plain names.
- Owner liveness is a boolean fixed at construction. A weak pointer that expires between calls, and a failure of the collection's own `remove`, are not modelled.
- `_remove_statement->sort` is modelled as setting the criteria. The chaining rules allow it only directly after remove, when no criteria are set, so append and replace cannot be told apart.
- Float payloads are carried as their 64 bits, and no floating-point arithmetic is done on them.
- The rest of the repository is not part of this model: resultset and cursor handling, statement-range parsing, logging, and the Python gadget tools, whose file, environment and process I/O is not modelled.

## Findings

| source | as written | input that shows it | evidently intended | confidence | as-written member | corrected member |
|---|---|---|---|---|---|---|
| modules/table_crud_definition.cc:59-62 | An Expression operand is accepted only when its text is empty. Any non-empty text is refused with "Expressions can not be empty." | `mysqlx.expr("5+6")` used as a table operand | Accept non-empty text as a TExpression and refuse empty text (the error message names the empty case) | not executed; high | TableCrudDefinition.AsWrittenRejectsNonEmptyExpression | TableCrudDefinition.MapTableValueIntended |
