/** The method-chaining rules of CollectionRemove: each dynamic function is
    registered with the list of functions after which it may be called, and
    update_functions(name) enables exactly the functions whose list holds
    `name`. */
module RemoveChaining {

  /** The dynamic functions CollectionRemove registers. */
  datatype Fn = RemoveFn | SortFn | LimitFn | BindFn | ExecuteFn | ShellHookFn

  /** The name last passed to update_functions: "" at construction, then the
      name of the last call that advanced the state. */
  datatype LastCall = Start | After(f: Fn)

  const AllFns: set<Fn> := {RemoveFn, SortFn, LimitFn, BindFn, ExecuteFn, ShellHookFn}

  /** The predecessor list of each register_dynamic_function call; the
      empty list of "remove" matches only the initial "". */
  function Registered(f: Fn): set<LastCall>
  {
    match f
    case RemoveFn => {Start}
    case SortFn => {After(RemoveFn)}
    case LimitFn => {After(RemoveFn), After(SortFn)}
    case BindFn => {After(RemoveFn), After(SortFn), After(LimitFn), After(BindFn)}
    case ExecuteFn => {After(RemoveFn), After(SortFn), After(LimitFn), After(BindFn)}
    case ShellHookFn => {After(RemoveFn), After(SortFn), After(LimitFn), After(BindFn)}
  }

  /** update_functions(last): the set of functions callable afterwards. */
  function EnabledAfter(last: LastCall): (s: set<Fn>)
    ensures forall f :: f in s <==> last in Registered(f)
  {
    assert forall f: Fn :: f.RemoveFn? || f.SortFn? || f.LimitFn? || f.BindFn? || f.ExecuteFn? || f.ShellHookFn?;
    set f | f in AllFns && last in Registered(f)
  }

  /** The calls that advance the chaining state, each with its own name;
      execute (and the shell hook) leave it as it is. */
  function Advance(last: LastCall, f: Fn): LastCall
  {
    if f in {RemoveFn, SortFn, LimitFn, BindFn} then After(f) else last
  }

  /** `t` is a sequence of calls starting from state `last`, each one
      enabled when it is made; remove, sort, limit and bind advance the
      state and execute leaves it as it is. A remove made with the owner
      gone is not one of these calls. The shell hook is left out: what it
      does is not part of this model. */
  predicate Chains(last: LastCall, t: seq<Fn>)
    decreases |t|
  {
    t == [] ||
    (t[0] != ShellHookFn && t[0] in EnabledAfter(last) && Chains(Advance(last, t[0]), t[1..]))
  }

  /** The chaining state after the calls `t`. */
  function Final(last: LastCall, t: seq<Fn>): LastCall
    decreases |t|
  {
    if t == [] then last else Final(Advance(last, t[0]), t[1..])
  }

  /** How far along the chain remove, sort, limit, bind a state is. */
  function Rank(last: LastCall): nat
  {
    match last
    case Start => 0
    case After(RemoveFn) => 1
    case After(SortFn) => 2
    case After(LimitFn) => 3
    case After(_) => 4
  }

  /** At construction only remove is callable. */
  lemma InitiallyOnlyRemove()
    ensures EnabledAfter(Start) == {RemoveFn}
  {
  }

  /** After remove: sort, limit, bind, execute (and the shell hook), but no
      second remove. */
  lemma AfterRemoveEnabled()
    ensures EnabledAfter(After(RemoveFn)) == {SortFn, LimitFn, BindFn, ExecuteFn, ShellHookFn}
  {
  }

  /** sort is callable directly after remove and at no other time. */
  lemma SortOnlyAfterRemove(last: LastCall)
    ensures SortFn in EnabledAfter(last) <==> last == After(RemoveFn)
  {
  }

  /** limit is callable directly after remove or sort and at no other time. */
  lemma LimitOnlyAfterRemoveOrSort(last: LastCall)
    ensures LimitFn in EnabledAfter(last) <==> last == After(RemoveFn) || last == After(SortFn)
  {
  }

  /** After bind only bind and execute (and the shell hook) remain. */
  lemma AfterBindEnabled()
    ensures EnabledAfter(After(BindFn)) == {BindFn, ExecuteFn, ShellHookFn}
  {
  }

  /** An enabled call never moves the chain backwards, and remove, sort and
      limit each move it strictly forwards. */
  lemma StepRank(last: LastCall, f: Fn)
    requires f in EnabledAfter(last) && f != ShellHookFn
    ensures Rank(Advance(last, f)) >= Rank(last)
    ensures f in {RemoveFn, SortFn, LimitFn} ==> Rank(last) < Rank(After(f))
  {
  }

  /** Appending an enabled call to a chain gives a chain, and the state
      it ends in is the one that call advances to. */
  lemma {:induction false} ChainExtend(last: LastCall, t: seq<Fn>, f: Fn)
    requires Chains(last, t)
    requires f != ShellHookFn && f in EnabledAfter(Final(last, t))
    ensures Chains(last, t + [f])
    ensures Final(last, t + [f]) == Advance(Final(last, t), f)
    decreases |t|
  {
    if t == [] {
      assert [f][1..] == [];
    } else {
      ChainExtend(Advance(last, t[0]), t[1..], f);
      assert (t + [f])[1..] == t[1..] + [f];
    }
  }

  /** A chain never moves backwards. */
  lemma {:induction false} ChainRank(last: LastCall, t: seq<Fn>)
    requires Chains(last, t)
    ensures Rank(Final(last, t)) >= Rank(last)
    decreases |t|
  {
    if t != [] {
      StepRank(last, t[0]);
      ChainRank(Advance(last, t[0]), t[1..]);
    }
  }

  /** A chain cut at `k` is a chain up to `k` followed by a chain from the
      state reached there. */
  lemma {:induction false} ChainSplit(last: LastCall, t: seq<Fn>, k: nat)
    requires Chains(last, t) && k <= |t|
    ensures Chains(last, t[..k])
    ensures Chains(Final(last, t[..k]), t[k..])
    ensures Final(last, t) == Final(Final(last, t[..k]), t[k..])
    decreases k
  {
    if k == 0 {
      assert t[..0] == [] && t[0..] == t;
    } else {
      ChainSplit(Advance(last, t[0]), t[1..], k - 1);
      assert t[..k][0] == t[0] && t[..k][1..] == t[1..][..k - 1];
      assert t[1..][k - 1..] == t[k..];
    }
  }

  /** Call `k` of a chain is enabled in the state reached by the calls
      before it, and the state after it is that state advanced by it. */
  lemma CallAt(last: LastCall, t: seq<Fn>, k: nat)
    requires Chains(last, t) && k < |t|
    ensures t[k] != ShellHookFn && t[k] in EnabledAfter(Final(last, t[..k]))
    ensures Final(last, t[..k + 1]) == Advance(Final(last, t[..k]), t[k])
  {
    ChainSplit(last, t, k);
    assert t[k..][0] == t[k];
    ChainExtend(last, t[..k], t[k]);
    assert t[..k] + [t[k]] == t[..k + 1];
  }

  /** States further along a chain are never of lower rank. */
  lemma RankAlong(last: LastCall, t: seq<Fn>, i: nat, j: nat)
    requires Chains(last, t) && i <= j <= |t|
    ensures Rank(Final(last, t[..i])) <= Rank(Final(last, t[..j]))
  {
    ChainSplit(last, t, j);
    ChainSplit(last, t[..j], i);
    assert t[..j][..i] == t[..i];
    ChainRank(Final(last, t[..i]), t[..j][i..]);
  }

  /** Every chain from construction begins with remove. */
  lemma FirstCallIsRemove(t: seq<Fn>)
    requires Chains(Start, t) && t != []
    ensures t[0] == RemoveFn
  {
  }

  /** Only bind and execute can occur twice in a chain: remove, sort and
      limit are each called at most once. */
  lemma OnlyBindAndExecuteRepeat(t: seq<Fn>, i: nat, j: nat)
    requires Chains(Start, t) && i < j < |t| && t[i] == t[j]
    ensures t[i] == BindFn || t[i] == ExecuteFn
  {
    CallAt(Start, t, i);
    if t[i] in {RemoveFn, SortFn, LimitFn} {
      CallAt(Start, t, j);
      StepRank(Final(Start, t[..i]), t[i]);
      StepRank(Final(Start, t[..j]), t[j]);
      RankAlong(Start, t, i + 1, j);
      assert false;
    }
  }

  /** sort, when present, comes before limit. */
  lemma SortBeforeLimit(t: seq<Fn>, i: nat, j: nat)
    requires Chains(Start, t) && i < |t| && j < |t|
    requires t[i] == SortFn && t[j] == LimitFn
    ensures i < j
  {
    if j < i {
      CallAt(Start, t, i);
      CallAt(Start, t, j);
      RankAlong(Start, t, j + 1, i);
      SortOnlyAfterRemove(Final(Start, t[..i]));
      assert false;
    }
  }

  /** Once bind has been called, only bind and execute follow. */
  lemma OnlyBindOrExecuteAfterBind(t: seq<Fn>, i: nat, j: nat)
    requires Chains(Start, t) && i < j < |t| && t[i] == BindFn
    ensures t[j] == BindFn || t[j] == ExecuteFn
  {
    CallAt(Start, t, i);
    CallAt(Start, t, j);
    RankAlong(Start, t, i + 1, j);
  }
}
