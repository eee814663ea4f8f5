/**
 * What the generic layout of compile (three or more cases) does when it is
 * spent: which selectors the range check lets through and which case's
 * branch each of them enters. Only the opcodes of the layout itself are
 * interpreted; a case's fragment is taken to leave the part of the stack
 * those opcodes work on as it found it.
 */
module Dispatch {
  import opened Wrappers
  import opened Scripts
  import opened Clauses
  import opened Compiler

  /** The stack the layout's own opcodes work on, top last. */
  type Stack = seq<int>

  /**
   * One straight-line element of the layout, as bitcoin's interpreter runs
   * it under the consensus rules of legacy scripts, without the MINIMALIF
   * rule (which would make OP_NOTIF fail on any value but empty or 1);
   * None where it fails the script.
   */
  function Step(it: Item, st: Stack): Option<Stack> {
    match it
    case Push(v) => if v.Num? then Some(st + [v.n]) else None
    case Nested(_) => None
    case Op(code) =>
      match code
      case Dup => if |st| >= 1 then Some(st + [st[|st| - 1]]) else None
      case Within =>
        if |st| >= 3 then
          var x, lo, hi := st[|st| - 3], st[|st| - 2], st[|st| - 1];
          Some(st[..|st| - 3] + [if lo <= x < hi then 1 else 0])
        else None
      case Verify => if |st| >= 1 && st[|st| - 1] != 0 then Some(st[..|st| - 1]) else None
      case SubOne => if |st| >= 1 then Some(st[..|st| - 1] + [st[|st| - 1] - 1]) else None
      case IfDup => if |st| >= 1 then Some(if st[|st| - 1] != 0 then st + [st[|st| - 1]] else st) else None
      case Zero => Some(st + [0])
      case Drop => if |st| >= 1 then Some(st[..|st| - 1]) else None
      case _ => None
  }

  /** A straight-line script run from left to right. */
  function Run(s: Script, st: Stack): Option<Stack>
    decreases |s|
  {
    if s == [] then Some(st)
    else
      var next :- Step(s[0], st);
      Run(s[1..], next)
  }

  /** The stack left behind, and the cases whose branch was entered, in order. */
  datatype Trace = Trace(stack: Stack, taken: seq<nat>)

  /**
   * Branches k..n-1 run on `st`: each runs CountDown, then OP_NOTIF pops the
   * top and enters the branch when it is zero; an entered branch runs its
   * fragment and then Taken, and OP_ENDIF closes it. Any non-zero value
   * skips the branch: the MINIMALIF rule is not modelled.
   */
  function RunBranches(n: nat, k: nat, st: Stack, taken: seq<nat>): Option<Trace>
    requires k <= n
    decreases n - k
  {
    if k == n then Some(Trace(st, taken))
    else
      var counted :- Run(CountDown, st);
      if counted == [] then None
      else
        var top, below := counted[|counted| - 1], counted[..|counted| - 1];
        if top == 0 then
          var after :- Run(Taken, below);
          RunBranches(n, k + 1, after, taken + [k])
        else
          RunBranches(n, k + 1, below, taken)
  }

  /** The generic layout with n branches, range check `check` and `tail`, spent with selector x. */
  function Spend(check: Script, n: nat, tail: Script, x: int): Option<Trace> {
    var checked :- Run(check, [x]);
    var branches :- RunBranches(n, 0, checked, []);
    var final :- Run(tail, branches.stack);
    Some(Trace(final, branches.taken))
  }

  /** The script succeeds: exactly one element is left, and it is true. */
  predicate Accepted(t: Option<Trace>) {
    t.Some? && |t.value.stack| == 1 && t.value.stack[0] != 0
  }

  /** Running a script that starts with `it`: `it` first, then the rest on what it left. */
  lemma RunFirst(it: Item, rest: Script, st: Stack)
    ensures Run([it] + rest, st) == if Step(it, st).None? then None else Run(rest, Step(it, st).value)
  {
    assert ([it] + rest)[1..] == rest;
  }

  /** OP_WITHIN then OP_VERIFY on x, lo, hi: x is left exactly when lo <= x < hi. */
  lemma WithinVerifyRuns(lo: int, hi: int, x: int)
    ensures Run([Op(Within), Op(Verify)], [x, x, lo, hi]).Some? <==> lo <= x < hi
    ensures Run([Op(Within), Op(Verify)], [x, x, lo, hi]).Some? ==> Run([Op(Within), Op(Verify)], [x, x, lo, hi]).value == [x]
  {
    var flag := if lo <= x < hi then 1 else 0;
    assert [Op(Within), Op(Verify)] == [Op(Within)] + [Op(Verify)];
    assert [Op(Verify)] == [Op(Verify)] + [];
    assert Step(Op(Within), [x, x, lo, hi]).value == [x, flag];
    assert Step(Op(Verify), [x, flag]).Some? ==> Step(Op(Verify), [x, flag]).value == [x];
    RunFirst(Op(Verify), [], [x, flag]);
    RunFirst(Op(Within), [Op(Verify)], [x, x, lo, hi]);
  }

  /** The range check lets x through, unchanged, exactly when lo <= x < hi. */
  lemma RangeCheckRuns(lo: int, hi: int, x: int)
    ensures Run(RangeCheck(lo, hi), [x]).Some? <==> lo <= x < hi
    ensures Run(RangeCheck(lo, hi), [x]).Some? ==> Run(RangeCheck(lo, hi), [x]).value == [x]
  {
    var rest := [Op(Within), Op(Verify)];
    assert RangeCheck(lo, hi) == [Op(Dup)] + ([Push(Num(lo))] + ([Push(Num(hi))] + rest));
    assert Step(Op(Dup), [x]).value == [x, x];
    assert Step(Push(Num(lo)), [x, x]).value == [x, x, lo];
    assert Step(Push(Num(hi)), [x, x, lo]).value == [x, x, lo, hi];
    RunFirst(Push(Num(hi)), rest, [x, x, lo]);
    RunFirst(Push(Num(lo)), [Push(Num(hi))] + rest, [x, x]);
    RunFirst(Op(Dup), [Push(Num(lo))] + ([Push(Num(hi))] + rest), [x]);
    WithinVerifyRuns(lo, hi, x);
  }

  /** CountDown on a selector c leaves c - 1, twice unless it is zero. */
  lemma CountDownRuns(c: int)
    ensures Run(CountDown, [c]).Some?
    ensures Run(CountDown, [c]).value == if c - 1 != 0 then [c - 1, c - 1] else [c - 1]
  {
    assert CountDown == [Op(SubOne)] + [Op(IfDup)];
    assert [Op(IfDup)] == [Op(IfDup)] + [];
    assert Step(Op(SubOne), [c]).value == [c - 1];
    assert Step(Op(IfDup), [c - 1]).value == if c - 1 != 0 then [c - 1, c - 1] else [c - 1];
    RunFirst(Op(IfDup), [], [c - 1]);
    RunFirst(Op(SubOne), [Op(IfDup)], [c]);
  }

  /** Taken pushes zero. */
  lemma TakenRuns(st: Stack)
    ensures Run(Taken, st).Some? && Run(Taken, st).value == st + [0]
  {
    assert Taken == [Op(Zero)] + [];
    RunFirst(Op(Zero), [], st);
  }

  /** The tail replaces whatever single value is left by 1. */
  lemma TailRuns(v: int)
    ensures Run(Tail, [v]).Some? && Run(Tail, [v]).value == [1]
  {
    assert Tail == [Op(Drop)] + [Push(Num(1))];
    assert [Push(Num(1))] == [Push(Num(1))] + [];
    assert Step(Op(Drop), [v]).value == [];
    assert Step(Push(Num(1)), []).value == [1];
    RunFirst(Push(Num(1)), [], []);
    RunFirst(Op(Drop), [Push(Num(1))], [v]);
  }

  /** One branch on the selector c: entered exactly when c is 1, leaving zero; otherwise c - 1 is left. */
  lemma BranchStep(n: nat, k: nat, c: int, taken: seq<nat>)
    requires k < n
    ensures c == 1 ==> RunBranches(n, k, [c], taken) == RunBranches(n, k + 1, [0], taken + [k])
    ensures c != 1 ==> RunBranches(n, k, [c], taken) == RunBranches(n, k + 1, [c - 1], taken)
  {
    CountDownRuns(c);
    var counted := Run(CountDown, [c]).value;
    if c == 1 {
      assert counted[..|counted| - 1] == [];
      TakenRuns([]);
      assert [] + [0] == [0];
    } else {
      assert counted[..|counted| - 1] == [c - 1];
    }
  }

  /** What CountingDown states about branches k..n-1 run on the selector c. */
  predicate CountsDown(n: nat, k: nat, c: int, taken: seq<nat>)
    requires k <= n
  {
    var r := RunBranches(n, k, [c], taken);
    && r.Some?
    && r.value.stack == [c - (n - k)]
    && r.value.taken == if 1 <= c <= n - k then taken + [k + c - 1] else taken
  }

  /** Past the last branch the selector is left as it is. */
  lemma CountsDownEnd(n: nat, c: int, taken: seq<nat>)
    ensures CountsDown(n, n, c, taken)
  {
  }

  /** The step of CountingDown: from the branches after k to the branches from k on. */
  lemma CountsDownStep(n: nat, k: nat, c: int, taken: seq<nat>)
    requires k < n
    requires c == 1 ==> CountsDown(n, k + 1, 0, taken + [k])
    requires c != 1 ==> CountsDown(n, k + 1, c - 1, taken)
    ensures CountsDown(n, k, c, taken)
  {
    BranchStep(n, k, c, taken);
  }

  /**
   * Counting a selector c down through branches k..n-1 enters exactly the
   * branch k + c - 1 when 1 <= c <= n - k, and none otherwise; either way
   * c - (n - k) is all that is left.
   */
  lemma {:induction false} CountingDown(n: nat, k: nat, c: int, taken: seq<nat>)
    requires k <= n
    ensures CountsDown(n, k, c, taken)
    decreases n - k
  {
    if k < n {
      if c == 1 {
        CountingDown(n, k + 1, 0, taken + [k]);
      } else {
        CountingDown(n, k + 1, c - 1, taken);
      }
      CountsDownStep(n, k, c, taken);
    } else {
      CountsDownEnd(n, c, taken);
    }
  }

  /**
   * The corrected layout (range check 1..n, then the tail): selector x is
   * accepted exactly when 1 <= x <= n, and it enters case x - 1's branch
   * and no other.
   */
  lemma GenericDispatch(n: nat, x: int)
    requires n >= 3
    ensures Accepted(Spend(RangeFor(Corrected, n), n, TailFor(Corrected), x)) <==> 1 <= x <= n
    ensures Spend(RangeFor(Corrected, n), n, TailFor(Corrected), x).Some? ==>
              Spend(RangeFor(Corrected, n), n, TailFor(Corrected), x).value.taken == [x - 1]
  {
    RangeCheckRuns(1, n + 1, x);
    if 1 <= x <= n {
      CountingDown(n, 0, x, []);
      TailRuns(x - n);
    }
  }

  /** The selector compile puts in case k's template enters case k, and the spend is accepted. */
  lemma EveryCaseSpendable(n: nat, k: nat)
    requires n >= 3 && k < n
    ensures Accepted(Spend(RangeFor(Corrected, n), n, TailFor(Corrected), SelectorOf(n, k)))
    ensures Spend(RangeFor(Corrected, n), n, TailFor(Corrected), SelectorOf(n, k)).value.taken == [k]
  {
    GenericDispatch(n, SelectorOf(n, k));
  }

  /**
   * As written (range check 0..n-1, no tail): selector 0 is accepted without
   * entering any branch, so no case's checks run; 1..n-1 enter cases
   * 0..n-2; case n-1's selector, n, is refused.
   */
  lemma DispatchAsWritten(n: nat, x: int)
    requires n >= 3
    ensures Accepted(Spend(RangeFor(AsWritten, n), n, TailFor(AsWritten), x)) <==> 0 <= x < n
    ensures Spend(RangeFor(AsWritten, n), n, TailFor(AsWritten), x).Some? ==>
              Spend(RangeFor(AsWritten, n), n, TailFor(AsWritten), x).value.taken == if x == 0 then [] else [x - 1]
    ensures !Accepted(Spend(RangeFor(AsWritten, n), n, TailFor(AsWritten), SelectorOf(n, n - 1)))
  {
    RangeCheckRuns(0, n, x);
    RangeCheckRuns(0, n, SelectorOf(n, n - 1));
    if 0 <= x < n {
      CountingDown(n, 0, x, []);
    }
  }

  /**
   * Even with the range check 1..n, without the tail the last case's
   * selector enters its branch but leaves zero, so the spend fails.
   */
  lemma LastCaseWithoutTail(n: nat)
    requires n >= 3
    ensures Spend(RangeCheck(1, n + 1), n, [], n).Some?
    ensures Spend(RangeCheck(1, n + 1), n, [], n).value.taken == [n - 1]
    ensures !Accepted(Spend(RangeCheck(1, n + 1), n, [], n))
  {
    RangeCheckRuns(1, n + 1, n);
    CountingDown(n, 0, n, []);
  }
}
