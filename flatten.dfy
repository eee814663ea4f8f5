/**
 * ProgramBuilder.flatten and compile_cnf: a normalised clause becomes a list
 * of cases, each a list of leaves that must all hold.
 */
module Flatten {
  import opened Wrappers
  import opened Clauses
  import opened Normalization

  /**
   * flatten. A leaf with a handler gives the single case `[[c]]`; an Or node
   * concatenates the case lists of its children; an And node asserts that
   * neither child is an Or node and that each child has a single case, and
   * joins the two cases into one.
   */
  function Flatten(c: Clause): (r: Result<seq<seq<Clause>>, Error>)
    ensures r.Success? ==> |r.value| >= 1
    ensures r.Success? && !c.OrClause? ==> |r.value| == 1
    ensures r.Success? ==> forall i :: 0 <= i < |r.value| ==> |r.value[i]| >= 1
    ensures r.Success? ==> forall i, j :: 0 <= i < |r.value| && 0 <= j < |r.value[i]| ==>
                             r.value[i][j].IsHandled() && r.value[i][j] in Leaves(c)
    ensures r.Failure? ==> r.error == CannotCompileArg || r.error == AssertionFailed
  {
    match c
    case AndClause(a, b) =>
      if a.OrClause? || b.OrClause? then Failure(AssertionFailed)
      else
        var l :- Flatten(a);
        var l2 :- Flatten(b);
        if |l| != 1 || |l2| != 1 then Failure(AssertionFailed)
        else Success([l[0] + l2[0]])
    case OrClause(a, b) =>
      var l :- Flatten(a);
      var l2 :- Flatten(b);
      Success(l + l2)
    case SatisfiedClause => Failure(CannotCompileArg)
    case UnsatisfiableClause => Failure(CannotCompileArg)
    case _ => Success([[c]])
  }

  /** A case holds when all of its leaves hold. */
  predicate HoldsAll(leaves: seq<Clause>, sat: Clause -> bool) {
    forall i :: 0 <= i < |leaves| ==> Holds(leaves[i], sat)
  }

  /** A list of cases holds when one of its cases holds. */
  predicate HoldsCases(cases: seq<seq<Clause>>, sat: Clause -> bool) {
    exists i :: 0 <= i < |cases| && HoldsAll(cases[i], sat)
  }

  lemma HoldsCasesConcat(l: seq<seq<Clause>>, l2: seq<seq<Clause>>, sat: Clause -> bool)
    ensures HoldsCases(l + l2, sat) == (HoldsCases(l, sat) || HoldsCases(l2, sat))
  {
    if HoldsCases(l + l2, sat) {
      var i :| 0 <= i < |l + l2| && HoldsAll((l + l2)[i], sat);
      if i < |l| {
        assert HoldsAll(l[i], sat);
      } else {
        assert HoldsAll(l2[i - |l|], sat);
      }
    }
    if HoldsCases(l, sat) {
      var i :| 0 <= i < |l| && HoldsAll(l[i], sat);
      assert HoldsAll((l + l2)[i], sat);
    }
    if HoldsCases(l2, sat) {
      var i :| 0 <= i < |l2| && HoldsAll(l2[i], sat);
      assert HoldsAll((l + l2)[|l| + i], sat);
    }
  }

  /** A leaf with a handler is its own single case. */
  lemma LeafCase(c: Clause, sat: Clause -> bool)
    requires c.IsHandled()
    ensures Flatten(c) == Success([[c]])
    ensures HoldsCases([[c]], sat) == Holds(c, sat)
  {
    assert [[c]][0] == [c];
    assert [c][0] == c;
  }

  lemma HoldsAllConcat(u: seq<Clause>, v: seq<Clause>, sat: Clause -> bool)
    ensures HoldsAll(u + v, sat) == (HoldsAll(u, sat) && HoldsAll(v, sat))
  {
    if HoldsAll(u, sat) && HoldsAll(v, sat) {
      forall i | 0 <= i < |u + v| ensures Holds((u + v)[i], sat) {
        if i >= |u| {
          assert (u + v)[i] == v[i - |u|];
        }
      }
    }
    if HoldsAll(u + v, sat) {
      forall i | 0 <= i < |v| ensures Holds(v[i], sat) {
        assert (u + v)[|u| + i] == v[i];
      }
      forall i | 0 <= i < |u| ensures Holds(u[i], sat) {
        assert (u + v)[i] == u[i];
      }
    }
  }

  /** The cases hold exactly when the clause does. */
  lemma {:induction false} FlattenPreservesMeaning(c: Clause, sat: Clause -> bool)
    requires Flatten(c).Success?
    ensures HoldsCases(Flatten(c).value, sat) == Holds(c, sat)
    decreases c
  {
    if c.AndClause? {
      var a, b := c.a, c.b;
      FlattenPreservesMeaning(a, sat);
      FlattenPreservesMeaning(b, sat);
      var l, l2 := Flatten(a).value, Flatten(b).value;
      assert HoldsCases(l, sat) == HoldsAll(l[0], sat);
      assert HoldsCases(l2, sat) == HoldsAll(l2[0], sat);
      var m := l[0] + l2[0];
      assert HoldsCases([m], sat) == HoldsAll(m, sat) by {
        assert [m][0] == m;
      }
      HoldsAllConcat(l[0], l2[0], sat);
    } else if c.OrClause? {
      FlattenPreservesMeaning(c.a, sat);
      FlattenPreservesMeaning(c.b, sat);
      HoldsCasesConcat(Flatten(c.a).value, Flatten(c.b).value, sat);
    } else {
      LeafCase(c, sat);
    }
  }

  /** The number of disjuncts of a clause: Or nodes add up, anything else is one. */
  function Disjuncts(c: Clause): nat {
    match c
    case OrClause(a, b) => Disjuncts(a) + Disjuncts(b)
    case _ => 1
  }

  /** flatten yields one case per disjunct. */
  lemma {:induction false} FlattenCaseCount(c: Clause)
    requires Flatten(c).Success?
    ensures |Flatten(c).value| == Disjuncts(c)
    decreases c
  {
    match c
    case OrClause(a, b) =>
      FlattenCaseCount(a);
      FlattenCaseCount(b);
    case _ =>
  }

  /** Every leaf has a handler in normalize, flatten and _compile. */
  predicate HandledOnly(c: Clause) {
    forall l :: l in Leaves(c) ==> l.IsHandled()
  }

  /** The leaves of a clause from left to right. */
  function InOrder(c: Clause): seq<Clause> {
    match c
    case AndClause(a, b) => InOrder(a) + InOrder(b)
    case OrClause(a, b) => InOrder(a) + InOrder(b)
    case _ => [c]
  }

  /** The disjuncts of a clause from left to right, each as the list of its leaves. */
  function Disjunction(c: Clause): seq<seq<Clause>> {
    match c
    case OrClause(a, b) => Disjunction(a) + Disjunction(b)
    case _ => [InOrder(c)]
  }

  /** Below the top, disjunctive normal form means no Or at all. */
  lemma NotOrDnf(c: Clause)
    requires !c.OrClause?
    ensures IsDnf(c) <==> NoOr(c)
  {
  }

  lemma HandledOnlySplit(c: Clause)
    requires c.AndClause? || c.OrClause?
    ensures HandledOnly(c) <==> HandledOnly(c.a) && HandledOnly(c.b)
  {
    assert Leaves(c) == Leaves(c.a) + Leaves(c.b);
  }

  /**
   * flatten succeeds exactly on clauses in disjunctive normal form whose
   * leaves all have a handler, and then returns the disjuncts in order, each
   * an And's left leaves followed by its right leaves.
   */
  lemma {:induction false} FlattenExact(c: Clause)
    ensures Flatten(c).Success? <==> IsDnf(c) && HandledOnly(c)
    ensures Flatten(c).Success? ==> Flatten(c).value == Disjunction(c)
    decreases c
  {
    match c
    case AndClause(a, b) =>
      FlattenExact(a);
      FlattenExact(b);
      HandledOnlySplit(c);
      if !a.OrClause? && !b.OrClause? {
        NotOrDnf(a);
        NotOrDnf(b);
      }
    case OrClause(a, b) =>
      FlattenExact(a);
      FlattenExact(b);
      HandledOnlySplit(c);
    case _ =>
      assert Leaves(c) == {c};
  }

  /** compile_cnf: `passes` rounds of normalize, then flatten. */
  function Cnf(c: Clause, passes: nat, v: Variant): Result<seq<seq<Clause>>, Error> {
    var d :- NormalizePasses(c, passes, v);
    Flatten(d)
  }

  /** compile_cnf's loop, run for `passes` rounds instead of the fixed 1000. */
  method CompileCnf(clause: Clause, passes: nat, v: Variant) returns (r: Result<seq<seq<Clause>>, Error>)
    ensures r == Cnf(clause, passes, v)
  {
    var current := clause;
    for i := 0 to passes
      invariant NormalizePasses(clause, passes, v) == NormalizePasses(current, passes - i, v)
    {
      var next := Normalize(current, v);
      if next.Failure? {
        return Failure(next.error);
      }
      current := next.value;
    }
    r := Flatten(current);
  }

  /**
   * The cases compile_cnf returns, as written and corrected, hold exactly
   * when the clause holds; there is at least one, and each is a list of
   * leaves with a handler taken from the clause.
   */
  lemma CnfPreservesMeaning(c: Clause, passes: nat, v: Variant, sat: Clause -> bool)
    requires Cnf(c, passes, v).Success?
    ensures HoldsCases(Cnf(c, passes, v).value, sat) == Holds(c, sat)
    ensures |Cnf(c, passes, v).value| >= 1
    ensures forall i, j :: 0 <= i < |Cnf(c, passes, v).value| && 0 <= j < |Cnf(c, passes, v).value[i]| ==>
              Cnf(c, passes, v).value[i][j].IsHandled() && Cnf(c, passes, v).value[i][j] in Leaves(c)
  {
    PassesPreserveMeaning(c, passes, v, sat);
    FlattenPreservesMeaning(NormalizePasses(c, passes, v).value, sat);
  }

  /**
   * With the corrected normalize and at least as many passes as the clause
   * weighs, compile_cnf succeeds on every clause whose leaves are all checks.
   * As written it does not (see NestedAndRejectedAsWritten).
   */
  lemma CnfComplete(c: Clause, passes: nat)
    requires ChecksOnly(c) && passes >= Weight(c)
    ensures Cnf(c, passes, Corrected).Success?
  {
    PassesTotal(c, passes, Corrected);
    PassesReachDnf(c, passes);
    var d := NormalizePasses(c, passes, Corrected).value;
    forall l | l in Leaves(d)
      ensures l.IsHandled()
    {
      assert l in Leaves(c);
    }
    FlattenExact(d);
  }

  /**
   * As written, compile_cnf fails its assertion on `(x*x) * (x*(x+x))` for
   * any number of passes, although the clause has the two cases
   * `x*x*x*x` and `x*x*x*x`.
   */
  lemma NestedAndRejectedAsWritten(x: Clause, passes: nat)
    requires x.IsCheck()
    ensures Cnf(NestedAnd(x), passes, AsWritten) == Failure(AssertionFailed)
  {
    NestedAndStuckAsWritten(x, passes);
    LeafCase(x, _ => true);
    assert [x] + [x] == [x, x];
    assert Flatten(AndClause(x, x)) == Success([[x, x]]);
    assert Flatten(AndClause(x, OrClause(x, x))) == Failure(AssertionFailed);
    assert Flatten(NestedAnd(x)) == Failure(AssertionFailed);
  }

  /** With both children of an And node normalised, two passes reach the two cases. */
  lemma NestedAndAccepted(x: Clause, passes: nat)
    requires x.IsCheck() && passes >= 2
    ensures Cnf(NestedAnd(x), passes, Corrected) == Success([[x, x, x, x], [x, x, x, x]])
  {
    var xx := AndClause(x, x);
    var q := AndClause(xx, xx);
    var v := Corrected;
    assert Normalize(xx, v) == Success(xx);
    assert Normalize(AndClause(x, OrClause(x, x)), v) == Success(OrClause(xx, xx));
    assert Normalize(NestedAnd(x), v) == Success(AndClause(xx, OrClause(xx, xx)));
    assert Normalize(AndClause(xx, OrClause(xx, xx)), v) == Success(OrClause(q, q));
    assert Normalize(q, v) == Success(q);
    assert Normalize(OrClause(q, q), v) == Success(OrClause(q, q));
    PassesFixpoint(OrClause(q, q), passes - 2, v);
    assert NormalizePasses(AndClause(xx, OrClause(xx, xx)), passes - 1, v) == Success(OrClause(q, q));
    assert NormalizePasses(NestedAnd(x), passes, v) == Success(OrClause(q, q));
    LeafCase(x, _ => true);
    assert [x] + [x] == [x, x];
    assert Flatten(xx) == Success([[x, x]]);
    assert [x, x] + [x, x] == [x, x, x, x];
    assert Flatten(q) == Success([[x, x, x, x]]);
    assert [[x, x, x, x]] + [[x, x, x, x]] == [[x, x, x, x], [x, x, x, x]];
    assert Flatten(OrClause(q, q)) == Success([[x, x, x, x], [x, x, x, x]]);
  }

  /** A clause that one pass leaves as it is stays as it is. */
  lemma {:induction false} PassesFixpoint(c: Clause, passes: nat, v: Variant)
    requires Normalize(c, v) == Success(c)
    ensures NormalizePasses(c, passes, v) == Success(c)
    decreases passes
  {
    if passes > 0 {
      PassesFixpoint(c, passes - 1, v);
    }
  }
}
