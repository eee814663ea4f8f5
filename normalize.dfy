/**
 * ProgramBuilder.normalize: a rewriting pass that uses the distributive law
 * to move Or nodes above And nodes, so that repeated passes reach a
 * disjunction of conjunctions.
 */
module Normalization {
  import opened Wrappers
  import opened Clauses

  /**
   * One pass of normalize. Leaves with a handler come back unchanged; an Or
   * node keeps its shape and both children are normalised; Satisfied and
   * Unsatisfiable have no handler. `v` chooses the And-of-Ands step as the
   * source writes it or corrected (see NormalizeAnd).
   */
  function Normalize(c: Clause, v: Variant): (r: Result<Clause, Error>)
    ensures c.IsHandled() ==> r == Success(c)
    ensures c.SatisfiedClause? || c.UnsatisfiableClause? ==> r == Failure(CannotCompileArg)
    ensures r.Success? ==> Leaves(r.value) <= Leaves(c)
    ensures r.Failure? ==> r.error == CannotCompileArg || r.error == TypeError
    decreases c, 1
  {
    match c
    case AndClause(_, _) => NormalizeAnd(c, v)
    case OrClause(a, b) =>
      var a' :- Normalize(a, v);
      var b' :- Normalize(b, v);
      Success(OrClause(a', b'))
    case SatisfiedClause => Failure(CannotCompileArg)
    case UnsatisfiableClause => Failure(CannotCompileArg)
    case _ => Success(c)
  }

  /** (a0 + a1) * (b0 + b1) spelt out as the sum of its four products, in the order the source builds them. */
  function FourProducts(a0: Clause, a1: Clause, b0: Clause, b1: Clause): Clause {
    OrClause(OrClause(OrClause(AndClause(a0, b0), AndClause(a0, b1)), AndClause(a1, b0)), AndClause(a1, b1))
  }

  lemma FourProductsLeaves(a0: Clause, a1: Clause, b0: Clause, b1: Clause)
    ensures Leaves(FourProducts(a0, a1, b0, b1)) <= Leaves(AndClause(OrClause(a0, a1), OrClause(b0, b1)))
  {
    var x0, x1, y0, y1 := Leaves(a0), Leaves(a1), Leaves(b0), Leaves(b1);
    var p, q, s, t := AndClause(a0, b0), AndClause(a0, b1), AndClause(a1, b0), AndClause(a1, b1);
    assert Leaves(p) == x0 + y0 && Leaves(q) == x0 + y1 && Leaves(s) == x1 + y0 && Leaves(t) == x1 + y1;
    var pq := OrClause(p, q);
    var pqs := OrClause(pq, s);
    assert Leaves(pq) == Leaves(p) + Leaves(q);
    assert Leaves(pqs) == Leaves(pq) + Leaves(s);
    assert Leaves(OrClause(pqs, t)) == Leaves(pqs) + Leaves(t);
    assert FourProducts(a0, a1, b0, b1) == OrClause(pqs, t);
    assert Leaves(AndClause(OrClause(a0, a1), OrClause(b0, b1))) == (x0 + x1) + (y0 + y1);
    ProductsWithin(x0, x1, y0, y1);
  }

  lemma ProductsWithin<T>(x0: set<T>, x1: set<T>, y0: set<T>, y1: set<T>)
    ensures (x0 + y0) + (x0 + y1) + (x1 + y0) + (x1 + y1) <= (x0 + x1) + (y0 + y1)
  {
  }

  /**
   * normalize_and: one distributivity or commutativity step at an And node.
   * The products are built with `*`, which fails when its left operand is a
   * Variable. When both children are And nodes, the source normalises only
   * the left one; the corrected pass normalises both.
   */
  function NormalizeAnd(c: Clause, v: Variant): (r: Result<Clause, Error>)
    requires c.AndClause?
    ensures r.Success? ==> Leaves(r.value) <= Leaves(c)
    ensures r.Failure? ==> r.error == CannotCompileArg || r.error == TypeError
    decreases c, 0
  {
    var a, b := c.a, c.b;
    if a.OrClause? && b.OrClause? then
      // a0*b0 + a0*b1 + a1*b0 + a1*b1: the products fail exactly when a0 or a1 is a Variable
      if a.a.Var? || a.b.Var? then Failure(TypeError)
      else
        FourProductsLeaves(a.a, a.b, b.a, b.b);
        Success(FourProducts(a.a, a.b, b.a, b.b))
    else if b.AndClause? && a.OrClause? then
      Success(OrClause(AndClause(b, a.a), AndClause(b, a.b)))
    else if a.AndClause? && b.OrClause? then
      Success(OrClause(AndClause(a, b.a), AndClause(a, b.b)))
    else if a.AndClause? then
      var a' :- Normalize(a, v);
      if b.AndClause? && v == Corrected then
        var b' :- Normalize(b, v);
        Success(AndClause(a', b'))
      else
        Success(AndClause(a', b))
    else if a.OrClause? then
      var p :- Times(a.a, b);
      var q :- Times(a.b, b);
      Success(OrClause(p, q))
    else if b.AndClause? then
      var b' :- Normalize(b, v);
      Success(AndClause(b', a))
    else if b.OrClause? then
      var p :- Times(b.a, a);
      var q :- Times(b.b, a);
      Success(OrClause(p, q))
    else
      Success(c)
  }

  /** `passes` rounds of normalize, stopping at the first error (compile_cnf's loop). */
  function NormalizePasses(c: Clause, passes: nat, v: Variant): (r: Result<Clause, Error>)
    ensures r.Success? ==> Leaves(r.value) <= Leaves(c)
    decreases passes
  {
    if passes == 0 then Success(c)
    else
      var d :- Normalize(c, v);
      NormalizePasses(d, passes - 1, v)
  }

  /** Each pass keeps the boolean meaning of the clause, as written and corrected. */
  lemma {:induction false} NormalizePreservesMeaning(c: Clause, v: Variant, sat: Clause -> bool)
    requires Normalize(c, v).Success?
    ensures Holds(Normalize(c, v).value, sat) == Holds(c, sat)
    decreases c
  {
    match c
    case OrClause(a, b) =>
      NormalizePreservesMeaning(a, v, sat);
      NormalizePreservesMeaning(b, v, sat);
    case AndClause(a, b) =>
      if a.OrClause? && b.OrClause? {
        var r := Normalize(c, v).value;
        assert r == FourProducts(a.a, a.b, b.a, b.b);
        var p, q := AndClause(a.a, b.a), AndClause(a.a, b.b);
        assert Holds(OrClause(p, q), sat) == (Holds(a.a, sat) && (Holds(b.a, sat) || Holds(b.b, sat)));
        assert Holds(OrClause(OrClause(p, q), AndClause(a.b, b.a)), sat)
            == ((Holds(a.a, sat) && (Holds(b.a, sat) || Holds(b.b, sat))) || (Holds(a.b, sat) && Holds(b.a, sat)));
      } else if a.OrClause? || b.OrClause? {
      } else if a.AndClause? {
        NormalizePreservesMeaning(a, v, sat);
        if b.AndClause? && v == Corrected {
          NormalizePreservesMeaning(b, v, sat);
        }
      } else if b.AndClause? {
        NormalizePreservesMeaning(b, v, sat);
      }
    case _ =>
  }

  lemma {:induction false} PassesPreserveMeaning(c: Clause, passes: nat, v: Variant, sat: Clause -> bool)
    requires NormalizePasses(c, passes, v).Success?
    ensures Holds(NormalizePasses(c, passes, v).value, sat) == Holds(c, sat)
    decreases passes
  {
    if passes > 0 {
      NormalizePreservesMeaning(c, v, sat);
      PassesPreserveMeaning(Normalize(c, v).value, passes - 1, v, sat);
    }
  }

  lemma MulMonotone(x': int, y': int, x: int, y: int)
    requires 1 <= x' <= x && 1 <= y' <= y
    ensures x' * y' <= x * y
    ensures x' < x || y' < y ==> x' * y' < x * y
  {
    assert x' * y' <= x * y' <= x * y;
    if x' < x {
      assert x' * y' < x * y';
    } else if y' < y {
      assert x * y' < x * y;
    }
  }

  /** Distributing over an Or with children of weight x0 and x1 lowers the weight. */
  lemma DistributeWeight(x0: int, x1: int, y: int)
    requires x0 >= 2 && x1 >= 2 && y >= 2
    ensures x0 * y + x1 * y + 1 < (x0 + x1 + 1) * y
    ensures y * x0 + y * x1 + 1 < (x0 + x1 + 1) * y
    ensures x0 * y + x1 * y + 1 < y * (x0 + x1 + 1)
    ensures y * x0 + y * x1 + 1 < y * (x0 + x1 + 1)
  {
    assert (x0 + x1 + 1) * y == x0 * y + x1 * y + y;
    assert y * (x0 + x1 + 1) == y * x0 + y * x1 + y;
  }

  lemma Distribute(x: int, y0: int, y1: int)
    ensures x * (y0 + y1 + 1) == x * y0 + x * y1 + x
    ensures (y0 + y1 + 1) * x == y0 * x + y1 * x + x
  {
  }

  /** Multiplying by a sum `b0+b1` distributes over its two terms. */
  lemma ProductOverSum(a: Clause, b0: Clause, b1: Clause)
    ensures Weight(AndClause(a, OrClause(b0, b1)))
         == Weight(AndClause(a, b0)) + Weight(AndClause(a, b1)) + Weight(a)
  {
    assert Weight(OrClause(b0, b1)) == Weight(b0) + Weight(b1) + 1;
    Distribute(Weight(a), Weight(b0), Weight(b1));
  }

  /** A sum `a0+a1` multiplied by `b` distributes over its two terms. */
  lemma SumOverProduct(a0: Clause, a1: Clause, b: Clause)
    ensures Weight(AndClause(OrClause(a0, a1), b))
         == Weight(AndClause(a0, b)) + Weight(AndClause(a1, b)) + Weight(b)
  {
    assert Weight(OrClause(a0, a1)) == Weight(a0) + Weight(a1) + 1;
    Distribute(Weight(b), Weight(a0), Weight(a1));
  }

  /** The weight of a sum of four clauses, grouped to the left. */
  lemma FourSum(p: Clause, q: Clause, s: Clause, t: Clause)
    ensures Weight(OrClause(OrClause(OrClause(p, q), s), t)) == Weight(p) + Weight(q) + Weight(s) + Weight(t) + 3
  {
    assert Weight(OrClause(p, q)) == Weight(p) + Weight(q) + 1;
  }

  /** The weight of the four products is below the weight of `(a0+a1)*(b0+b1)`. */
  lemma FourProductsWeight(a0: Clause, a1: Clause, b0: Clause, b1: Clause)
    ensures
      var r1 := OrClause(AndClause(a0, b0), AndClause(a0, b1));
      var r2 := OrClause(r1, AndClause(a1, b0));
      Weight(OrClause(r2, AndClause(a1, b1))) < Weight(AndClause(OrClause(a0, a1), OrClause(b0, b1)))
  {
    var b := OrClause(b0, b1);
    SumOverProduct(a0, a1, b);
    ProductOverSum(a0, b0, b1);
    ProductOverSum(a1, b0, b1);
    FourSum(AndClause(a0, b0), AndClause(a0, b1), AndClause(a1, b0), AndClause(a1, b1));
  }

  /** The four-product rewrite `(a0+a1)*(b0+b1)` lowers the weight. */
  lemma DistributeBothProgress(c: Clause, v: Variant)
    requires c.AndClause? && c.a.OrClause? && c.b.OrClause? && Normalize(c, v).Success?
    ensures Weight(Normalize(c, v).value) < Weight(c)
  {
    var a0, a1, b0, b1 := c.a.a, c.a.b, c.b.a, c.b.b;
    var r1 := OrClause(AndClause(a0, b0), AndClause(a0, b1));
    var r2 := OrClause(r1, AndClause(a1, b0));
    assert Normalize(c, v).value == OrClause(r2, AndClause(a1, b1));
    FourProductsWeight(a0, a1, b0, b1);
  }

  /** Distributing the right child over a left Or child lowers the weight. */
  lemma DistributeLeftProgress(c: Clause, v: Variant)
    requires c.AndClause? && c.a.OrClause? && !c.b.OrClause? && Normalize(c, v).Success?
    ensures Weight(Normalize(c, v).value) < Weight(c)
  {
    var a, b := c.a, c.b;
    var r := Normalize(c, v).value;
    if b.AndClause? {
      assert r == OrClause(AndClause(b, a.a), AndClause(b, a.b));
    } else {
      assert r == OrClause(AndClause(a.a, b), AndClause(a.b, b));
    }
    assert Weight(a) == Weight(a.a) + Weight(a.b) + 1;
    DistributeWeight(Weight(a.a), Weight(a.b), Weight(b));
  }

  /** Distributing the left child over a right Or child lowers the weight. */
  lemma DistributeRightProgress(c: Clause, v: Variant)
    requires c.AndClause? && !c.a.OrClause? && c.b.OrClause? && Normalize(c, v).Success?
    ensures Weight(Normalize(c, v).value) < Weight(c)
  {
    var a, b := c.a, c.b;
    var r := Normalize(c, v).value;
    if a.AndClause? {
      assert r == OrClause(AndClause(a, b.a), AndClause(a, b.b));
    } else {
      assert r == OrClause(AndClause(b.a, a), AndClause(b.b, a));
    }
    assert Weight(b) == Weight(b.a) + Weight(b.b) + 1;
    DistributeWeight(Weight(b.a), Weight(b.b), Weight(a));
  }

  /**
   * A pass never increases the weight and keeps disjunctive normal form once
   * it is reached. The corrected pass also lowers the weight strictly on a
   * clause not yet in that form; as written it does not (see
   * NestedAndStuckAsWritten).
   */
  lemma {:induction false} NormalizeProgress(c: Clause, v: Variant)
    requires Normalize(c, v).Success?
    ensures Weight(Normalize(c, v).value) <= Weight(c)
    ensures v == Corrected && !IsDnf(c) ==> Weight(Normalize(c, v).value) < Weight(c)
    ensures NoOr(c) ==> NoOr(Normalize(c, v).value)
    ensures IsDnf(c) ==> IsDnf(Normalize(c, v).value)
    decreases c
  {
    match c
    case OrClause(a, b) =>
      NormalizeProgress(a, v);
      NormalizeProgress(b, v);
    case AndClause(a, b) =>
      if a.OrClause? && b.OrClause? {
        assert !NoOr(a);
        DistributeBothProgress(c, v);
      } else if a.OrClause? {
        assert !NoOr(a);
        DistributeLeftProgress(c, v);
      } else if b.OrClause? {
        assert !NoOr(b);
        DistributeRightProgress(c, v);
      } else if a.AndClause? {
        NormalizeProgress(a, v);
        var a' := Normalize(a, v).value;
        var both := b.AndClause? && v == Corrected;
        var b' := if both then Normalize(b, v).value else b;
        if both {
          NormalizeProgress(b, v);
        }
        assert Normalize(c, v).value == AndClause(a', b');
        MulMonotone(Weight(a'), Weight(b'), Weight(a), Weight(b));
      } else if b.AndClause? {
        NormalizeProgress(b, v);
        var b' := Normalize(b, v).value;
        assert Normalize(c, v).value == AndClause(b', a);
        MulMonotone(Weight(b'), Weight(a), Weight(b), Weight(a));
      }
    case _ =>
  }

  /** On a clause whose leaves are all checks, normalize raises nothing, as written and corrected. */
  lemma {:induction false} NormalizeTotal(c: Clause, v: Variant)
    requires ChecksOnly(c)
    ensures Normalize(c, v).Success?
    decreases c
  {
    match c
    case OrClause(a, b) =>
      assert ChecksOnly(a) && ChecksOnly(b);
      NormalizeTotal(a, v);
      NormalizeTotal(b, v);
    case AndClause(a, b) =>
      assert ChecksOnly(a) && ChecksOnly(b);
      if a.OrClause? {
        assert ChecksOnly(a.a) && ChecksOnly(a.b);
        assert a.a in Leaves(a.a) || a.a.AndClause? || a.a.OrClause?;
        assert a.b in Leaves(a.b) || a.b.AndClause? || a.b.OrClause?;
      }
      if b.OrClause? {
        assert ChecksOnly(b.a) && ChecksOnly(b.b);
        assert b.a in Leaves(b.a) || b.a.AndClause? || b.a.OrClause?;
        assert b.b in Leaves(b.b) || b.b.AndClause? || b.b.OrClause?;
      }
      if a.AndClause? {
        NormalizeTotal(a, v);
      }
      if b.AndClause? {
        NormalizeTotal(b, v);
      }
    case _ =>
      assert c in Leaves(c);
  }

  lemma {:induction false} PassesTotal(c: Clause, passes: nat, v: Variant)
    requires ChecksOnly(c)
    ensures NormalizePasses(c, passes, v).Success?
    decreases passes
  {
    if passes > 0 {
      NormalizeTotal(c, v);
      var d := Normalize(c, v).value;
      forall l | l in Leaves(d)
        ensures l.IsCheck()
      {
        assert l in Leaves(c);
      }
      PassesTotal(d, passes - 1, v);
    }
  }

  lemma {:induction false} PassesKeepDnf(c: Clause, passes: nat, v: Variant)
    requires IsDnf(c) && NormalizePasses(c, passes, v).Success?
    ensures IsDnf(NormalizePasses(c, passes, v).value)
    decreases passes
  {
    if passes > 0 {
      NormalizeProgress(c, v);
      PassesKeepDnf(Normalize(c, v).value, passes - 1, v);
    }
  }

  /**
   * With the corrected pass, as many passes as the clause weighs are enough
   * to reach disjunctive normal form: each pass before that lowers the weight
   * by at least one. As written this fails (see NestedAndStuckAsWritten).
   */
  lemma {:induction false} PassesReachDnf(c: Clause, passes: nat)
    requires passes >= Weight(c) && NormalizePasses(c, passes, Corrected).Success?
    ensures IsDnf(NormalizePasses(c, passes, Corrected).value)
    decreases passes
  {
    if IsDnf(c) {
      PassesKeepDnf(c, passes, Corrected);
    } else {
      NormalizeProgress(c, Corrected);
      PassesReachDnf(Normalize(c, Corrected).value, passes - 1);
    }
  }

  /** `(x*x) * (x*(x+x))`: an And of two And nodes with an Or inside the right one. */
  function NestedAnd(x: Clause): Clause {
    AndClause(AndClause(x, x), AndClause(x, OrClause(x, x)))
  }

  /** As written, no number of passes moves the Or out of the right-hand And node. */
  lemma {:induction false} NestedAndStuckAsWritten(x: Clause, passes: nat)
    requires x.IsCheck()
    ensures NormalizePasses(NestedAnd(x), passes, AsWritten) == Success(NestedAnd(x))
    decreases passes
  {
    if passes > 0 {
      assert Normalize(AndClause(x, x), AsWritten) == Success(AndClause(x, x));
      assert Normalize(NestedAnd(x), AsWritten) == Success(NestedAnd(x));
      NestedAndStuckAsWritten(x, passes - 1);
    }
  }
}
