/**
 * The clause language: the Variable class, the clause kinds, the `+` and `*`
 * operators that build Or and And nodes, and the boolean meaning of a clause.
 */
module Clauses {
  import opened Wrappers
  import opened Names
  import opened Scripts

  /**
   * Which program a model function follows: the source as it is written, or
   * the source with the corrections this model proposes (both children of an
   * And of Ands normalised; the generic layout's range check and tail fixed).
   */
  datatype Variant = AsWritten | Corrected

  /** The exceptions the clause compiler raises. */
  datatype Error =
    | CannotCompileArg  // NotImplementedError("Cannot Compile Arg"): no handler for this clause kind
    | TypeError         // `*` with a Variable as left operand: Variable defines no operators
    | AssertionFailed   // a failed `assert` in flatten_and, _compile_ctv or _compile_after
    | ValueError        // _compile_after on a value that is neither time spec

  /**
   * A named script variable, either bound to a value or left for the witness
   * to supply. `subVariableCount` is the counter of the last sub-variable
   * derived from it, -1 before the first.
   */
  class Variable {
    var name: string
    var value: Option<Value>
    var subVariableCount: int

    constructor (name: string, value: Option<Value>)
      ensures this.name == name && this.value == value && subVariableCount == -1
    {
      this.name := name;
      this.value := value;
      subVariableCount := -1;
    }

    /**
     * A fresh variable named after this one, the next counter and the
     * purpose. Its name differs from that of every sub-variable issued
     * before, whatever their purposes were.
     */
    method SubVariable(purpose: string, value: Option<Value>) returns (v: Variable)
      requires subVariableCount >= -1
      modifies this`subVariableCount
      ensures subVariableCount == old(subVariableCount) + 1
      ensures fresh(v) && v.subVariableCount == -1
      ensures v.name == SubVariableName(name, subVariableCount, purpose) && v.value == value
      ensures forall k: nat, p :: k < subVariableCount ==> v.name != SubVariableName(name, k, p)
    {
      subVariableCount := subVariableCount + 1;
      v := new Variable(name + "_" + NatToString(subVariableCount) + "_" + purpose, value);
      forall k: nat, p | k < subVariableCount
        ensures v.name != SubVariableName(name, k, p)
      {
        SubVariableNamesInjective(name, k, p, subVariableCount, purpose);
      }
    }

    method Assign(value: Value)
      modifies this`value
      ensures this.value == Some(value)
    {
      this.value := Some(value);
    }
  }

  /** The clause kinds. Leaves refer to the Variable objects they check. */
  datatype Clause =
    | SatisfiedClause
    | UnsatisfiableClause
    | AndClause(a: Clause, b: Clause)
    | OrClause(a: Clause, b: Clause)
    | SignatureCheckClause(key: Variable, signature: Variable)
    | PreImageCheckClause(hash: Variable, preimage: Variable)
    | CheckTemplateVerifyClause(template: Variable)
    | AfterClause(time: Variable)
    | Var(v: Variable)
  {
    /** The leaf kinds that normalize, flatten and _compile register a handler for. */
    predicate IsHandled() {
      SignatureCheckClause? || PreImageCheckClause? || CheckTemplateVerifyClause? || AfterClause? || Var?
    }

    /** The handled leaves other than a bare Variable: the conditions a script checks. */
    predicate IsCheck() {
      SignatureCheckClause? || PreImageCheckClause? || CheckTemplateVerifyClause? || AfterClause?
    }

    /** The variables a leaf refers to directly. */
    function LeafVars(): set<Variable> {
      match this
      case SignatureCheckClause(k, s) => {k, s}
      case PreImageCheckClause(h, p) => {h, p}
      case CheckTemplateVerifyClause(t) => {t}
      case AfterClause(t) => {t}
      case Var(v) => {v}
      case _ => {}
    }
  }

  /** SignatureCheckClause(a): derives the signature variable from the key. */
  method NewSignatureCheck(a: Variable) returns (c: Clause)
    requires a.subVariableCount >= -1
    modifies a`subVariableCount
    ensures a.subVariableCount == old(a.subVariableCount) + 1
    ensures c.SignatureCheckClause? && c.key == a && fresh(c.signature)
    ensures c.signature.name == SubVariableName(a.name, a.subVariableCount, "signature")
    ensures c.signature.value == None
  {
    var b := a.SubVariable("signature", None);
    c := SignatureCheckClause(a, b);
  }

  /** PreImageCheckClause(a): derives the preimage variable from the hash. */
  method NewPreImageCheck(a: Variable) returns (c: Clause)
    requires a.subVariableCount >= -1
    modifies a`subVariableCount
    ensures a.subVariableCount == old(a.subVariableCount) + 1
    ensures c.PreImageCheckClause? && c.hash == a && fresh(c.preimage)
    ensures c.preimage.name == SubVariableName(a.name, a.subVariableCount, "preimage")
    ensures c.preimage.value == None
  {
    var b := a.SubVariable("preimage", None);
    c := PreImageCheckClause(a, b);
  }

  /** The boolean meaning of a clause, given which leaf conditions are met. */
  predicate Holds(c: Clause, sat: Clause -> bool) {
    match c
    case SatisfiedClause => true
    case UnsatisfiableClause => false
    case AndClause(a, b) => Holds(a, sat) && Holds(b, sat)
    case OrClause(a, b) => Holds(a, sat) || Holds(b, sat)
    case _ => sat(c)
  }

  /** `x + y`: every clause kind builds an Or node; a Variable defines no `+`. */
  function Plus(x: Clause, y: Clause): (r: Result<Clause, Error>)
    ensures r.Success? <==> !x.Var?
    ensures r.Failure? ==> r.error == TypeError
  {
    if x.Var? then Failure(TypeError) else Success(OrClause(x, y))
  }

  /** `x * y`: every clause kind builds an And node; a Variable defines no `*`. */
  function Times(x: Clause, y: Clause): (r: Result<Clause, Error>)
    ensures r.Success? <==> !x.Var?
    ensures r.Failure? ==> r.error == TypeError
  {
    if x.Var? then Failure(TypeError) else Success(AndClause(x, y))
  }

  /** `+` means "either", `*` means "both". */
  lemma OperatorsMeaning(x: Clause, y: Clause, sat: Clause -> bool)
    requires !x.Var?
    ensures Holds(Plus(x, y).value, sat) == (Holds(x, sat) || Holds(y, sat))
    ensures Holds(Times(x, y).value, sat) == (Holds(x, sat) && Holds(y, sat))
  {
  }

  /** The leaves of a clause: everything below its And and Or nodes. */
  function Leaves(c: Clause): set<Clause> {
    match c
    case AndClause(a, b) => Leaves(a) + Leaves(b)
    case OrClause(a, b) => Leaves(a) + Leaves(b)
    case _ => {c}
  }

  /** Every leaf is a signature, preimage, template or time check. */
  predicate ChecksOnly(c: Clause) {
    forall l :: l in Leaves(c) ==> l.IsCheck()
  }

  /** No Or node anywhere in the clause. */
  predicate NoOr(c: Clause) {
    match c
    case OrClause(_, _) => false
    case AndClause(a, b) => NoOr(a) && NoOr(b)
    case _ => true
  }

  /** Disjunctive normal form: no Or node below an And node. */
  predicate IsDnf(c: Clause) {
    match c
    case OrClause(a, b) => IsDnf(a) && IsDnf(b)
    case AndClause(a, b) => NoOr(a) && NoOr(b)
    case _ => true
  }

  lemma {:induction false} NoOrIsDnf(c: Clause)
    requires NoOr(c)
    ensures IsDnf(c)
  {
  }

  /**
   * A measure that every distributivity step lowers: a leaf weighs 2, an Or
   * node the sum of its children plus one, an And node their product.
   */
  function Weight(c: Clause): (w: nat)
    ensures w >= 2
  {
    match c
    case AndClause(a, b) => Weight(a) * Weight(b)
    case OrClause(a, b) => Weight(a) + Weight(b) + 1
    case _ => 2
  }
}
