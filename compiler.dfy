/**
 * ProgramBuilder.compile: turns the cases of a clause into one script plus,
 * per case, a witness template listing what a spender has to supply.
 */
module Compiler {
  import opened Wrappers
  import opened Scripts
  import opened Clauses
  import opened Flatten

  /** An entry of a witness template: a branch selector or the name of an unbound variable. */
  datatype WitnessItem = Selector(n: int) | Unbound(name: string)

  /** The contents of a witness template. */
  datatype Template = Template(items: seq<WitnessItem>, nickname: Option<seq<bv8>>)

  /** ProgramBuilder.WitnessTemplate: items are added at the front. */
  class WitnessTemplate {
    var items: seq<WitnessItem>
    var nickname: Option<seq<bv8>>

    function State(): Template
      reads this
    {
      Template(items, nickname)
    }

    constructor ()
      ensures State() == Template([], None)
    {
      items := [];
      nickname := None;
    }

    method Add(it: WitnessItem)
      modifies this`items
      ensures items == [it] + old(items)
    {
      items := [it] + items;
    }

    method Name(nickname: seq<bv8>)
      modifies this`nickname
      ensures this.nickname == Some(nickname)
    {
      this.nickname := Some(nickname);
    }
  }

  // ---------------------------------------------------------------------
  // Leaves (_compile and its registered handlers)
  // ---------------------------------------------------------------------

  /** _compile_var: a bound variable pushes its value, an unbound one pushes nothing. */
  function VarScript(v: Variable): Script
    reads v`value
  {
    if v.value.None? then [] else [Push(v.value.value)]
  }

  /** _compile_var: an unbound variable is named in the items instead. */
  function VarItems(v: Variable): seq<WitnessItem>
    reads v`name, v`value
  {
    if v.value.None? then [Unbound(v.name)] else []
  }

  /** The script fragment _compile emits for one leaf. */
  function LeafScript(leaf: Clause): Result<Script, Error>
    reads leaf.LeafVars()`name, leaf.LeafVars()`value
  {
    match leaf
    case SignatureCheckClause(key, signature) =>
      Success(VarScript(signature) + VarScript(key) + [Op(CheckSigVerify)])
    case PreImageCheckClause(hash, preimage) =>
      Success(VarScript(preimage) + [Op(Sha256)] + VarScript(hash) + [Op(Equal)])
    case CheckTemplateVerifyClause(t) =>
      if t.value.Some? && t.value.value.Bytes? then
        Success([Push(t.value.value), Op(CheckTemplateVerify), Op(Drop)])
      else Failure(AssertionFailed)
    case AfterClause(t) =>
      if t.value.None? then Failure(AssertionFailed)
      else if t.value.value.AbsoluteTime? then
        Success([Push(Num(t.value.value.time)), Op(CheckLockTimeVerify), Op(Drop)])
      else if t.value.value.RelativeTime? then
        Success([Push(Num(t.value.value.time)), Op(CheckSequenceVerify), Op(Drop)])
      else Failure(ValueError)
    case Var(v) => Success(VarScript(v))
    case _ => Failure(CannotCompileArg)
  }

  /** The entries compiling a leaf puts at the front of the template, latest first. */
  function LeafItems(leaf: Clause): seq<WitnessItem>
    reads leaf.LeafVars()`name, leaf.LeafVars()`value
  {
    match leaf
    case SignatureCheckClause(key, signature) => VarItems(key) + VarItems(signature)
    case PreImageCheckClause(hash, preimage) => VarItems(hash) + VarItems(preimage)
    case Var(v) => VarItems(v)
    case _ => []
  }

  /** The name a leaf gives its template: a template check names it after the template's bytes. */
  function LeafName(leaf: Clause): Option<seq<bv8>>
    reads leaf.LeafVars()`name, leaf.LeafVars()`value
  {
    match leaf
    case CheckTemplateVerifyClause(t) =>
      if t.value.Some? && t.value.value.Bytes? then Some(t.value.value.bytes) else None
    case _ => None
  }

  /** A template's nickname after `name` is given, if one is: the last name given wins. */
  function Renamed(name: Option<seq<bv8>>, prior: Option<seq<bv8>>): Option<seq<bv8>> {
    if name.Some? then name else prior
  }

  method CompileVar(v: Variable, w: WitnessTemplate) returns (s: Script)
    modifies w`items
    ensures s == VarScript(v)
    ensures w.items == VarItems(v) + old(w.items)
  {
    if v.value.None? {
      w.Add(Unbound(v.name));
      s := [];
    } else {
      s := [Push(v.value.value)];
    }
  }

  /** _compile for a signature check: the signature, then the key, then OP_CHECKSIGVERIFY. */
  method CompileSignatureCheck(leaf: Clause, w: WitnessTemplate) returns (s: Script)
    requires leaf.SignatureCheckClause?
    modifies w`items
    ensures Success(s) == LeafScript(leaf)
    ensures w.items == LeafItems(leaf) + old(w.items)
  {
    var sig := CompileVar(leaf.signature, w);
    var key := CompileVar(leaf.key, w);
    s := sig + key + [Op(CheckSigVerify)];
    assert w.items == (VarItems(leaf.key) + VarItems(leaf.signature)) + old(w.items);
  }

  /** _compile for a preimage check: the preimage, OP_SHA256, the hash, OP_EQUAL. */
  method CompilePreImageCheck(leaf: Clause, w: WitnessTemplate) returns (s: Script)
    requires leaf.PreImageCheckClause?
    modifies w`items
    ensures Success(s) == LeafScript(leaf)
    ensures w.items == LeafItems(leaf) + old(w.items)
  {
    var pre := CompileVar(leaf.preimage, w);
    var hash := CompileVar(leaf.hash, w);
    s := pre + [Op(Sha256)] + hash + [Op(Equal)];
    assert w.items == (VarItems(leaf.hash) + VarItems(leaf.preimage)) + old(w.items);
  }

  /** _compile for a template check: the template must be bound to bytes, and names the witness. */
  method CompileTemplateCheck(leaf: Clause, w: WitnessTemplate) returns (r: Result<Script, Error>)
    requires leaf.CheckTemplateVerifyClause?
    modifies w`nickname
    ensures r == LeafScript(leaf)
    ensures r.Success? ==> w.nickname == Renamed(LeafName(leaf), old(w.nickname))
    ensures r.Failure? ==> w.nickname == old(w.nickname)
  {
    var t := leaf.template;
    if t.value.None? || !t.value.value.Bytes? {
      return Failure(AssertionFailed);
    }
    r := Success([Push(t.value.value), Op(CheckTemplateVerify), Op(Drop)]);
    w.Name(t.value.value.bytes);
  }

  /** _compile for a timelock: the time must be bound to an absolute or a relative time spec. */
  method CompileAfter(leaf: Clause) returns (r: Result<Script, Error>)
    requires leaf.AfterClause?
    ensures r == LeafScript(leaf)
  {
    var t := leaf.time;
    if t.value.None? {
      return Failure(AssertionFailed);
    }
    match t.value.value {
      case AbsoluteTime(time) =>
        r := Success([Push(Num(time)), Op(CheckLockTimeVerify), Op(Drop)]);
      case RelativeTime(time) =>
        r := Success([Push(Num(time)), Op(CheckSequenceVerify), Op(Drop)]);
      case _ =>
        r := Failure(ValueError);
    }
  }

  /** _compile: dispatch on the leaf kind; kinds without a handler raise NotImplementedError. */
  method CompileLeaf(leaf: Clause, w: WitnessTemplate) returns (r: Result<Script, Error>)
    modifies w`items, w`nickname
    ensures r == old(LeafScript(leaf))
    ensures r.Success? ==> w.items == old(LeafItems(leaf)) + old(w.items)
    ensures r.Success? ==> w.nickname == Renamed(old(LeafName(leaf)), old(w.nickname))
    ensures r.Failure? ==> w.items == old(w.items) && w.nickname == old(w.nickname)
  {
    if leaf.SignatureCheckClause? {
      var s := CompileSignatureCheck(leaf, w);
      r := Success(s);
    } else if leaf.PreImageCheckClause? {
      var s := CompilePreImageCheck(leaf, w);
      r := Success(s);
    } else if leaf.CheckTemplateVerifyClause? {
      r := CompileTemplateCheck(leaf, w);
    } else if leaf.AfterClause? {
      r := CompileAfter(leaf);
    } else if leaf.Var? {
      var s := CompileVar(leaf.v, w);
      r := Success(s);
    } else {
      r := Failure(CannotCompileArg);
    }
  }

  // ---------------------------------------------------------------------
  // Cases
  // ---------------------------------------------------------------------

  /**
   * What compiling a leaf yields with the variables as they are bound: its
   * fragment or error, the entries it puts at the front of the template and
   * the name it gives the template.
   */
  datatype Outcome = Outcome(script: Result<Script, Error>, items: seq<WitnessItem>, name: Option<seq<bv8>>)

  function LeafOutcome(leaf: Clause): Outcome
    reads leaf.LeafVars()`name, leaf.LeafVars()`value
  {
    Outcome(LeafScript(leaf), LeafItems(leaf), LeafName(leaf))
  }

  /** What a leaf compiles to depends only on its own variables. */
  twostate lemma LeafUnchanged(leaf: Clause)
    requires forall v: Variable :: old(allocated(v)) ==> old(v.name) == v.name && old(v.value) == v.value
    ensures old(LeafOutcome(leaf)) == LeafOutcome(leaf)
  {
  }

  /** The variables the leaves of one case refer to. */
  function CaseVars(leaves: seq<Clause>): set<Variable> {
    set l, v | l in leaves && v in l.LeafVars() :: v
  }

  /** The outcome of each leaf of a case. */
  function Outcomes(leaves: seq<Clause>): (r: seq<Outcome>)
    reads CaseVars(leaves)`name, CaseVars(leaves)`value
    ensures |r| == |leaves|
    ensures forall j :: 0 <= j < |leaves| ==> r[j] == LeafOutcome(leaves[j])
    decreases |leaves|
  {
    if leaves == [] then [] else [LeafOutcome(leaves[0])] + Outcomes(leaves[1..])
  }

  /** What a case compiles to depends only on the variables of its leaves. */
  twostate lemma OutcomesUnchanged(leaves: seq<Clause>)
    requires forall v: Variable :: old(allocated(v)) ==> old(v.name) == v.name && old(v.value) == v.value
    ensures old(Outcomes(leaves)) == Outcomes(leaves)
  {
    forall j | 0 <= j < |leaves|
      ensures old(Outcomes(leaves))[j] == Outcomes(leaves)[j]
    {
      LeafUnchanged(leaves[j]);
    }
  }

  /** A fragment as it goes into its case: on its own as one element, or spliced in. */
  function Fragment(f: Script, nested: bool): Script {
    if nested then [Nested(f)] else f
  }

  /**
   * The fragments of a case in order, the first failing leaf deciding the
   * error. With `nested`, each fragment is kept as a script element of its
   * own, as the two-case layout does; otherwise they are concatenated.
   */
  function CaseScript(outs: seq<Outcome>, nested: bool): Result<Script, Error>
    decreases |outs|
  {
    if outs == [] then Success([])
    else
      var f :- outs[0].script;
      var rest :- CaseScript(outs[1..], nested);
      Success(Fragment(f, nested) + rest)
  }

  /** The entries a case puts at the front of its template, latest leaf first. */
  function CaseItems(outs: seq<Outcome>): seq<WitnessItem>
    decreases |outs|
  {
    if outs == [] then [] else CaseItems(outs[1..]) + outs[0].items
  }

  /** The name a case gives its template: that of its last naming leaf, if any. */
  function CaseName(outs: seq<Outcome>): Option<seq<bv8>>
    decreases |outs|
  {
    if outs == [] then None else Renamed(CaseName(outs[1..]), outs[0].name)
  }

  /** A result with `prefix` in front of its script, errors left as they are. */
  function Prefixed(prefix: Script, r: Result<Script, Error>): Result<Script, Error> {
    if r.Failure? then r else Success(prefix + r.value)
  }

  lemma PrefixedNothing(r: Result<Script, Error>)
    ensures Prefixed([], r) == r
  {
    if r.Success? {
      assert [] + r.value == r.value;
    }
  }

  lemma PrefixedTwice(a: Script, b: Script, r: Result<Script, Error>)
    ensures Prefixed(a, Prefixed(b, r)) == Prefixed(a + b, r)
  {
    if r.Success? {
      assert a + (b + r.value) == (a + b) + r.value;
    }
  }

  /** The case functions on the leaves from i on, in terms of leaf i and the leaves after it. */
  lemma CaseStep(outs: seq<Outcome>, i: nat, nested: bool)
    requires i < |outs|
    ensures outs[i].script.Failure? ==> CaseScript(outs[i..], nested) == Failure(outs[i].script.error)
    ensures outs[i].script.Success? ==>
              CaseScript(outs[i..], nested) == Prefixed(Fragment(outs[i].script.value, nested), CaseScript(outs[i + 1..], nested))
    ensures CaseItems(outs[i..]) == CaseItems(outs[i + 1..]) + outs[i].items
    ensures CaseName(outs[i..]) == Renamed(CaseName(outs[i + 1..]), outs[i].name)
  {
    assert outs[i..][0] == outs[i] && outs[i..][1..] == outs[i + 1..];
  }

  /** Leaf j is the first leaf of the case that fails to compile, in the order compile visits them. */
  predicate FirstFailure(outs: seq<Outcome>, j: nat) {
    && j < |outs| && outs[j].script.Failure?
    && forall i :: 0 <= i < j ==> outs[i].script.Success?
  }

  /** The entries and the name of a case whose leaves are `p` and then `o`: those of `o` come last and win. */
  lemma {:induction false} CaseAppend(p: seq<Outcome>, o: Outcome)
    ensures CaseItems(p + [o]) == o.items + CaseItems(p)
    ensures CaseName(p + [o]) == Renamed(o.name, CaseName(p))
    decreases |p|
  {
    if p == [] {
      assert [] + [o] == [o] && [o][1..] == [];
    } else {
      assert (p + [o])[0] == p[0] && (p + [o])[1..] == p[1..] + [o];
      CaseAppend(p[1..], o);
    }
  }

  /** The leaves before i + 1 are the leaves before i, then leaf i. */
  lemma CasePrefixStep(outs: seq<Outcome>, i: nat)
    requires i < |outs|
    ensures CaseItems(outs[..i + 1]) == outs[i].items + CaseItems(outs[..i])
    ensures CaseName(outs[..i + 1]) == Renamed(outs[i].name, CaseName(outs[..i]))
  {
    assert outs[..i + 1] == outs[..i] + [outs[i]];
    CaseAppend(outs[..i], outs[i]);
  }

  /**
   * CompileLeaf on leaf i of a case, stated against `outs`, the outcomes of
   * the case's leaves, which compiling a leaf leaves as they were.
   */
  method CompileLeafAt(leaves: seq<Clause>, i: nat, w: WitnessTemplate, ghost outs: seq<Outcome>)
    returns (r: Result<Script, Error>)
    requires i < |leaves| && outs == Outcomes(leaves)
    modifies w`items, w`nickname
    ensures Outcomes(leaves) == outs
    ensures r == outs[i].script
    ensures r.Success? ==> w.items == outs[i].items + old(w.items)
    ensures r.Success? ==> w.nickname == Renamed(outs[i].name, old(w.nickname))
    ensures r.Failure? ==> w.items == old(w.items) && w.nickname == old(w.nickname)
  {
    r := CompileLeaf(leaves[i], w);
    OutcomesUnchanged(leaves);
  }

  /**
   * The leaves before i all compiled, and the template holds what they put
   * into it on top of `items0` and `name0`, what it held before.
   */
  predicate CompiledBefore(outs: seq<Outcome>, i: nat, items: seq<WitnessItem>, name: Option<seq<bv8>>,
                           items0: seq<WitnessItem>, name0: Option<seq<bv8>>) {
    && i <= |outs|
    && (forall m :: 0 <= m < i ==> outs[m].script.Success?)
    && items == CaseItems(outs[..i]) + items0
    && name == Renamed(CaseName(outs[..i]), name0)
  }

  /** Leaf i compiles, so its entries and name go on top of those of the leaves before it. */
  lemma CompiledStep(outs: seq<Outcome>, i: nat, items: seq<WitnessItem>, name: Option<seq<bv8>>,
                     items0: seq<WitnessItem>, name0: Option<seq<bv8>>)
    requires i < |outs| && outs[i].script.Success?
    requires CompiledBefore(outs, i, items, name, items0, name0)
    ensures CompiledBefore(outs, i + 1, outs[i].items + items, Renamed(outs[i].name, name), items0, name0)
  {
    CasePrefixStep(outs, i);
    assert outs[i].items + (CaseItems(outs[..i]) + items0) == (outs[i].items + CaseItems(outs[..i])) + items0;
  }

  /**
   * One step of compiling a case: compiles leaf i into the template and
   * appends its fragment to `acc`, the fragments of the leaves before it.
   */
  method CompileNextLeaf(leaves: seq<Clause>, i: nat, w: WitnessTemplate, nested: bool, acc: Script,
                         ghost outs: seq<Outcome>, ghost items0: seq<WitnessItem>, ghost name0: Option<seq<bv8>>)
    returns (r: Result<Script, Error>)
    requires i < |leaves| && outs == Outcomes(leaves)
    requires CompiledBefore(outs, i, w.items, w.nickname, items0, name0)
    modifies w`items, w`nickname
    ensures Outcomes(leaves) == outs
    ensures r.Failure? ==> r == Prefixed(acc, CaseScript(outs[i..], nested))
    ensures r.Failure? ==> FirstFailure(outs, i) && CompiledBefore(outs, i, w.items, w.nickname, items0, name0)
    ensures r.Success? ==> Prefixed(acc, CaseScript(outs[i..], nested)) == Prefixed(r.value, CaseScript(outs[i + 1..], nested))
    ensures r.Success? ==> CompiledBefore(outs, i + 1, w.items, w.nickname, items0, name0)
  {
    var f := CompileLeafAt(leaves, i, w, outs);
    CaseStep(outs, i, nested);
    if f.Failure? {
      return Failure(f.error);
    }
    CompiledStep(outs, i, old(w.items), old(w.nickname), items0, name0);
    PrefixedTwice(acc, Fragment(f.value, nested), CaseScript(outs[i + 1..], nested));
    r := Success(acc + Fragment(f.value, nested));
  }

  /**
   * The loop of CompileCase, stated against `outs`, the outcomes of the
   * leaves, which compiling them leaves as they were.
   */
  method CompileLeaves(leaves: seq<Clause>, w: WitnessTemplate, nested: bool, ghost outs: seq<Outcome>)
    returns (r: Result<Script, Error>)
    requires outs == Outcomes(leaves)
    modifies w`items, w`nickname
    ensures r == CaseScript(outs, nested)
    ensures r.Success? ==> w.items == CaseItems(outs) + old(w.items)
    ensures r.Success? ==> w.nickname == Renamed(CaseName(outs), old(w.nickname))
    ensures r.Failure? ==>
              exists j: nat :: FirstFailure(outs, j) && CompiledBefore(outs, j, w.items, w.nickname, old(w.items), old(w.nickname))
  {
    var acc := [];
    assert outs[0..] == outs && outs[..0] == [];
    PrefixedNothing(CaseScript(outs, nested));
    for i := 0 to |leaves|
      invariant outs == Outcomes(leaves)
      invariant CaseScript(outs, nested) == Prefixed(acc, CaseScript(outs[i..], nested))
      invariant CompiledBefore(outs, i, w.items, w.nickname, old(w.items), old(w.nickname))
    {
      var next := CompileNextLeaf(leaves, i, w, nested, acc, outs, old(w.items), old(w.nickname));
      if next.Failure? {
        return next;
      }
      acc := next.value;
    }
    assert outs[|leaves|..] == [] && acc + [] == acc && outs[..|leaves|] == outs;
    r := Success(acc);
  }

  /**
   * Compiles the leaves of one case in order into one witness template,
   * stopping at the first leaf that fails. On a failure the template holds
   * what the leaves before the failing one put into it, and no more.
   */
  method CompileCase(leaves: seq<Clause>, w: WitnessTemplate, nested: bool) returns (r: Result<Script, Error>)
    modifies w`items, w`nickname
    ensures r == CaseScript(old(Outcomes(leaves)), nested)
    ensures r.Success? ==> w.items == CaseItems(old(Outcomes(leaves))) + old(w.items)
    ensures r.Success? ==> w.nickname == Renamed(CaseName(old(Outcomes(leaves))), old(w.nickname))
    ensures r.Failure? ==>
              exists j: nat :: && FirstFailure(old(Outcomes(leaves)), j)
                               && CompiledBefore(old(Outcomes(leaves)), j, w.items, w.nickname, old(w.items), old(w.nickname))
  {
    r := CompileLeaves(leaves, w, nested, Outcomes(leaves));
  }

  // ---------------------------------------------------------------------
  // The program
  // ---------------------------------------------------------------------

  /** The variables the leaves of all cases refer to. */
  function CasesVars(cases: seq<seq<Clause>>): set<Variable> {
    set c, l, v | c in cases && l in c && v in l.LeafVars() :: v
  }

  /** The outcomes of the leaves of every case. */
  function CasesOutcomes(cases: seq<seq<Clause>>): (r: seq<seq<Outcome>>)
    reads CasesVars(cases)`name, CasesVars(cases)`value
    ensures |r| == |cases|
    ensures forall k :: 0 <= k < |cases| ==> r[k] == Outcomes(cases[k])
    decreases |cases|
  {
    if cases == [] then [] else [Outcomes(cases[0])] + CasesOutcomes(cases[1..])
  }

  /** What the cases compile to depends only on the variables of their leaves. */
  twostate lemma CasesOutcomesUnchanged(cases: seq<seq<Clause>>)
    requires forall v: Variable :: old(allocated(v)) ==> old(v.name) == v.name && old(v.value) == v.value
    ensures old(CasesOutcomes(cases)) == CasesOutcomes(cases)
  {
    forall k | 0 <= k < |cases|
      ensures old(Outcomes(cases[k])) == Outcomes(cases[k])
    {
      OutcomesUnchanged(cases[k]);
    }
  }

  /**
   * The selector a spender puts on the stack to take case i of n: OP_IF
   * takes the first of two cases on 1 and the second on 0; the generic
   * layout counts the selector down and takes case i on i + 1.
   */
  function SelectorOf(n: nat, i: nat): int {
    if n == 2 then 1 - i else i + 1
  }

  /** The head of a branch: counts the selector down and keeps a copy of it unless it reached zero. */
  const CountDown: Script := [Op(SubOne), Op(IfDup)]

  /** What a taken branch leaves in place of the selector, so that no later branch is taken. */
  const Taken: Script := [Op(Zero)]

  /**
   * One branch of the generic layout: OP_NOTIF runs the fragment when the
   * selector counts down to zero.
   */
  function Branch(fragment: Script): Script {
    CountDown + [Op(NotIf)] + fragment + Taken + [Op(EndIf)]
  }

  /** The branches of the generic layout, one per case, in order. */
  function Branches(outss: seq<seq<Outcome>>): Result<Script, Error>
    decreases |outss|
  {
    if outss == [] then Success([])
    else
      var f :- CaseScript(outss[0], false);
      var rest :- Branches(outss[1..]);
      Success(Branch(f) + rest)
  }

  /**
   * The script compile emits for cases with the given outcomes, given the
   * range check and the tail of the generic layout: one case runs its
   * fragments and leaves 1; two cases pick a branch with OP_IF; otherwise
   * the selector's range is checked, it is counted down through one branch
   * per case, and the tail runs last.
   */
  function Layout(outss: seq<seq<Outcome>>, rangeCheck: Script, tail: Script): Result<Script, Error> {
    if |outss| == 1 then
      var f :- CaseScript(outss[0], false);
      Success(f + [Push(Num(1))])
    else if |outss| == 2 then
      var a :- CaseScript(outss[0], true);
      var b :- CaseScript(outss[1], true);
      Success([Op(If), Nested(a), Op(Else), Nested(b), Op(EndIf), Push(Num(1))])
    else
      var bs :- Branches(outss);
      Success(rangeCheck + bs + tail)
  }

  /**
   * The end of the generic layout: drops what the branches leave (zero if
   * the last case was taken) and leaves 1, as the other layouts do.
   */
  const Tail: Script := [Op(Drop), Push(Num(1))]

  /**
   * The range check of the generic layout for n cases: as written it
   * admits 0..n-1; corrected it admits exactly the selectors 1..n.
   */
  function RangeFor(v: Variant, n: nat): Script {
    if v == AsWritten then RangeCheck(0, n) else RangeCheck(1, n + 1)
  }

  /** What follows the branches of the generic layout: nothing as written, `Tail` corrected. */
  function TailFor(v: Variant): Script {
    if v == AsWritten then [] else Tail
  }

  /** compile's script for cases with the given outcomes. */
  function Program(outss: seq<seq<Outcome>>, v: Variant): Result<Script, Error> {
    Layout(outss, RangeFor(v, |outss|), TailFor(v))
  }

  /** The witness template compile returns for case i. */
  function TemplateOf(outss: seq<seq<Outcome>>, i: nat): Template
    requires i < |outss|
  {
    Template(CaseItems(outss[i]) + (if |outss| >= 2 then [Selector(SelectorOf(|outss|, i))] else []),
             CaseName(outss[i]))
  }

  /** The template of case k, from what compiling the case left in a template that held only `first`. */
  lemma TemplateFilled(outss: seq<seq<Outcome>>, k: nat, first: seq<WitnessItem>, items: seq<WitnessItem>,
                       nickname: Option<seq<bv8>>)
    requires k < |outss|
    requires first == if |outss| >= 2 then [Selector(SelectorOf(|outss|, k))] else []
    requires items == CaseItems(outss[k]) + first && nickname == Renamed(CaseName(outss[k]), None)
    ensures Template(items, nickname) == TemplateOf(outss, k)
  {
  }

  /**
   * CompileCase on case k, stated against `outss`, the outcomes of all
   * cases, which compiling a case leaves as they were.
   */
  method CompileCaseAt(cases: seq<seq<Clause>>, k: nat, w: WitnessTemplate, nested: bool,
                       ghost outss: seq<seq<Outcome>>) returns (r: Result<Script, Error>)
    requires k < |cases| && outss == CasesOutcomes(cases)
    modifies w`items, w`nickname
    ensures CasesOutcomes(cases) == outss
    ensures r == CaseScript(outss[k], nested)
    ensures r.Success? ==> w.items == CaseItems(outss[k]) + old(w.items)
    ensures r.Success? ==> w.nickname == Renamed(CaseName(outss[k]), old(w.nickname))
  {
    r := CompileCase(cases[k], w, nested);
    CasesOutcomesUnchanged(cases);
  }

  /** Adding an item to a template leaves what the cases compile to as it was. */
  method AddAt(cases: seq<seq<Clause>>, w: WitnessTemplate, it: WitnessItem, ghost outss: seq<seq<Outcome>>)
    requires outss == CasesOutcomes(cases)
    modifies w`items
    ensures CasesOutcomes(cases) == outss
    ensures w.items == [it] + old(w.items)
  {
    w.Add(it);
    CasesOutcomesUnchanged(cases);
  }

  /** Branches on the cases from k on, in terms of case k and the cases after it. */
  lemma BranchesStep(outss: seq<seq<Outcome>>, k: nat)
    requires k < |outss|
    ensures CaseScript(outss[k], false).Failure? ==> Branches(outss[k..]) == Failure(CaseScript(outss[k], false).error)
    ensures CaseScript(outss[k], false).Success? ==>
              Branches(outss[k..]) == Prefixed(Branch(CaseScript(outss[k], false).value), Branches(outss[k + 1..]))
  {
    assert outss[k..][0] == outss[k] && outss[k..][1..] == outss[k + 1..];
  }

  /**
   * One step of the generic layout: adds case k's selector to its template,
   * compiles the case into it and appends its branch to `acc`, the branches
   * of the cases before it.
   */
  method CompileBranch(cases: seq<seq<Clause>>, k: nat, w: WitnessTemplate, acc: Script,
                       ghost outss: seq<seq<Outcome>>) returns (r: Result<Script, Error>)
    requires 3 <= |cases| && k < |cases| && outss == CasesOutcomes(cases)
    requires w.State() == Template([], None)
    modifies w`items, w`nickname
    ensures CasesOutcomes(cases) == outss
    ensures r.Failure? ==> r == Prefixed(acc, Branches(outss[k..]))
    ensures r.Success? ==> Prefixed(acc, Branches(outss[k..])) == Prefixed(r.value, Branches(outss[k + 1..]))
    ensures r.Success? ==> w.State() == TemplateOf(outss, k)
  {
    AddAt(cases, w, Selector(k + 1), outss);
    var f := CompileCaseAt(cases, k, w, false, outss);
    BranchesStep(outss, k);
    if f.Failure? {
      return Failure(f.error);
    }
    PrefixedTwice(acc, Branch(f.value), Branches(outss[k + 1..]));
    TemplateFilled(outss, k, [Selector(k + 1)], w.items, w.nickname);
    r := Success(acc + Branch(f.value));
  }

  /** `n` fresh, distinct, empty witness templates. */
  method NewTemplates(n: nat) returns (ws: seq<WitnessTemplate>)
    ensures |ws| == n
    ensures forall i :: 0 <= i < n ==> fresh(ws[i]) && ws[i].State() == Template([], None)
    ensures forall i, j :: 0 <= i < j < n ==> ws[i] != ws[j]
  {
    ws := [];
    while |ws| < n
      invariant |ws| <= n
      invariant forall i :: 0 <= i < |ws| ==> fresh(ws[i]) && ws[i].State() == Template([], None)
      invariant forall i, j :: 0 <= i < j < |ws| ==> ws[i] != ws[j]
    {
      var w := new WitnessTemplate();
      ws := ws + [w];
    }
  }

  /** Whether the templates hold what compile leaves in them for the cases with outcomes `outss`. */
  predicate Filled(ws: seq<WitnessTemplate>, outss: seq<seq<Outcome>>)
    reads set i | 0 <= i < |ws| :: ws[i]
  {
    |ws| == |outss| && forall i :: 0 <= i < |ws| ==> ws[i].State() == TemplateOf(outss, i)
  }

  lemma FilledPair(ws: seq<WitnessTemplate>, outss: seq<seq<Outcome>>)
    requires |ws| == 2 && |outss| == 2
    requires ws[0].State() == TemplateOf(outss, 0) && ws[1].State() == TemplateOf(outss, 1)
    ensures Filled(ws, outss)
  {
  }

  /** compile for a single case: its fragments, then 1 left on the stack. */
  method CompileOne(cases: seq<seq<Clause>>, ws: seq<WitnessTemplate>, ghost outss: seq<seq<Outcome>>, v: Variant)
    returns (r: Result<Script, Error>)
    requires |cases| == 1 && |ws| == 1 && outss == CasesOutcomes(cases)
    requires ws[0].State() == Template([], None)
    modifies ws[0]
    ensures CasesOutcomes(cases) == outss
    ensures r == Program(outss, v)
    ensures r.Success? ==> Filled(ws, outss)
  {
    var f := CompileCaseAt(cases, 0, ws[0], false, outss);
    if f.Failure? {
      return Failure(f.error);
    }
    assert CaseItems(outss[0]) + [] == CaseItems(outss[0]);
    TemplateFilled(outss, 0, [], ws[0].items, ws[0].nickname);
    r := Success(f.value + [Push(Num(1))]);
  }

  /** The two-case program, in terms of the scripts of its two cases. */
  lemma TwoCases(outss: seq<seq<Outcome>>, v: Variant)
    requires |outss| == 2
    ensures CaseScript(outss[0], true).Failure? ==> Program(outss, v) == Failure(CaseScript(outss[0], true).error)
    ensures CaseScript(outss[0], true).Success? && CaseScript(outss[1], true).Failure? ==>
              Program(outss, v) == Failure(CaseScript(outss[1], true).error)
    ensures CaseScript(outss[0], true).Success? && CaseScript(outss[1], true).Success? ==>
              Program(outss, v) == Success([Op(If), Nested(CaseScript(outss[0], true).value), Op(Else),
                                         Nested(CaseScript(outss[1], true).value), Op(EndIf), Push(Num(1))])
  {
  }

  /** compile for two cases: OP_IF picks the first on selector 1 and the second on 0. */
  method CompileTwo(cases: seq<seq<Clause>>, ws: seq<WitnessTemplate>, ghost outss: seq<seq<Outcome>>, v: Variant)
    returns (r: Result<Script, Error>)
    requires |cases| == 2 && |ws| == 2 && ws[0] != ws[1] && outss == CasesOutcomes(cases)
    requires forall i :: 0 <= i < 2 ==> ws[i].State() == Template([], None)
    modifies ws[0], ws[1]
    ensures CasesOutcomes(cases) == outss
    ensures r == Program(outss, v)
    ensures r.Success? ==> Filled(ws, outss)
  {
    TwoCases(outss, v);
    AddAt(cases, ws[0], Selector(1), outss);
    AddAt(cases, ws[1], Selector(0), outss);
    var a := CompileCaseAt(cases, 0, ws[0], true, outss);
    if a.Failure? {
      return Failure(a.error);
    }
    var b := CompileCaseAt(cases, 1, ws[1], true, outss);
    if b.Failure? {
      return Failure(b.error);
    }
    TemplateFilled(outss, 0, [Selector(1)], ws[0].items, ws[0].nickname);
    TemplateFilled(outss, 1, [Selector(0)], ws[1].items, ws[1].nickname);
    FilledPair(ws, outss);
    r := Success([Op(If), Nested(a.value), Op(Else), Nested(b.value), Op(EndIf), Push(Num(1))]);
  }

  /** The generic layout, in terms of the branches of its cases. */
  lemma ManyProgram(outss: seq<seq<Outcome>>, v: Variant)
    requires |outss| != 1 && |outss| != 2
    ensures Branches(outss).Failure? ==> Program(outss, v) == Failure(Branches(outss).error)
    ensures Branches(outss).Success? ==>
              Program(outss, v) == Success(RangeFor(v, |outss|) + Branches(outss).value + TailFor(v))
  {
  }

  /**
   * The branches of the generic layout, one per case in order, each case's
   * template holding its selector and what the case compiled into it.
   */
  method CompileBranches(cases: seq<seq<Clause>>, ws: seq<WitnessTemplate>, ghost outss: seq<seq<Outcome>>)
    returns (r: Result<Script, Error>)
    requires |cases| != 1 && |cases| != 2 && |ws| == |cases| && outss == CasesOutcomes(cases)
    requires forall i, j :: 0 <= i < j < |ws| ==> ws[i] != ws[j]
    requires forall i :: 0 <= i < |ws| ==> ws[i].State() == Template([], None)
    modifies set i | 0 <= i < |ws| :: ws[i]
    ensures CasesOutcomes(cases) == outss
    ensures r == Branches(outss)
    ensures r.Success? ==> Filled(ws, outss)
  {
    var acc := [];
    assert outss[0..] == outss;
    PrefixedNothing(Branches(outss));
    for k := 0 to |cases|
      invariant outss == CasesOutcomes(cases)
      invariant Branches(outss) == Prefixed(acc, Branches(outss[k..]))
      invariant forall i :: 0 <= i < k ==> ws[i].State() == TemplateOf(outss, i)
      invariant forall i :: k <= i < |ws| ==> ws[i].State() == Template([], None)
    {
      var next := CompileBranch(cases, k, ws[k], acc, outss);
      if next.Failure? {
        return next;
      }
      acc := next.value;
    }
    assert outss[|cases|..] == [] && acc + [] == acc;
    r := Success(acc);
  }

  /**
   * compile for no case or three and more: the range check on the selector,
   * then one branch per case, in order, then the tail.
   */
  method CompileMany(cases: seq<seq<Clause>>, ws: seq<WitnessTemplate>, ghost outss: seq<seq<Outcome>>, v: Variant)
    returns (r: Result<Script, Error>)
    requires |cases| != 1 && |cases| != 2 && |ws| == |cases| && outss == CasesOutcomes(cases)
    requires forall i, j :: 0 <= i < j < |ws| ==> ws[i] != ws[j]
    requires forall i :: 0 <= i < |ws| ==> ws[i].State() == Template([], None)
    modifies set i | 0 <= i < |ws| :: ws[i]
    ensures CasesOutcomes(cases) == outss
    ensures r == Program(outss, v)
    ensures r.Success? ==> Filled(ws, outss)
  {
    ManyProgram(outss, v);
    var bs := CompileBranches(cases, ws, outss);
    if bs.Failure? {
      return Failure(bs.error);
    }
    r := Success(RangeFor(v, |cases|) + bs.value + TailFor(v));
  }

  /**
   * ProgramBuilder.compile: the cases of the clause compiled into one
   * script, and one fresh witness template per case. Compiling changes no
   * variable, so the outcomes are the same before and after.
   */
  method Compile(clause: Clause, passes: nat, v: Variant) returns (r: Result<Script, Error>, witnesses: seq<WitnessTemplate>)
    ensures Cnf(clause, passes, v).Failure? ==> r == Failure(Cnf(clause, passes, v).error) && witnesses == []
    ensures Cnf(clause, passes, v).Success? ==>
              && |witnesses| == |Cnf(clause, passes, v).value|
              && r == Program(CasesOutcomes(Cnf(clause, passes, v).value), v)
              && (r.Success? ==> Filled(witnesses, CasesOutcomes(Cnf(clause, passes, v).value)))
    ensures forall i :: 0 <= i < |witnesses| ==> fresh(witnesses[i])
  {
    var cnf := CompileCnf(clause, passes, v);
    if cnf.Failure? {
      return Failure(cnf.error), [];
    }
    var cases := cnf.value;
    witnesses := NewTemplates(|cases|);
    ghost var outss := CasesOutcomes(cases);
    if |cases| == 1 {
      r := CompileOne(cases, witnesses, outss, v);
    } else if |cases| == 2 {
      r := CompileTwo(cases, witnesses, outss, v);
    } else {
      r := CompileMany(cases, witnesses, outss, v);
    }
  }
}
