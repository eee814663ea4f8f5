/**
 * What the scripts compile emits are made of: which opcodes each leaf
 * contributes, how each of a leaf's variables reaches the script, when
 * compiling fails and with which error, and the flow control each layout
 * uses.
 */
module Programs {
  import opened Wrappers
  import opened Scripts
  import opened Clauses
  import opened Compiler

  // ---------------------------------------------------------------------
  // Leaves
  // ---------------------------------------------------------------------

  /** How many variable slots a compilable leaf has: key and signature, hash and preimage, or one. */
  function Arity(leaf: Clause): nat {
    match leaf
    case SignatureCheckClause(_, _) => 2
    case PreImageCheckClause(_, _) => 2
    case CheckTemplateVerifyClause(_) => 1
    case AfterClause(_) => 1
    case Var(_) => 1
    case _ => 0
  }

  /** A script without OP_IF, OP_NOTIF, OP_ELSE or OP_ENDIF at its top level. */
  predicate NoFlow(s: Script) {
    forall op :: op in OpcodesOf(s) ==> !IsFlowControl(op)
  }

  /** A variable is either pushed by the script or named for the spender to supply, never both. */
  lemma VarPushedOrNamed(v: Variable)
    ensures OpcodesOf(VarScript(v)) == {}
    ensures PushCount(VarScript(v)) + |VarItems(v)| == 1
    ensures PushCount(VarScript(v)) == 1 <==> v.value.Some?
  {
    if v.value.Some? {
      assert VarScript(v)[1..] == [];
    }
  }

  /**
   * Which leaves compile, and with which error the others fail: signature
   * checks, preimage checks and bare variables always compile; a template
   * check needs its variable bound to bytes and a timelock to a time spec;
   * every other clause has no handler.
   */
  lemma LeafCompiles(leaf: Clause)
    ensures !leaf.IsHandled() ==> LeafScript(leaf) == Failure(CannotCompileArg)
    ensures leaf.SignatureCheckClause? || leaf.PreImageCheckClause? || leaf.Var? ==> LeafScript(leaf).Success?
    ensures leaf.CheckTemplateVerifyClause? ==>
              (LeafScript(leaf).Success? <==> leaf.template.value.Some? && leaf.template.value.value.Bytes?)
    ensures leaf.CheckTemplateVerifyClause? && LeafScript(leaf).Failure? ==> LeafScript(leaf).error == AssertionFailed
    ensures leaf.AfterClause? ==>
              (LeafScript(leaf).Success? <==>
                 leaf.time.value.Some? && (leaf.time.value.value.AbsoluteTime? || leaf.time.value.value.RelativeTime?))
    ensures leaf.AfterClause? && leaf.time.value.None? ==> LeafScript(leaf) == Failure(AssertionFailed)
    ensures leaf.AfterClause? && leaf.time.value.Some? && LeafScript(leaf).Failure? ==> LeafScript(leaf).error == ValueError
  {
  }

  /** The opcodes each kind of leaf contributes to its case. */
  lemma LeafOpcodes(leaf: Clause)
    requires LeafScript(leaf).Success?
    ensures leaf.SignatureCheckClause? ==> OpcodesOf(LeafScript(leaf).value) == {CheckSigVerify}
    ensures leaf.PreImageCheckClause? ==> OpcodesOf(LeafScript(leaf).value) == {Sha256, Equal}
    ensures leaf.CheckTemplateVerifyClause? ==> OpcodesOf(LeafScript(leaf).value) == {CheckTemplateVerify, Drop}
    ensures leaf.AfterClause? && leaf.time.value.value.AbsoluteTime? ==>
              OpcodesOf(LeafScript(leaf).value) == {CheckLockTimeVerify, Drop}
    ensures leaf.AfterClause? && leaf.time.value.value.RelativeTime? ==>
              OpcodesOf(LeafScript(leaf).value) == {CheckSequenceVerify, Drop}
    ensures leaf.Var? ==> OpcodesOf(LeafScript(leaf).value) == {}
    ensures NoFlow(LeafScript(leaf).value)
  {
    match leaf
    case SignatureCheckClause(key, signature) =>
      VarPushedOrNamed(key);
      VarPushedOrNamed(signature);
      OpcodesConcat(VarScript(signature), VarScript(key));
      OpcodesConcat(VarScript(signature) + VarScript(key), [Op(CheckSigVerify)]);
      OpcodesOne(Op(CheckSigVerify));
    case PreImageCheckClause(hash, preimage) =>
      VarPushedOrNamed(hash);
      VarPushedOrNamed(preimage);
      OpcodesConcat(VarScript(preimage), [Op(Sha256)]);
      OpcodesConcat(VarScript(preimage) + [Op(Sha256)], VarScript(hash));
      OpcodesConcat(VarScript(preimage) + [Op(Sha256)] + VarScript(hash), [Op(Equal)]);
      OpcodesOne(Op(Sha256));
      OpcodesOne(Op(Equal));
    case CheckTemplateVerifyClause(t) =>
      PushThenOps(Push(t.value.value), CheckTemplateVerify);
    case AfterClause(t) =>
      if t.value.value.AbsoluteTime? {
        PushThenOps(Push(Num(t.value.value.time)), CheckLockTimeVerify);
      } else {
        PushThenOps(Push(Num(t.value.value.time)), CheckSequenceVerify);
      }
    case Var(v) =>
      VarPushedOrNamed(v);
  }

  /** The shape of a template check or a timelock: one push, the check, then OP_DROP. */
  lemma PushThenOps(push: Item, check: Opcode)
    requires push.Push?
    ensures OpcodesOf([push, Op(check), Op(Drop)]) == {check, Drop}
    ensures PushCount([push, Op(check), Op(Drop)]) == 1
  {
    assert [push, Op(check), Op(Drop)] == [push] + [Op(check)] + [Op(Drop)];
    OpcodesOne(push);
    OpcodesOne(Op(check));
    OpcodesOne(Op(Drop));
    OpcodesConcat([push], [Op(check)]);
    OpcodesConcat([push] + [Op(check)], [Op(Drop)]);
    PushCountOne(push);
    PushCountOne(Op(check));
    PushCountOne(Op(Drop));
    PushCountConcat([push], [Op(check)]);
    PushCountConcat([push] + [Op(check)], [Op(Drop)]);
  }

  /**
   * Each variable slot of a compiled leaf is either pushed by its fragment
   * or left to the spender as an entry of the template, never both.
   */
  lemma LeafInputs(leaf: Clause)
    requires LeafScript(leaf).Success?
    ensures PushCount(LeafScript(leaf).value) + |LeafItems(leaf)| == Arity(leaf)
  {
    match leaf
    case SignatureCheckClause(key, signature) =>
      VarPushedOrNamed(key);
      VarPushedOrNamed(signature);
      PushCountConcat(VarScript(signature), VarScript(key));
      PushCountConcat(VarScript(signature) + VarScript(key), [Op(CheckSigVerify)]);
    case PreImageCheckClause(hash, preimage) =>
      VarPushedOrNamed(hash);
      VarPushedOrNamed(preimage);
      PushCountConcat(VarScript(preimage), [Op(Sha256)]);
      PushCountConcat(VarScript(preimage) + [Op(Sha256)], VarScript(hash));
      PushCountConcat(VarScript(preimage) + [Op(Sha256)] + VarScript(hash), [Op(Equal)]);
    case CheckTemplateVerifyClause(t) =>
      PushThenOps(Push(t.value.value), CheckTemplateVerify);
    case AfterClause(t) =>
      if t.value.value.AbsoluteTime? {
        PushThenOps(Push(Num(t.value.value.time)), CheckLockTimeVerify);
      } else {
        PushThenOps(Push(Num(t.value.value.time)), CheckSequenceVerify);
      }
    case Var(v) =>
      VarPushedOrNamed(v);
  }

  // ---------------------------------------------------------------------
  // Cases
  // ---------------------------------------------------------------------

  /** Every leaf of the case that compiles emits no flow control. */
  predicate StraightLine(outs: seq<Outcome>) {
    forall j :: 0 <= j < |outs| && outs[j].script.Success? ==> NoFlow(outs[j].script.value)
  }

  /**
   * A case compiles exactly when each of its leaves does; otherwise the
   * first leaf that fails decides the error.
   */
  lemma {:induction false} CaseScriptOutcome(outs: seq<Outcome>, nested: bool)
    ensures CaseScript(outs, nested).Success? <==> forall j :: 0 <= j < |outs| ==> outs[j].script.Success?
    ensures CaseScript(outs, nested).Failure? ==>
              exists j: nat :: FirstFailure(outs, j) && CaseScript(outs, nested).error == outs[j].script.error
    decreases |outs|
  {
    if outs != [] {
      var rest := outs[1..];
      CaseScriptOutcome(rest, nested);
      assert forall j :: 1 <= j < |outs| ==> outs[j] == rest[j - 1];
      if outs[0].script.Failure? {
        assert FirstFailure(outs, 0);
      } else if CaseScript(rest, nested).Failure? {
        var j: nat :| FirstFailure(rest, j) && CaseScript(rest, nested).error == rest[j].script.error;
        assert FirstFailure(outs, j + 1);
      }
    }
  }

  /** A case whose leaves emit no flow control is straight-line code itself. */
  lemma {:induction false} CaseNoFlow(outs: seq<Outcome>)
    requires StraightLine(outs) && CaseScript(outs, false).Success?
    ensures NoFlow(CaseScript(outs, false).value)
    decreases |outs|
  {
    if outs != [] {
      var rest := outs[1..];
      assert StraightLine(rest) by {
        forall j | 0 <= j < |rest| && rest[j].script.Success? ensures NoFlow(rest[j].script.value) {
          assert rest[j] == outs[j + 1];
        }
      }
      CaseNoFlow(rest);
      OpcodesConcat(outs[0].script.value, CaseScript(rest, false).value);
    }
  }

  // ---------------------------------------------------------------------
  // The program
  // ---------------------------------------------------------------------

  /** Case k, in compile's order, is the first case that fails. */
  predicate FirstFailingCase(outss: seq<seq<Outcome>>, k: nat, nested: bool) {
    && k < |outss| && CaseScript(outss[k], nested).Failure?
    && forall i :: 0 <= i < k ==> CaseScript(outss[i], nested).Success?
  }

  /** The generic layout's branches compile exactly when every case does; otherwise the first failing case decides. */
  lemma {:induction false} BranchesOutcome(outss: seq<seq<Outcome>>)
    ensures Branches(outss).Success? <==> forall k :: 0 <= k < |outss| ==> CaseScript(outss[k], false).Success?
    ensures Branches(outss).Failure? ==>
              exists k: nat :: FirstFailingCase(outss, k, false) && Branches(outss).error == CaseScript(outss[k], false).error
    decreases |outss|
  {
    if outss != [] {
      var rest := outss[1..];
      BranchesOutcome(rest);
      assert forall k :: 1 <= k < |outss| ==> outss[k] == rest[k - 1];
      if CaseScript(outss[0], false).Failure? {
        assert FirstFailingCase(outss, 0, false);
      } else if Branches(rest).Failure? {
        var k: nat :| FirstFailingCase(rest, k, false) && Branches(rest).error == CaseScript(rest[k], false).error;
        assert FirstFailingCase(outss, k + 1, false);
      }
    }
  }

  /** Every leaf of every case compiles. */
  predicate AllCompile(outss: seq<seq<Outcome>>) {
    forall k, j :: 0 <= k < |outss| && 0 <= j < |outss[k]| ==> outss[k][j].script.Success?
  }

  /** The cases are laid out as branches of OP_IF when there are exactly two of them. */
  function Nesting(outss: seq<seq<Outcome>>): bool {
    |outss| == 2
  }

  /**
   * compile succeeds exactly when every leaf of every case compiles; when it
   * fails, the error is that of the first failing leaf of the first failing
   * case.
   */
  lemma ProgramOutcome(outss: seq<seq<Outcome>>, v: Variant)
    ensures Program(outss, v).Success? <==> AllCompile(outss)
    ensures Program(outss, v).Failure? ==>
              exists k: nat, j: nat :: FirstFailingCase(outss, k, Nesting(outss)) && FirstFailure(outss[k], j)
                          && Program(outss, v).error == outss[k][j].script.error
  {
    var nested := Nesting(outss);
    forall k | 0 <= k < |outss| {
      CaseScriptOutcome(outss[k], nested);
    }
    var k: nat;
    if |outss| == 1 || |outss| == 2 {
      if Program(outss, v).Failure? {
        k := if CaseScript(outss[0], nested).Failure? then 0 else 1;
        assert FirstFailingCase(outss, k, nested);
      }
    } else {
      BranchesOutcome(outss);
      if Program(outss, v).Failure? {
        k :| FirstFailingCase(outss, k, false) && Branches(outss).error == CaseScript(outss[k], false).error;
      }
    }
    if Program(outss, v).Failure? {
      var j: nat :| FirstFailure(outss[k], j) && CaseScript(outss[k], nested).error == outss[k][j].script.error;
      assert Program(outss, v).error == outss[k][j].script.error;
    }
  }

  /**
   * The flow control each layout uses, given leaves that use none: a single
   * case none; two cases one OP_IF, OP_ELSE and OP_ENDIF; otherwise one
   * OP_NOTIF and one OP_ENDIF per case.
   */
  lemma ProgramFlow(outss: seq<seq<Outcome>>, v: Variant, op: Opcode)
    requires forall k :: 0 <= k < |outss| ==> StraightLine(outss[k])
    requires Program(outss, v).Success? && IsFlowControl(op)
    ensures |outss| == 1 ==> Count(Program(outss, v).value, op) == 0
    ensures |outss| == 2 ==> Count(Program(outss, v).value, op) == if op == NotIf then 0 else 1
    ensures |outss| >= 3 ==> Count(Program(outss, v).value, op) == if op == NotIf || op == EndIf then |outss| else 0
  {
    if |outss| == 1 {
      var f := CaseScript(outss[0], false).value;
      CaseNoFlow(outss[0]);
      SingleFlow(f, op);
    } else if |outss| == 2 {
      NestedFlow(CaseScript(outss[0], true).value, CaseScript(outss[1], true).value, op);
    } else {
      ManyFlow(outss, v, op);
    }
  }

  /** The one-case layout: the case's fragment, then a 1 left for the script to succeed. */
  lemma SingleFlow(f: Script, op: Opcode)
    requires NoFlow(f) && IsFlowControl(op)
    ensures Count(f + [Push(Num(1))], op) == 0
  {
    CountConcat(f, [Push(Num(1))], op);
    CountAbsent(f, op);
    CountOne(Push(Num(1)), op);
  }

  /** The two-case layout: one OP_IF, one OP_ELSE and one OP_ENDIF around the nested fragments. */
  lemma NestedFlow(a: Script, b: Script, op: Opcode)
    requires IsFlowControl(op)
    ensures Count([Op(If), Nested(a), Op(Else), Nested(b), Op(EndIf), Push(Num(1))], op) == if op == NotIf then 0 else 1
  {
    var s := [Op(If), Nested(a), Op(Else), Nested(b), Op(EndIf), Push(Num(1))];
    assert s[1..][1..][1..][1..][1..][1..] == [];
    assert Count(s[1..][1..][1..][1..][1..], op) == 0;
    assert Count(s[1..][1..][1..][1..], op) == if op == EndIf then 1 else 0;
    assert Count(s[1..][1..][1..], op) == if op == EndIf then 1 else 0;
    assert Count(s[1..][1..], op) == if op == EndIf || op == Else then 1 else 0;
  }

  lemma ManyFlow(outss: seq<seq<Outcome>>, v: Variant, op: Opcode)
    requires |outss| != 1 && |outss| != 2
    requires forall k :: 0 <= k < |outss| ==> StraightLine(outss[k])
    requires Program(outss, v).Success? && IsFlowControl(op)
    ensures Count(Program(outss, v).value, op) == if op == NotIf || op == EndIf then |outss| else 0
  {
    var bs := Branches(outss).value;
    BranchesFlow(outss, op);
    var check, tail := RangeFor(v, |outss|), TailFor(v);
    CountConcat(check, bs, op);
    CountConcat(check + bs, tail, op);
    RangeCheckFlow(if v == AsWritten then 0 else 1, |outss| + (if v == AsWritten then 0 else 1), op);
    TailFlow(v, op);
  }

  lemma RangeCheckFlow(lo: int, hi: int, op: Opcode)
    requires IsFlowControl(op)
    ensures Count(RangeCheck(lo, hi), op) == 0
  {
    var s := RangeCheck(lo, hi);
    assert OpcodesOf(s) == {Dup, Within, Verify} by {
      assert s[0].code == Dup && s[3].code == Within && s[4].code == Verify;
    }
    CountAbsent(s, op);
  }

  lemma TailFlow(v: Variant, op: Opcode)
    requires IsFlowControl(op)
    ensures Count(TailFor(v), op) == 0
  {
    if v == Corrected {
      assert OpcodesOf(Tail) == {Drop} by {
        assert Tail[0].code == Drop;
      }
      CountAbsent(Tail, op);
    }
  }

  lemma CountDownFlow(op: Opcode)
    requires IsFlowControl(op)
    ensures Count(CountDown, op) == 0 && Count(Taken, op) == 0
  {
    assert OpcodesOf(CountDown) == {SubOne, IfDup} by {
      assert CountDown[0].code == SubOne && CountDown[1].code == IfDup;
    }
    assert OpcodesOf(Taken) == {Zero} by {
      assert Taken[0].code == Zero;
    }
    CountAbsent(CountDown, op);
    CountAbsent(Taken, op);
  }

  lemma BranchFlow(f: Script, op: Opcode)
    requires NoFlow(f) && IsFlowControl(op)
    ensures Count(Branch(f), op) == if op == NotIf || op == EndIf then 1 else 0
  {
    CountAbsent(f, op);
    CountDownFlow(op);
    CountOne(Op(NotIf), op);
    CountOne(Op(EndIf), op);
    var p := CountDown + [Op(NotIf)];
    CountConcat(CountDown, [Op(NotIf)], op);
    CountConcat(p, f, op);
    CountConcat(p + f, Taken, op);
    CountConcat(p + f + Taken, [Op(EndIf)], op);
  }

  lemma {:induction false} BranchesFlow(outss: seq<seq<Outcome>>, op: Opcode)
    requires forall k :: 0 <= k < |outss| ==> StraightLine(outss[k])
    requires Branches(outss).Success? && IsFlowControl(op)
    ensures Count(Branches(outss).value, op) == if op == NotIf || op == EndIf then |outss| else 0
    decreases |outss|
  {
    if outss != [] {
      var rest := outss[1..];
      assert forall k :: 0 <= k < |rest| ==> rest[k] == outss[k + 1];
      BranchesFlow(rest, op);
      var f := CaseScript(outss[0], false).value;
      CaseNoFlow(outss[0]);
      BranchFlow(f, op);
      CountConcat(Branch(f), Branches(rest).value, op);
    }
  }

  /** The leaves of cases compiled with the variables as they are emit no flow control. */
  lemma CasesStraightLine(cases: seq<seq<Clause>>)
    ensures forall k :: 0 <= k < |cases| ==> StraightLine(CasesOutcomes(cases)[k])
  {
    forall k, j | 0 <= k < |cases| && 0 <= j < |cases[k]| && LeafScript(cases[k][j]).Success? {
      LeafOpcodes(cases[k][j]);
    }
  }
}
