/**
 * An abstract view of the bitcoin scripts the compiler emits. A script is a
 * sequence of pushes, opcodes and nested scripts; how these are serialised
 * to bytes is not part of this model.
 */
module Scripts {

  /** Values a Variable can be bound to: byte strings (keys, hashes, templates), integers and time specs. */
  datatype Value =
    | Bytes(bytes: seq<bv8>)
    | Num(n: int)
    | AbsoluteTime(time: int)
    | RelativeTime(time: int)

  /** The opcodes the compiler uses. */
  datatype Opcode =
    | CheckSigVerify | Sha256 | Equal | CheckTemplateVerify | Drop
    | CheckLockTimeVerify | CheckSequenceVerify
    | If | Else | EndIf | NotIf | IfDup | Dup | Within | Verify | SubOne | Zero

  /** A script element: a pushed value, an opcode, or a script placed inside another one. */
  datatype Item = Push(value: Value) | Op(code: Opcode) | Nested(script: seq<Item>)

  type Script = seq<Item>

  /** Opcodes that open, switch or close a conditional block. */
  predicate IsFlowControl(op: Opcode) {
    op.If? || op.Else? || op.EndIf? || op.NotIf?
  }

  /** The opcodes that occur at the top level of a script. */
  function OpcodesOf(s: Script): set<Opcode> {
    set i | 0 <= i < |s| && s[i].Op? :: s[i].code
  }

  /** How many times `op` occurs at the top level of a script. */
  function Count(s: Script, op: Opcode): nat
    decreases |s|
  {
    if s == [] then 0 else (if s[0] == Op(op) then 1 else 0) + Count(s[1..], op)
  }

  lemma {:induction false} CountConcat(s: Script, t: Script, op: Opcode)
    ensures Count(s + t, op) == Count(s, op) + Count(t, op)
    decreases |s|
  {
    if s != [] {
      assert (s + t)[1..] == s[1..] + t;
      CountConcat(s[1..], t, op);
    } else {
      assert s + t == t;
    }
  }

  lemma {:induction false} CountAbsent(s: Script, op: Opcode)
    requires op !in OpcodesOf(s)
    ensures Count(s, op) == 0
    decreases |s|
  {
    if s != [] {
      assert OpcodesOf(s[1..]) <= OpcodesOf(s) by {
        forall o | o in OpcodesOf(s[1..]) ensures o in OpcodesOf(s) {
          var i :| 0 <= i < |s[1..]| && s[1..][i].Op? && s[1..][i].code == o;
          assert s[i + 1] == s[1..][i];
        }
      }
      assert s[0] != Op(op) by {
        if s[0].Op? { assert s[0].code in OpcodesOf(s); }
      }
      CountAbsent(s[1..], op);
    }
  }

  /** The opcodes of two scripts put together are those of each. */
  lemma {:induction false} OpcodesConcat(s: Script, t: Script)
    ensures OpcodesOf(s + t) == OpcodesOf(s) + OpcodesOf(t)
  {
    forall o | o in OpcodesOf(s + t) ensures o in OpcodesOf(s) + OpcodesOf(t) {
      var i :| 0 <= i < |s + t| && (s + t)[i].Op? && (s + t)[i].code == o;
      if i < |s| {
        assert s[i] == (s + t)[i];
      } else {
        assert t[i - |s|] == (s + t)[i];
      }
    }
    forall o | o in OpcodesOf(s) + OpcodesOf(t) ensures o in OpcodesOf(s + t) {
      if o in OpcodesOf(s) {
        var i :| 0 <= i < |s| && s[i].Op? && s[i].code == o;
        assert (s + t)[i] == s[i];
      } else {
        var i :| 0 <= i < |t| && t[i].Op? && t[i].code == o;
        assert (s + t)[|s| + i] == t[i];
      }
    }
  }

  /** The opcodes of a one-element script. */
  lemma OpcodesOne(it: Item)
    ensures OpcodesOf([it]) == if it.Op? then {it.code} else {}
  {
    assert [it][0] == it;
  }

  lemma CountOne(it: Item, op: Opcode)
    ensures Count([it], op) == if it == Op(op) then 1 else 0
  {
    assert [it][1..] == [];
  }

  /** How many values a script pushes at its top level. */
  function PushCount(s: Script): nat
    decreases |s|
  {
    if s == [] then 0 else (if s[0].Push? then 1 else 0) + PushCount(s[1..])
  }

  lemma PushCountOne(it: Item)
    ensures PushCount([it]) == if it.Push? then 1 else 0
  {
    assert [it][1..] == [];
  }

  lemma {:induction false} PushCountConcat(s: Script, t: Script)
    ensures PushCount(s + t) == PushCount(s) + PushCount(t)
    decreases |s|
  {
    if s != [] {
      assert (s + t)[1..] == s[1..] + t;
      PushCountConcat(s[1..], t);
    } else {
      assert s + t == t;
    }
  }

  /**
   * `Dup lo hi Within Verify`: stops the script unless the item on top of the
   * stack, x, satisfies lo <= x < hi (OP_WITHIN is inclusive below and
   * exclusive above), and leaves x in place.
   */
  function RangeCheck(lo: int, hi: int): Script {
    [Op(Dup), Push(Num(lo)), Push(Num(hi)), Op(Within), Op(Verify)]
  }
}
