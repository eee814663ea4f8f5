/**
 * Decimal rendering of counters and the names that `Variable.sub_variable`
 * builds from them: `name + "_" + str(k) + "_" + purpose`.
 */
module Names {

  function DigitChar(d: nat): (c: char)
    requires d < 10
    ensures '0' <= c <= '9'
  {
    ('0' as int + d) as char
  }

  /** The value of a decimal digit character. */
  function DigitValue(c: char): nat
    requires '0' <= c <= '9'
  {
    c as int - '0' as int
  }

  /** Python's `str(n)` for a non-negative integer: decimal, no leading zeros. */
  function NatToString(n: nat): (s: string)
    ensures |s| >= 1
    ensures forall i :: 0 <= i < |s| ==> '0' <= s[i] <= '9'
    ensures |s| > 1 ==> s[0] != '0'
    decreases n
  {
    if n < 10 then [DigitChar(n)] else NatToString(n / 10) + [DigitChar(n % 10)]
  }

  /** Reads a string of decimal digits back as a number. */
  function DecimalValue(s: string): nat
    requires forall i :: 0 <= i < |s| ==> '0' <= s[i] <= '9'
    decreases |s|
  {
    if s == [] then 0 else DecimalValue(s[..|s| - 1]) * 10 + DigitValue(s[|s| - 1])
  }

  /** Reading the rendering back gives the number: the rendering loses nothing. */
  lemma {:induction false} DecimalValueOfNatToString(n: nat)
    ensures DecimalValue(NatToString(n)) == n
    decreases n
  {
    var s := NatToString(n);
    if n >= 10 {
      DecimalValueOfNatToString(n / 10);
      assert s[..|s| - 1] == NatToString(n / 10);
    }
  }

  lemma NatToStringInjective(a: nat, b: nat)
    ensures NatToString(a) == NatToString(b) <==> a == b
  {
    DecimalValueOfNatToString(a);
    DecimalValueOfNatToString(b);
  }

  /** The name of the sub-variable with counter `k` and the given purpose. */
  function SubVariableName(name: string, k: nat, purpose: string): (s: string)
    ensures |s| == |name| + |NatToString(k)| + 1 + |purpose| + 1
  {
    name + "_" + NatToString(k) + "_" + purpose
  }

  /**
   * Two sub-variables of one variable get the same name exactly when they
   * have the same counter and the same purpose: the counter's digits contain
   * no underscore, so the underscore after them marks where they end.
   */
  lemma SubVariableNamesInjective(name: string, k1: nat, p1: string, k2: nat, p2: string)
    ensures SubVariableName(name, k1, p1) == SubVariableName(name, k2, p2) <==> k1 == k2 && p1 == p2
  {
    var d1, d2 := NatToString(k1), NatToString(k2);
    var u1, u2 := SubVariableName(name, k1, p1), SubVariableName(name, k2, p2);
    var off := |name| + 1;
    assert u1[off..] == d1 + "_" + p1 && u2[off..] == d2 + "_" + p2;
    if |d1| < |d2| {
      assert u1[off + |d1|] == '_' != u2[off + |d1|];
    } else if |d2| < |d1| {
      assert u2[off + |d2|] == '_' != u1[off + |d2|];
    } else if k1 != k2 {
      NatToStringInjective(k1, k2);
      assert u1[off..off + |d1|] == d1 && u2[off..off + |d2|] == d2;
    } else if p1 != p2 {
      assert u1[off + |d1| + 1..] == p1 && u2[off + |d2| + 1..] == p2;
    }
  }
}
