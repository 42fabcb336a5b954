/** The text that names an operation: the clerk's id and its operation counter, in decimal. */
module Uuids {

  function Digit(d: nat): char
    requires d < 10
  {
    ('0' as int + d) as char
  }

  /** strconv.Itoa on the numbers that occur here. */
  function Itoa(n: nat): (s: string)
    ensures s != [] && forall i :: 0 <= i < |s| ==> '0' <= s[i] <= '9'
  {
    if n < 10 then [Digit(n)] else Itoa(n / 10) + [Digit(n % 10)]
  }

  function Uuid(id: nat, cnt: nat): string {
    Itoa(id) + "_" + Itoa(cnt)
  }

  function Value(s: string): int {
    if s == [] then 0 else 10 * Value(s[..|s| - 1]) + (s[|s| - 1] as int - '0' as int)
  }

  lemma {:induction false} ItoaValue(n: nat)
    ensures Value(Itoa(n)) == n
  {
    if n >= 10 {
      ItoaValue(n / 10);
      assert Itoa(n)[..|Itoa(n)| - 1] == Itoa(n / 10);
    } else {
      assert Itoa(n)[..0] == [];
    }
  }

  /** The first underscore of the text stands right after the id. */
  lemma FirstUnderscore(id: nat, cnt: nat)
    ensures
      var s, k := Uuid(id, cnt), |Itoa(id)|;
      k < |s| && s[k] == '_' && (forall i :: 0 <= i < k ==> s[i] != '_')
      && s[..k] == Itoa(id) && s[k + 1..] == Itoa(cnt)
  {
    assert forall i :: 0 <= i < |Itoa(id)| ==> Uuid(id, cnt)[i] == Itoa(id)[i];
  }

  /** Different ids or counters give different texts. */
  lemma UuidInjective(a: nat, b: nat, c: nat, d: nat)
    requires Uuid(a, b) == Uuid(c, d)
    ensures a == c && b == d
  {
    FirstUnderscore(a, b);
    FirstUnderscore(c, d);
    assert |Itoa(a)| == |Itoa(c)|;
    ItoaValue(a);
    ItoaValue(b);
    ItoaValue(c);
    ItoaValue(d);
  }
}
