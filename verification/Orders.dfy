/** Payment order ids: `HM-` or `HMF-` followed by the upper-cased task UUID. */
module Orders {

  predicate IsUuidChar(c: char) {
    '0' <= c <= '9' || 'a' <= c <= 'f' || c == '-'
  }

  /** The alphabet and length of a generated task id. */
  predicate IsUuid(s: string) {
    |s| == 36 && forall i :: 0 <= i < |s| ==> IsUuidChar(s[i])
  }

  function UpperChar(c: char): char {
    if 'a' <= c <= 'z' then (c as int - 32) as char else c
  }

  function Upper(s: string): string {
    seq(|s|, i requires 0 <= i < |s| => UpperChar(s[i]))
  }

  function EscrowOrder(uuid: string): string {
    "HM-" + Upper(uuid)
  }

  function FeeOrder(uuid: string): string {
    "HMF-" + Upper(uuid)
  }

  /** The upper-cased text of a UUID: each letter by its capital, the rest as it is. */
  lemma UpperIs(s: string)
    requires IsUuid(s)
    ensures |Upper(s)| == 36
    ensures forall i :: 0 <= i < 36 ==>
              Upper(s)[i] == match s[i]
                             case 'a' => 'A' case 'b' => 'B' case 'c' => 'C'
                             case 'd' => 'D' case 'e' => 'E' case 'f' => 'F'
                             case other => other
  {
    assert forall i :: 0 <= i < |s| ==> IsUuidChar(s[i]);
  }

  lemma UpperInjective(a: string, b: string)
    requires IsUuid(a) && IsUuid(b) && Upper(a) == Upper(b)
    ensures a == b
  {
    forall i | 0 <= i < |a| ensures a[i] == b[i] {
      assert Upper(a)[i] == UpperChar(a[i]) && Upper(b)[i] == UpperChar(b[i]);
      assert IsUuidChar(a[i]) && IsUuidChar(b[i]);
    }
  }

  /** An order id names one task and one kind of payment. */
  lemma OrdersRoute(a: string, b: string)
    requires IsUuid(a) && IsUuid(b)
    ensures EscrowOrder(a) == EscrowOrder(b) <==> a == b
    ensures FeeOrder(a) == FeeOrder(b) <==> a == b
    ensures EscrowOrder(a) != FeeOrder(b)
  {
    assert EscrowOrder(a)[2] == '-' && FeeOrder(b)[2] == 'F';
    if EscrowOrder(a) == EscrowOrder(b) {
      assert EscrowOrder(a)[3..] == Upper(a) && EscrowOrder(b)[3..] == Upper(b);
      UpperInjective(a, b);
    }
    if FeeOrder(a) == FeeOrder(b) {
      assert FeeOrder(a)[4..] == Upper(a) && FeeOrder(b)[4..] == Upper(b);
      UpperInjective(a, b);
    }
  }
}
