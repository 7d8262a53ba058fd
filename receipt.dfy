/**
 * Receipt numbers of balance payments: the text "BP-" followed by the
 * creation timestamp (milliseconds since the epoch) written in decimal,
 * as a JavaScript template literal renders a millisecond timestamp.
 */
module Receipt {
  import opened Options

  const Prefix: string := "BP-"

  predicate IsDigit(c: char) {
    '0' <= c <= '9'
  }

  function Digit(d: nat): (c: char)
    requires d < 10
    ensures IsDigit(c) && c as int - '0' as int == d
  {
    ('0' as int + d) as char
  }

  /** The decimal rendering of n: most significant digit first, no leading zeros. */
  function Decimal(n: nat): (s: string)
    ensures 1 <= |s|
    ensures forall i | 0 <= i < |s| :: IsDigit(s[i])
    ensures |s| > 1 ==> s[0] != '0'
  {
    if n < 10 then [Digit(n)] else Decimal(n / 10) + [Digit(n % 10)]
  }

  /** The number a string of decimal digits denotes. */
  function DecimalValue(s: string): nat
    requires forall i | 0 <= i < |s| :: IsDigit(s[i])
  {
    if s == [] then 0
    else
      assert IsDigit(s[|s| - 1]);
      10 * DecimalValue(s[..|s| - 1]) + (s[|s| - 1] as int - '0' as int)
  }

  lemma {:induction false} DecimalRoundTrip(n: nat)
    ensures DecimalValue(Decimal(n)) == n
  {
    var s := Decimal(n);
    if n >= 10 {
      assert s[..|s| - 1] == Decimal(n / 10);
      DecimalRoundTrip(n / 10);
    }
  }

  /** The receipt number generated for a payment created at time `now`. */
  function ReceiptNo(now: nat): (r: string)
    ensures |r| > |Prefix| && r[..|Prefix|] == Prefix
  {
    Prefix + Decimal(now)
  }

  /** Reads back the timestamp of a receipt number; None for text of another shape. */
  function ReceiptTime(r: string): (t: Option<nat>)
    ensures t.Some? ==> |r| > |Prefix| && r[..|Prefix|] == Prefix
  {
    if |r| > |Prefix| && r[..|Prefix|] == Prefix && forall i | |Prefix| <= i < |r| :: IsDigit(r[i])
    then Some(DecimalValue(r[|Prefix|..]))
    else None
  }

  lemma ReceiptRoundTrip(now: nat)
    ensures ReceiptTime(ReceiptNo(now)) == Some(now)
  {
    var r := ReceiptNo(now);
    assert r[|Prefix|..] == Decimal(now);
    DecimalRoundTrip(now);
  }

  /** Payments created at different instants get different receipt numbers. */
  lemma ReceiptNoInjective(a: nat, b: nat)
    requires a != b
    ensures ReceiptNo(a) != ReceiptNo(b)
  {
    ReceiptRoundTrip(a);
    ReceiptRoundTrip(b);
  }
}
