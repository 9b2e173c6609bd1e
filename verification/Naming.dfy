/** Consumer tags: the client's own, or one generated from the channel id and the number of its consumers. */
module Naming {
  function Decimal(n: nat): string {
    if n < 10 then [Digit(n)] else Decimal(n / 10) + [Digit(n % 10)]
  }

  function Digit(d: nat): char
    requires d < 10
  {
    ('0' as int + d) as char
  }

  /** The consumer tag to use: the client's, or one numbered after the channel's `n` consumers. */
  function ConsumerTag(id: nat, n: nat, tag: string): string {
    if tag == "" then "ch." + Decimal(id) + ".consumer." + Decimal(n + 1) else tag
  }

  predicate IsDigit(c: char) {
    '0' <= c <= '9'
  }

  /** The number that a string of digits writes. */
  function Number(s: string): int {
    if s == "" then 0 else 10 * Number(s[..|s| - 1]) + (s[|s| - 1] as int - '0' as int)
  }

  lemma {:induction false} DecimalRoundTrip(n: nat)
    ensures Number(Decimal(n)) == n
    ensures forall i :: 0 <= i < |Decimal(n)| ==> IsDigit(Decimal(n)[i])
  {
    var s := Decimal(n);
    if n < 10 {
      assert s[..0] == "";
    } else {
      DecimalRoundTrip(n / 10);
      assert s[..|s| - 1] == Decimal(n / 10);
    }
  }

  /** Digits end where something else begins. */
  lemma SameDigits(a: string, b: string, x: string, y: string)
    requires a + x == b + y && x != "" && y != "" && !IsDigit(x[0]) && !IsDigit(y[0])
    requires forall i :: 0 <= i < |a| ==> IsDigit(a[i])
    requires forall i :: 0 <= i < |b| ==> IsDigit(b[i])
    ensures a == b && x == y
  {
    assert (a + x)[|a|] == x[0] && (b + y)[|b|] == y[0];
    assert (a + x)[..|a|] == a && (b + y)[..|b|] == b;
    assert (a + x)[|a|..] == x && (b + y)[|b|..] == y;
  }

  lemma AfterPrefix(id: nat, n: nat)
    ensures ConsumerTag(id, n, "")[3..] == Decimal(id) + (".consumer." + Decimal(n + 1))
  {
  }

  /** Generated tags tell apart both the channel and the number of its consumers. */
  lemma GeneratedTagsDiffer(id: nat, n: nat, id': nat, n': nat)
    ensures ConsumerTag(id, n, "") == ConsumerTag(id', n', "") <==> id == id' && n == n'
  {
    if ConsumerTag(id, n, "") == ConsumerTag(id', n', "") {
      var x, y := ".consumer." + Decimal(n + 1), ".consumer." + Decimal(n' + 1);
      AfterPrefix(id, n);
      AfterPrefix(id', n');
      DecimalRoundTrip(id);
      DecimalRoundTrip(id');
      SameDigits(Decimal(id), Decimal(id'), x, y);
      assert x[10..] == Decimal(n + 1) && y[10..] == Decimal(n' + 1);
      DecimalRoundTrip(n + 1);
      DecimalRoundTrip(n' + 1);
    }
  }
}
