/** The 16-byte prefix of every benchmark body: sequence number and send time, big-endian. */
module Header {
  import P = Placement
  import opened Topology

  type Byte = x: int | 0 <= x < 256
  type Uint64 = x: int | 0 <= x < 0x1_0000_0000_0000_0000
  type Int64 = x: int | -0x8000_0000_0000_0000 <= x < 0x8000_0000_0000_0000

  const TWO64 := 0x1_0000_0000_0000_0000

  /** The two's complement conversions between the 64-bit types. */
  function ToUnsigned(x: Int64): Uint64 {
    if x < 0 then x + TWO64 else x
  }

  /** The last `k` base-256 digits of `n`, most significant first. */
  function Digits(n: nat, k: nat): (r: seq<Byte>)
    ensures |r| == k
  {
    if k == 0 then [] else Digits(n / 256, k - 1) + [n % 256]
  }

  function Number(s: seq<Byte>): nat {
    if s == [] then 0 else Number(s[..|s| - 1]) * 256 + s[|s| - 1]
  }

  function Power(k: nat): (r: nat)
    ensures r > 0
  {
    if k == 0 then 1 else 256 * Power(k - 1)
  }

  lemma {:induction false} NumberOfDigits(n: nat, k: nat)
    requires n < Power(k)
    ensures Number(Digits(n, k)) == n
  {
    if k > 0 {
      NumberOfDigits(n / 256, k - 1);
      assert Digits(n, k)[..k - 1] == Digits(n / 256, k - 1);
    }
  }

  lemma EightBytes(n: Uint64)
    ensures Number(Digits(n, 8)) == n && Power(8) == TWO64
  {
    assert Power(2) == 0x1_0000;
    assert Power(4) == 0x1_0000_0000;
    assert Power(6) == 0x1_0000_0000_0000;
    assert Power(8) == TWO64;
    NumberOfDigits(n, 8);
  }

  lemma DivTwice(n: nat, p: nat)
    requires p > 0
    ensures n / 256 / p == n / (256 * p)
  {
    var q, a, b := n / 256 / p, n / 256 % p, n % 256;
    assert n == 256 * (p * q + a) + b;
    assert 256 * (p * q + a) == 256 * p * q + 256 * a && 256 * a + b < 256 * p;
    P.DivModUnique(n, 256 * p, q, 256 * a + b);
  }

  /** The digit at position `i` is the one worth 256 to the power of the positions after it. */
  lemma {:induction false} DigitAt(n: nat, k: nat, i: nat)
    requires i < k
    ensures Digits(n, k)[i] == n / Power(k - 1 - i) % 256
  {
    if i < k - 1 {
      DigitAt(n / 256, k - 1, i);
      DivTwice(n, Power(k - 2 - i));
    }
  }

  /** Writes `v` as eight big-endian bytes at `at`. */
  method PutUint64(body: array<Byte>, at: nat, v: Uint64)
    requires at + 8 <= body.Length
    modifies body
    ensures body[..] == old(body[..at]) + Digits(v, 8) + old(body[at + 8..])
  {
    var rest, i := v, 8;
    while i > 0
      invariant 0 <= i <= 8 && rest >= 0
      invariant body[..at + i] == old(body[..at + i]) && body[at + 8..] == old(body[at + 8..])
      invariant Digits(rest, i) + body[at + i..at + 8] == Digits(v, 8)
    {
      ghost var tail := body[at + i..at + 8];
      i := i - 1;
      body[at + i] := rest % 256;
      assert body[at + i..at + 8] == [rest % 256] + tail;
      assert Digits(rest, i + 1) + tail == Digits(rest / 256, i) + ([rest % 256] + tail);
      rest := rest / 256;
    }
    assert body[..] == body[..at] + body[at..at + 8] + body[at + 8..];
  }

  /** The header bytes for a sequence number and a send time. */
  function HeaderBytes(n: Uint64, nanos: Int64): seq<Byte> {
    Digits(n, 8) + Digits(ToUnsigned(nanos), 8)
  }

  /** Big-endian: the number in the first eight bytes, the send time modulo two to the 64 in the next eight. */
  lemma HeaderLayout(n: Uint64, nanos: Int64, i: nat)
    requires i < 8
    ensures |HeaderBytes(n, nanos)| == HEADER_LEN == 16
    ensures HeaderBytes(n, nanos)[i] == n / Power(7 - i) % 256
    ensures HeaderBytes(n, nanos)[8 + i] == nanos % TWO64 / Power(7 - i) % 256
  {
    EightDigits(n, i);
    EightDigits(ToUnsigned(nanos), i);
    UnsignedIsModulo(nanos);
  }

  lemma EightDigits(n: nat, i: nat)
    requires i < 8
    ensures Digits(n, 8)[i] == n / Power(7 - i) % 256
  {
    DigitAt(n, 8, i);
  }

  lemma UnsignedIsModulo(x: Int64)
    ensures ToUnsigned(x) == x % TWO64
  {
  }

  method EncodeHeader(body: array<Byte>, n: Uint64, nanos: Int64)
    requires body.Length >= HEADER_LEN
    modifies body
    ensures body[..] == HeaderBytes(n, nanos) + old(body[HEADER_LEN..])
  {
    PutUint64(body, 0, n);
    ghost var mid := body[..];
    assert mid == Digits(n, 8) + old(body[8..]);
    PutUint64(body, 8, ToUnsigned(nanos));
    assert mid[..8] == Digits(n, 8) && mid[16..] == old(body[HEADER_LEN..]);
  }

  function DecodeHeader(body: seq<Byte>): (r: (nat, int)) {
    if |body| < HEADER_LEN then (0, 0)
    else (Number(body[..8]), Signed(Number(body[8..16])))
  }

  function Signed(x: nat): int {
    if x >= 0x8000_0000_0000_0000 then x - TWO64 else x
  }

  /** What a consumer decodes is what the publisher stamped, whatever payload follows. */
  lemma HeaderRoundTrip(n: Uint64, nanos: Int64, payload: seq<Byte>)
    ensures DecodeHeader(HeaderBytes(n, nanos) + payload) == (n, nanos)
  {
    var body := HeaderBytes(n, nanos) + payload;
    EightBytes(n);
    EightBytes(ToUnsigned(nanos));
    assert body[..8] == Digits(n, 8);
    assert body[8..16] == Digits(ToUnsigned(nanos), 8);
  }

  lemma {:induction false} DigitsOfNumber(s: seq<Byte>)
    ensures Number(s) < Power(|s|) && Digits(Number(s), |s|) == s
  {
    if s != [] {
      DigitsOfNumber(s[..|s| - 1]);
    }
  }

  /** Every body long enough to hold a header is what encoding its decoded header gives. */
  lemma HeaderDetermined(body: seq<Byte>)
    requires |body| >= HEADER_LEN
    ensures var (n, nanos) := DecodeHeader(body);
            && n < TWO64 && -0x8000_0000_0000_0000 <= nanos < 0x8000_0000_0000_0000
            && HeaderBytes(n, nanos) == body[..HEADER_LEN]
  {
    EightBytes(0);
    DigitsOfNumber(body[..8]);
    DigitsOfNumber(body[8..16]);
    assert body[..16] == body[..8] + body[8..16];
  }
}
