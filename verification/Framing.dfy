/** Length framing of hashed fields: `frame` of backend/internal/repository/audit_repo.go. */
module Framing {
  type byte = n: int | 0 <= n < 256
  type Bytes = seq<byte>

  // A Go slice is shorter than 2^63 bytes.
  const MAX_LENGTH := 0x8000_0000_0000_0000

  ghost predicate Sized(b: Bytes) { |b| < MAX_LENGTH }

  function Digits(n: nat, k: nat): (b: Bytes)
    ensures |b| == k
    decreases k
  {
    if k == 0 then [] else Digits(n / 256, k - 1) + [n % 256]
  }

  // binary.BigEndian.PutUint64: the low `width` bytes of a length, width being 8.
  function Header(length: nat, width: nat): (b: Bytes)
    ensures |b| == width
  {
    Digits(length % 0x1_0000_0000_0000_0000, width)
  }

  const WIDTH: nat := 8

  function Frame(b: Bytes): Bytes {
    Header(|b|, WIDTH) + b
  }

  function Encode(fields: seq<Bytes>): Bytes {
    if fields == [] then [] else Frame(fields[0]) + Encode(fields[1..])
  }

  function Value(b: Bytes): nat {
    if b == [] then 0 else Value(b[..|b| - 1]) * 256 + b[|b| - 1]
  }

  function Power(k: nat): nat {
    if k == 0 then 1 else 256 * Power(k - 1)
  }

  lemma {:induction false} DigitsRoundTrip(n: nat, k: nat)
    requires n < Power(k)
    ensures Value(Digits(n, k)) == n
    decreases k
  {
    if k > 0 {
      DigitsRoundTrip(n / 256, k - 1);
      assert Digits(n, k)[..k - 1] == Digits(n / 256, k - 1);
    }
  }

  lemma PowerStep(k: nat)
    ensures Power(k + 2) == 65536 * Power(k)
  {}

  lemma PowerOfWidth(width: nat)
    requires width == 8
    ensures Power(width) == 0x1_0000_0000_0000_0000
  {
    PowerStep(width - 2);
    PowerStep(width - 4);
    PowerStep(width - 6);
    PowerStep(width - 8);
  }

  lemma SmallRemainder(n: nat, m: nat)
    requires n < m
    ensures n % m == n
  {}

  lemma HeaderDigits(n: nat, width: nat)
    requires n < MAX_LENGTH
    ensures Header(n, width) == Digits(n, width)
  {
    SmallRemainder(n, 0x1_0000_0000_0000_0000);
  }

  lemma HeaderRoundTrip(n: nat, width: nat)
    requires width == 8 && n < MAX_LENGTH
    ensures Value(Header(n, width)) == n
  {
    assert n < Power(width) by { PowerOfWidth(width); }
    HeaderDigits(n, width);
    DigitsRoundTrip(n, width);
  }

  lemma LengthIsReadable(b: Bytes)
    requires Sized(b)
    ensures |Frame(b)| == 8 + |b| && Value(Frame(b)[..8]) == |b| && Frame(b)[8..] == b
  {
    HeaderRoundTrip(|b|, WIDTH);
    assert Frame(b)[..8] == Header(|b|, WIDTH);
  }

  // Field boundaries are unambiguous: two field lists with one encoding are equal.
  lemma {:induction false} EncodingIsInjective(a: seq<Bytes>, b: seq<Bytes>)
    requires |a| == |b|
    requires forall i :: 0 <= i < |a| ==> Sized(a[i]) && Sized(b[i])
    requires Encode(a) == Encode(b)
    ensures a == b
    decreases |a|
  {
    if a != [] {
      LengthIsReadable(a[0]);
      LengthIsReadable(b[0]);
      var (ea, eb) := (Encode(a), Encode(b));
      assert ea[..8] == Frame(a[0])[..8] && eb[..8] == Frame(b[0])[..8];
      var n := |a[0]|;
      assert ea[8..8 + n] == a[0] && eb[8..8 + n] == b[0];
      assert ea[8 + n..] == Encode(a[1..]) && eb[8 + n..] == Encode(b[1..]);
      EncodingIsInjective(a[1..], b[1..]);
      assert a == [a[0]] + a[1..] && b == [b[0]] + b[1..];
    }
  }
}
