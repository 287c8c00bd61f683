/** Bytes and fixed-width big-endian numbers. */
module Bytes {

  type Byte = x: int | 0 <= x < 256

  function Pow(width: nat): (p: nat)
    ensures p > 0
  {
    if width == 0 then 1 else 256 * Pow(width - 1)
  }

  /** `n` in `width` bytes, most significant first. */
  function Put(n: nat, width: nat): (b: seq<Byte>)
    requires n < Pow(width)
    ensures |b| == width
  {
    if width == 0 then [] else Put(n / 256, width - 1) + [n % 256]
  }

  function Get(b: seq<Byte>): (n: nat)
    ensures n < Pow(|b|)
  {
    if b == [] then 0 else Get(b[..|b| - 1]) * 256 + b[|b| - 1]
  }

  lemma {:induction false} GetPut(n: nat, width: nat)
    requires n < Pow(width)
    ensures Get(Put(n, width)) == n
  {
    if width > 0 {
      GetPut(n / 256, width - 1);
      assert Put(n, width)[..width - 1] == Put(n / 256, width - 1);
    }
  }

  /** Bytes are the digits of the number that they spell. */
  lemma {:induction false} PutGet(b: seq<Byte>)
    ensures Put(Get(b), |b|) == b
  {
    if b != [] {
      PutGet(b[..|b| - 1]);
      assert Get(b) / 256 == Get(b[..|b| - 1]) && Get(b) % 256 == b[|b| - 1];
    }
  }

  /** The first byte counts most. */
  lemma {:induction false} FirstByteLeads(b: seq<Byte>)
    requires b != []
    ensures Get(b) == b[0] * Pow(|b| - 1) + Get(b[1..])
  {
    var n := |b| - 1;
    if n == 0 {
      assert b[..0] == [] && b[1..] == [];
    } else {
      FirstByteLeads(b[..n]);
      assert b[..n][1..] == b[1..][..n - 1] && b[1..][n - 1] == b[n];
      Shifted(b[0], n);
    }
  }

  lemma Shifted(digit: int, n: nat)
    requires n > 0
    ensures digit * Pow(n - 1) * 256 == digit * Pow(n)
  {
  }

  lemma Widths()
    ensures Pow(4) == 0x1_0000_0000 && Pow(8) == 0x1_0000_0000_0000_0000
  {
    assert Pow(1) == 256 && Pow(2) == 65536 && Pow(3) == 16777216;
    assert Pow(4) == 256 * Pow(3);
    assert Pow(5) == 256 * Pow(4) && Pow(6) == 256 * Pow(5) && Pow(7) == 256 * Pow(6) && Pow(8) == 256 * Pow(7);
  }
}
