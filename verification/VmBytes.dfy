/** Numbers as little-endian bytes. */
module VmBytes {

  lemma NextByte(b: bv8)
    requires b != 255
    ensures (b + 1) as nat == b as nat + 1
  {
  }

  lemma LastByte(b: bv8)
    ensures b as nat == 255 <==> b == 255
  {
  }

  /** The byte of value n. */
  function ByteOf(n: nat): (b: bv8)
    requires n < 256
    ensures b as nat == n
  {
    if n == 0 then 0
    else
      var b := ByteOf(n - 1);
      LastByte(b);
      NextByte(b);
      b + 1
  }

  /** The w low bytes of n, lowest first. */
  function Bytes(n: nat, w: nat): (r: seq<bv8>)
    ensures |r| == w
  {
    if w == 0 then [] else [ByteOf(n % 256)] + Bytes(n / 256, w - 1)
  }

  /** n fits w bytes. */
  predicate Fits(n: nat, w: nat) {
    if w == 0 then n == 0 else Fits(n / 256, w - 1)
  }

  lemma FitsTwo(n: nat)
    requires n < 0x1_0000
    ensures Fits(n, 2)
  {
    assert Fits(n / 256 / 256, 0);
    assert Fits(n / 256, 1);
  }

  lemma FitsTwice(n: nat, w: nat)
    requires Fits(n / 0x1_0000, w)
    ensures Fits(n, w + 2)
  {
    assert n / 256 / 256 == n / 0x1_0000;
    assert Fits(n / 256, w + 1);
  }

  lemma FitsFour(n: nat)
    requires n < 0x1_0000_0000
    ensures Fits(n, 4)
  {
    FitsTwo(n / 0x1_0000);
    FitsTwice(n, 2);
  }

  lemma FitsEight(n: nat)
    requires n < 0x1_0000_0000_0000_0000
    ensures Fits(n, 8)
  {
    FitsFour(n / 0x1_0000_0000);
    assert n / 0x1_0000 / 0x1_0000 == n / 0x1_0000_0000;
    FitsTwice(n / 0x1_0000, 4);
    FitsTwice(n, 6);
  }
}
