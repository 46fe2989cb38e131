/** The default range of service addresses, cut out of the range that is not masqueraded:
    CalculateServiceClusterIPRange of pkg/kops/kops.go. Prefix notation is that of section 3.1 of
    RFC 4632 and section 2.3 of RFC 4291. */
module ServiceRange {
  import opened Common

  /** An address of `bits` bits with a prefix length. */
  datatype Cidr = Cidr(address: nat, ones: nat, bits: nat) {
    predicate Valid() {
      (bits == 32 || bits == 128) && ones <= bits && address < Pow2(bits)
    }

    /** The number of addresses in the block. */
    function Size(): nat
      requires ones <= bits
    {
      Pow2(bits - ones)
    }

    /** The first address of the block, all host bits cleared. */
    function Network(): (n: nat)
      requires ones <= bits
      ensures n <= address < n + Size()
    {
      Remainder(address, Size());
      address - address % Size()
    }

    predicate Aligned() {
      ones <= bits && address % Size() == 0
    }

    predicate Holds(a: nat)
      requires ones <= bits
    {
      Network() <= a < Network() + Size()
    }
  }

  lemma Remainder(a: nat, size: nat)
    requires size >= 1
    ensures 0 <= a % size < size && a % size <= a
  {
    assert a == size * (a / size) + a % size;
  }

  /** Text is what the range is printed as; a mask that does not exist is printed as "<nil>", and
      no error is reported. */
  datatype Range = ParseError | Text(range: Cidr) | Nil

  /** `parsed` is None when the configured range is no CIDR. */
  function CalculateServiceClusterIPRange(parsed: Option<Cidr>): Range
    requires parsed.Some? ==> parsed.value.Valid()
  {
    if parsed.None? then ParseError
    else
      var block := parsed.value;
      var serviceOnes := if block.ones + 3 < 20 then 20 else block.ones + 3;
      if serviceOnes > block.bits then Nil
      else Text(Cidr(block.Network(), serviceOnes, block.bits))
  }

  lemma Multiples(k: int, n: nat)
    ensures k >= 1 ==> k * n >= n
    ensures k <= -1 ==> k * n + n <= 0
  {
    if k >= 1 {
      assert k * n >= 1 * n;
    } else if k <= -1 {
      assert (k + 1) * n <= 0;
    }
  }

  lemma NoRemainder(k: int, n: int, r: int)
    requires 0 <= r < n && k * n == r
    ensures r == 0
  {
    Multiples(k, n);
  }

  lemma DivMod(a: int, n: int)
    requires n > 0
    ensures a == (a / n) * n + a % n
  {
  }

  lemma MultipleMod(k: int, n: int)
    requires n > 0
    ensures (k * n) % n == 0
  {
    var a := k * n;
    DivMod(a, n);
    var d, r := a / n, a % n;
    assert (k - d) * n == k * n - d * n;
    NoRemainder(k - d, n, r);
  }

  lemma MultipleOfPower(a: nat, m: nat, n: nat)
    requires m <= n && a % Pow2(n) == 0
    ensures a % Pow2(m) == 0
  {
    Pow2Sum(n - m, m);
    DivMod(a, Pow2(n));
    var k, p, q := a / Pow2(n), Pow2(n - m), Pow2(m);
    Associative(k, p, q);
    MultipleMod(k * p, q);
  }

  lemma Associative(x: int, y: int, z: int)
    ensures x * (y * z) == (x * y) * z
  {
  }

  lemma NetworkAligned(c: Cidr)
    requires c.Valid()
    ensures c.Network() % c.Size() == 0
  {
    DivMod(c.address, c.Size());
    MultipleMod(c.address / c.Size(), c.Size());
  }

  /** A range comes out exactly when the block leaves room for three more bits; a smaller block
      yields the text "<nil>" although the block is valid. */
  lemma RangeExactlyWhenRoom(block: Cidr)
    requires block.Valid()
    ensures CalculateServiceClusterIPRange(Some(block)).Text? <==> block.ones + 3 <= block.bits
    ensures CalculateServiceClusterIPRange(Some(block)).Nil? <==> block.ones + 3 > block.bits
  {
    assert block.bits >= 32;
  }

  /** An error is reported exactly when the configured range is no CIDR. */
  lemma ErrorExactly(parsed: Option<Cidr>)
    requires parsed.Some? ==> parsed.value.Valid()
    ensures CalculateServiceClusterIPRange(parsed).ParseError? <==> parsed.None?
  {
  }

  /** The range keeps the network address, is a proper aligned block, and lies inside the block it
      is cut from. */
  lemma RangeInsideBlock(block: Cidr, a: nat)
    requires block.Valid() && block.ones + 3 <= block.bits
    ensures var r := CalculateServiceClusterIPRange(Some(block)).range;
            && r.Valid() && r.Aligned() && r.address == r.Network() == block.Network()
            && (r.Holds(a) ==> block.Holds(a))
  {
    var r := CalculateServiceClusterIPRange(Some(block)).range;
    NetworkAligned(block);
    Pow2Grows(r.bits - r.ones, block.bits - block.ones);
    MultipleOfPower(r.address, r.bits - r.ones, block.bits - block.ones);
  }

  /** How large it is: an eighth of the block, but for IPv4 never more than 4096 addresses; the
      prefix is never shorter than 20. */
  lemma RangeSize(block: Cidr)
    requires block.Valid() && block.ones + 3 <= block.bits
    ensures var r := CalculateServiceClusterIPRange(Some(block)).range;
            && (block.ones >= 17 ==> r.Size() * 8 == block.Size())
            && (block.bits == 32 ==> r.Size() == if block.Size() / 8 < 4096 then block.Size() / 8 else 4096)
            && r.ones >= 20 && (block.ones < 17 ==> r.ones == 20)
  {
    var host := block.bits - block.ones;
    EighthOf(host);
    if block.bits == 32 {
      TwelveBits();
      if block.ones >= 17 {
        Pow2Grows(host - 3, 12);
      } else {
        Pow2Grows(12, host - 3);
      }
    }
  }

  lemma EighthOf(n: nat)
    requires n >= 3
    ensures Pow2(n) == 8 * Pow2(n - 3) && Pow2(n) / 8 == Pow2(n - 3)
  {
    assert Pow2(n) == 2 * Pow2(n - 1) && Pow2(n - 1) == 2 * Pow2(n - 2) && Pow2(n - 2) == 2 * Pow2(n - 3);
  }

  lemma TwelveBits()
    ensures Pow2(12) == 4096
  {
    assert Pow2(4) == 16;
    assert Pow2(8) == 256;
  }
}
