/** IPv4 addresses: dotted-quad text, prefix masks and intervals. */
module Address {
  import opened Wrappers
  import opened Text

  type Octet = n: nat | n < 256

  datatype IPv4 = IPv4(a: Octet, b: Octet, c: Octet, d: Octet)
  {
    /** The 32-bit number the address stands for. */
    function Number(): nat { ((a * 256 + b) * 256 + c) * 256 + d }
  }

  // ----- Text -----

  predicate IsDigit(c: char) { '0' <= c <= '9' }

  function DigitValue(c: char): nat
    requires IsDigit(c)
  {
    c as int - '0' as int
  }

  function Digit(n: nat): (c: char)
    requires n < 10
    ensures IsDigit(c) && DigitValue(c) == n
  {
    (n + '0' as int) as char
  }

  /** One field: one to three digits, no leading zero, at most 255. */
  function ParseOctet(s: string): Option<Octet> {
    if !(1 <= |s| <= 3) || !(forall i :: 0 <= i < |s| ==> IsDigit(s[i])) then None
    else if |s| == 1 then Some(DigitValue(s[0]))
    else if s[0] == '0' then None
    else
      var n := if |s| == 2 then DigitValue(s[0]) * 10 + DigitValue(s[1])
               else DigitValue(s[0]) * 100 + DigitValue(s[1]) * 10 + DigitValue(s[2]);
      if n < 256 then Some(n) else None
  }

  function PrintOctet(n: Octet): string {
    if n < 10 then [Digit(n)]
    else if n < 100 then [Digit(n / 10), Digit(n % 10)]
    else [Digit(n / 100), Digit(n / 10 % 10), Digit(n % 10)]
  }

  /** Exactly four fields between dots. */
  function ParseIPv4(s: string): Option<IPv4> {
    var fields := Split(s, '.');
    if |fields| != 4 then None
    else
      match (ParseOctet(fields[0]), ParseOctet(fields[1]), ParseOctet(fields[2]), ParseOctet(fields[3]))
      case (Some(a), Some(b), Some(c), Some(d)) => Some(IPv4(a, b, c, d))
      case _ => None
  }

  function PrintIPv4(ip: IPv4): string {
    Join([PrintOctet(ip.a), PrintOctet(ip.b), PrintOctet(ip.c), PrintOctet(ip.d)], '.')
  }

  lemma OctetRoundTrip(n: Octet)
    ensures ParseOctet(PrintOctet(n)) == Some(n)
    ensures '.' !in PrintOctet(n)
  {
    if n >= 100 {
      assert n == n / 100 * 100 + n / 10 % 10 * 10 + n % 10;
    }
  }

  lemma DigitOfValue(c: char)
    requires IsDigit(c)
    ensures Digit(DigitValue(c)) == c
  {
  }

  lemma OctetTextUnique(s: string)
    requires ParseOctet(s).Some?
    ensures PrintOctet(ParseOctet(s).value) == s
  {
    var n := ParseOctet(s).value;
    forall i | 0 <= i < |s| {
      DigitOfValue(s[i]);
    }
    if |s| == 2 {
      assert n / 10 == DigitValue(s[0]) && n % 10 == DigitValue(s[1]);
    } else if |s| == 3 {
      assert n / 100 == DigitValue(s[0]) && n / 10 % 10 == DigitValue(s[1]) && n % 10 == DigitValue(s[2]);
    }
  }

  /** Parsing inverts printing, so distinct addresses have distinct canonical texts. */
  lemma ParseOfPrint(ip: IPv4)
    ensures ParseIPv4(PrintIPv4(ip)) == Some(ip)
  {
    OctetRoundTrip(ip.a);
    OctetRoundTrip(ip.b);
    OctetRoundTrip(ip.c);
    OctetRoundTrip(ip.d);
    SplitOfJoin([PrintOctet(ip.a), PrintOctet(ip.b), PrintOctet(ip.c), PrintOctet(ip.d)], '.');
  }

  /** Printing inverts parsing: an address has only one accepted text. */
  lemma PrintOfParse(s: string)
    requires ParseIPv4(s).Some?
    ensures PrintIPv4(ParseIPv4(s).value) == s
  {
    var fields := Split(s, '.');
    var ip := ParseIPv4(s).value;
    forall i | 0 <= i < 4 {
      OctetTextUnique(fields[i]);
    }
    assert fields == [PrintOctet(ip.a), PrintOctet(ip.b), PrintOctet(ip.c), PrintOctet(ip.d)];
    JoinOfSplit(s, '.');
  }

  // ----- Prefixes -----

  /** A prefix in the notation of section 3.1 of RFC 4632: network address and mask length. */
  datatype Cidr = Cidr(network: IPv4, bits: nat)

  /** An octet under a mask of `n` leading one bits: the low bits are cleared. */
  function MaskOctet(o: Octet, n: nat): Octet
    requires n <= 8
  {
    match n
    case 8 => o
    case 7 => o - o % 2
    case 6 => o - o % 4
    case 5 => o - o % 8
    case 4 => o - o % 16
    case 3 => o - o % 32
    case 2 => o - o % 64
    case 1 => o - o % 128
    case _ => 0
  }

  /** 2 to the power n. */
  function LowBits(n: nat): (size: nat)
    requires n <= 8
    ensures size > 0
  {
    match n
    case 0 => 1 case 1 => 2 case 2 => 4 case 3 => 8 case 4 => 16
    case 5 => 32 case 6 => 64 case 7 => 128 case _ => 256
  }

  /** How many of the mask's one bits fall into octet `i`. */
  function BitsInOctet(bits: nat, i: nat): (n: nat)
    ensures n <= 8
  {
    if bits <= 8 * i then 0 else if bits - 8 * i >= 8 then 8 else bits - 8 * i
  }

  function Mask(ip: IPv4, bits: nat): IPv4 {
    IPv4(MaskOctet(ip.a, BitsInOctet(bits, 0)), MaskOctet(ip.b, BitsInOctet(bits, 1)),
         MaskOctet(ip.c, BitsInOctet(bits, 2)), MaskOctet(ip.d, BitsInOctet(bits, 3)))
  }

  /** The mask test: both addresses agree octet by octet under the mask. */
  predicate InPrefix(net: Cidr, ip: IPv4) {
    Mask(net.network, net.bits) == Mask(ip, net.bits)
  }

  function Pow2(n: nat): (p: nat)
    ensures p > 0
  {
    if n == 0 then 1 else 2 * Pow2(n - 1)
  }

  lemma Pow2Values()
    ensures Pow2(0) == 1 && Pow2(8) == 0x100 && Pow2(16) == 0x1_0000 && Pow2(24) == 0x100_0000
    ensures Pow2(32) == 0x1_0000_0000
    ensures forall k :: 0 <= k <= 8 ==> Pow2(k) == LowBits(k)
  {
    assert Pow2(4) == 16 && Pow2(8) == 256 && Pow2(12) == 4096 && Pow2(16) == 65536;
    assert Pow2(20) == 0x10_0000 && Pow2(24) == 0x100_0000 && Pow2(28) == 0x1000_0000;
  }

  lemma {:induction false} Pow2Sum(m: nat, n: nat)
    ensures Pow2(m + n) == Pow2(m) * Pow2(n)
    decreases m
  {
    if m > 0 {
      Pow2Sum(m - 1, n);
      assert Pow2(m + n) == 2 * Pow2(m - 1 + n);
      assert Pow2(m) * Pow2(n) == 2 * (Pow2(m - 1) * Pow2(n));
    }
  }

  lemma MulOrder(m: nat, a: nat, b: nat)
    ensures a <= b ==> m * a <= m * b
  {
  }

  lemma ModIsUnique(x: nat, m: nat, j: nat, r: nat)
    requires x == m * j + r && r < m
    ensures x % m == r
  {
    var k, t := x / m, x % m;
    assert x == m * k + t;
    MulOrder(m, k + 1, j);
    MulOrder(m, j + 1, k);
  }

  lemma MaskClearsOctet(o: Octet, n: nat)
    requires n <= 8
    ensures MaskOctet(o, 8 - n) == o - o % LowBits(n)
  {
  }

  lemma LowBitsOfOctets(upper: nat, o: Octet, n: nat)
    requires n <= 8
    ensures (upper * 256 + o) % LowBits(n) == o % LowBits(n)
  {
    var size, ratio := LowBits(n), LowBits(8 - n);
    assert size * ratio == 256;
    var j := ratio * upper + o / size;
    assert size * j == (size * ratio) * upper + size * (o / size);
    ModIsUnique(upper * 256 + o, size, j, o % size);
  }

  lemma WholeOctets(o: Octet)
    ensures MaskOctet(o, 8) == o && MaskOctet(o, 0) == 0
  {
  }

  lemma ClearScaled(number: nat, modulus: nat, high: nat, rest: nat, unit: nat, size: nat, cleared: nat)
    requires rest < unit && size > 0 && number == high * unit + rest && modulus == size * unit
    requires cleared == high - high % size
    ensures modulus > 0 && cleared * unit == number - number % modulus
  {
    var j, t := high / size, high % size;
    assert cleared == size * j;
    assert cleared * unit == modulus * j;
    assert high * unit == cleared * unit + t * unit;
    MulOrder(unit, t + 1, size);
    ModIsUnique(number, modulus, j, t * unit + rest);
  }

  /** One octet is masked; `upper` above it is kept and `rest` below it, less than `unit`, is cleared. */
  lemma MaskOneOctet(number: nat, masked: nat, modulus: nat, upper: nat, o: Octet, rest: nat, unit: nat, n: nat)
    requires n <= 8 && rest < unit && modulus == LowBits(n) * unit
    requires number == (upper * 256 + o) * unit + rest
    requires masked == (upper * 256 + MaskOctet(o, 8 - n)) * unit
    ensures modulus > 0 && masked == number - number % modulus
  {
    LowBitsOfOctets(upper, o, n);
    MaskClearsOctet(o, n);
    ClearScaled(number, modulus, upper * 256 + o, rest, unit, LowBits(n), upper * 256 + MaskOctet(o, 8 - n));
  }

  lemma Pow2Factors(n: nat, unitBits: nat)
    requires n <= 8
    ensures Pow2(n + unitBits) == LowBits(n) * Pow2(unitBits)
  {
    Pow2Values();
    Pow2Sum(n, unitBits);
  }

  lemma MaskShape(ip: IPv4, bits: nat)
    requires bits <= 32
    ensures Mask(ip, bits) ==
      if bits < 8 then IPv4(MaskOctet(ip.a, bits), 0, 0, 0)
      else if bits < 16 then IPv4(ip.a, MaskOctet(ip.b, bits - 8), 0, 0)
      else if bits < 24 then IPv4(ip.a, ip.b, MaskOctet(ip.c, bits - 16), 0)
      else IPv4(ip.a, ip.b, ip.c, MaskOctet(ip.d, bits - 24))
  {
    WholeOctets(ip.a);
    WholeOctets(ip.b);
    WholeOctets(ip.c);
    WholeOctets(ip.d);
  }

  lemma ThreeOctets(b: Octet, c: Octet, d: Octet)
    ensures (b * 256 + c) * 256 + d < 0x100_0000
  {
    assert b * 256 + c < 0x1_0000;
  }

  lemma MaskEndsInOctetA(ip: IPv4, bits: nat)
    requires bits < 8
    ensures Mask(ip, bits).Number() == ip.Number() - ip.Number() % Pow2(32 - bits)
  {
    MaskShape(ip, bits);
    Pow2Values();
    Pow2Factors(8 - bits, 24);
    ThreeOctets(ip.b, ip.c, ip.d);
    assert Pow2(32 - bits) == LowBits(8 - bits) * 0x100_0000;
    assert ip.Number() == (0 * 256 + ip.a) * 0x100_0000 + ((ip.b * 256 + ip.c) * 256 + ip.d);
    assert Mask(ip, bits).Number() == (0 * 256 + MaskOctet(ip.a, 8 - (8 - bits))) * 0x100_0000;
    MaskOneOctet(ip.Number(), Mask(ip, bits).Number(), Pow2(32 - bits), 0, ip.a, (ip.b * 256 + ip.c) * 256 + ip.d,
                 0x100_0000, 8 - bits);
  }

  lemma MaskEndsInOctetB(ip: IPv4, bits: nat)
    requires 8 <= bits < 16
    ensures Mask(ip, bits).Number() == ip.Number() - ip.Number() % Pow2(32 - bits)
  {
    MaskShape(ip, bits);
    Pow2Values();
    Pow2Factors(16 - bits, 16);
    MaskOneOctet(ip.Number(), Mask(ip, bits).Number(), Pow2(32 - bits), ip.a, ip.b, ip.c * 256 + ip.d, 0x1_0000,
                 16 - bits);
  }

  lemma MaskEndsInOctetC(ip: IPv4, bits: nat)
    requires 16 <= bits < 24
    ensures Mask(ip, bits).Number() == ip.Number() - ip.Number() % Pow2(32 - bits)
  {
    MaskShape(ip, bits);
    Pow2Values();
    Pow2Factors(24 - bits, 8);
    MaskOneOctet(ip.Number(), Mask(ip, bits).Number(), Pow2(32 - bits), ip.a * 256 + ip.b, ip.c, ip.d, 0x100,
                 24 - bits);
  }

  lemma MaskEndsInOctetD(ip: IPv4, bits: nat)
    requires 24 <= bits <= 32
    ensures Mask(ip, bits).Number() == ip.Number() - ip.Number() % Pow2(32 - bits)
  {
    MaskShape(ip, bits);
    Pow2Values();
    Pow2Factors(32 - bits, 0);
    MaskOneOctet(ip.Number(), Mask(ip, bits).Number(), Pow2(32 - bits), (ip.a * 256 + ip.b) * 256 + ip.c, ip.d, 0, 1,
                 32 - bits);
  }

  /** Masking octet by octet clears the low bits of the number. */
  lemma MaskClearsLowBits(ip: IPv4, bits: nat)
    requires bits <= 32
    ensures Mask(ip, bits).Number() == ip.Number() - ip.Number() % Pow2(32 - bits)
  {
    if bits < 8 {
      MaskEndsInOctetA(ip, bits);
    } else if bits < 16 {
      MaskEndsInOctetB(ip, bits);
    } else if bits < 24 {
      MaskEndsInOctetC(ip, bits);
    } else {
      MaskEndsInOctetD(ip, bits);
    }
  }

  lemma LastDigit(upper: nat, low: nat, upper': nat, low': nat)
    requires low < 256 && low' < 256 && upper * 256 + low == upper' * 256 + low'
    ensures upper == upper' && low == low'
  {
  }

  lemma NumberInjective(x: IPv4, y: IPv4)
    requires x.Number() == y.Number()
    ensures x == y
  {
    LastDigit((x.a * 256 + x.b) * 256 + x.c, x.d, (y.a * 256 + y.b) * 256 + y.c, y.d);
    LastDigit(x.a * 256 + x.b, x.c, y.a * 256 + y.b, y.c);
    LastDigit(x.a, x.b, y.a, y.b);
  }

  lemma SameBlock(x: nat, y: nat, size: nat)
    requires size > 0
    ensures x - x % size == y - y % size <==> x - x % size <= y < x - x % size + size
  {
    var first := x - x % size;
    assert first == size * (x / size);
    if first <= y < first + size {
      ModIsUnique(y, size, x / size, y - first);
    }
  }

  /** The mask test is the test of lying between the first and the last address of the block. */
  lemma PrefixIsInterval(net: Cidr, ip: IPv4)
    requires net.bits <= 32
    ensures var first := Mask(net.network, net.bits).Number();
      InPrefix(net, ip) <==> first <= ip.Number() < first + Pow2(32 - net.bits)
  {
    MaskClearsLowBits(net.network, net.bits);
    MaskClearsLowBits(ip, net.bits);
    SameBlock(net.network.Number(), ip.Number(), Pow2(32 - net.bits));
    if Mask(net.network, net.bits).Number() == Mask(ip, net.bits).Number() {
      NumberInjective(Mask(net.network, net.bits), Mask(ip, net.bits));
    }
  }
}
