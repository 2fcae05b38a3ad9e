/** Address and port arithmetic. */
module Addressing {
  import opened Base
  import opened Arithmetic
  import opened Stack

  function Power(base: nat, n: nat): (p: nat)
    requires base > 0
    ensures p > 0
  {
    if n == 0 then 1 else Power(base, n - 1) * base
  }

  // ---------------------------------------------------------------- the byte-carry loop

  /** The number a big-endian byte string stands for. */
  function Value(b: seq<Byte>): nat {
    if b == [] then 0 else Value(b[..|b| - 1]) * 256 + b[|b| - 1]
  }

  lemma {:induction false} ValueBound(b: seq<Byte>)
    ensures Value(b) < Power(256, |b|)
  {
    if b != [] {
      ValueBound(b[..|b| - 1]);
    }
  }

  /** The next byte string of the same length, around at the end. */
  function Successor(b: seq<Byte>): (r: seq<Byte>)
    ensures |r| == |b|
  {
    if b == [] then []
    else
      var n := |b| - 1;
      if b[n] == 255 then Successor(b[..n]) + [0] else b[..n] + [b[n] + 1]
  }

  lemma Carry(high: nat, last: Byte, p: nat)
    requires high < p
    ensures last < 255 ==> (high * 256 + last + 1) % (p * 256) == high * 256 + last + 1
    ensures last == 255 ==> (high * 256 + last + 1) % (p * 256) == (high + 1) % p * 256
  {
    var n := high * 256 + last + 1;
    if last < 255 || high + 1 < p {
      QuotientUnique(n, p * 256, 0, n);
      QuotientUnique(high + 1, p, (high + 1) / p, (high + 1) % p);
      assert high + 1 < p ==> (high + 1) % p == high + 1;
    } else {
      QuotientUnique(n, p * 256, 1, 0);
      QuotientUnique(high + 1, p, 1, 0);
    }
  }

  lemma {:induction false} SuccessorIsPlusOne(b: seq<Byte>)
    ensures Value(Successor(b)) == (Value(b) + 1) % Power(256, |b|)
  {
    if b != [] {
      var n := |b| - 1;
      var (high, p) := (Value(b[..n]), Power(256, n));
      ValueBound(b[..n]);
      SuccessorIsPlusOne(b[..n]);
      assert Successor(b)[..n] == if b[n] == 255 then Successor(b[..n]) else b[..n];
      Carry(high, b[n], p);
    }
  }

  lemma {:induction false} SuccessorOfCarry(b: seq<Byte>, i: nat)
    requires i <= |b| && forall j :: i <= j < |b| ==> b[j] == 255
    ensures Successor(b) == Successor(b[..i]) + seq(|b| - i, j => 0)
    decreases |b|
  {
    if i < |b| {
      var n := |b| - 1;
      SuccessorOfCarry(b[..n], i);
      assert b[..n][..i] == b[..i];
    } else {
      assert b[..i] == b;
    }
  }

  /** The loop of the IPv6 case: adds one to the last byte and carries while bytes overflow. */
  method IncrementOctets(octets: array<Byte>)
    modifies octets
    ensures octets[..] == Successor(old(octets[..]))
  {
    ghost var before := octets[..];
    var i := octets.Length;
    while i > 0
      invariant 0 <= i <= octets.Length
      invariant octets[..i] == before[..i]
      invariant forall j :: i <= j < octets.Length ==> before[j] == 255 && octets[j] == 0
    {
      i := i - 1;
      var overflow := octets[i] == 255;
      octets[i] := if overflow then 0 else octets[i] + 1;
      if !overflow {
        SuccessorOfCarry(before, i + 1);
        assert before[..i + 1][..i] == before[..i];
        assert octets[..] == octets[..i] + [octets[i]] + octets[i + 1..];
        assert octets[i + 1..] == seq(octets.Length - (i + 1), j => 0);
        return;
      }
    }
    SuccessorOfCarry(before, 0);
    assert octets[..] == seq(octets.Length, j => 0);
  }

  // ---------------------------------------------------------------- the default client address

  function Width(ip: IpAddr): nat {
    if ip.V4? then 32 else 128
  }

  predicate ValidIp(ip: IpAddr) {
    ip.bits < Power(2, Width(ip))
  }

  /** TAP address plus one.  The IPv4 addition overflows on 255.255.255.255; the IPv6 loop wraps. */
  function DefaultClientIp(tap: IpAddr): Option<IpAddr> {
    match tap
    case V4(bits) => if bits + 1 == Power(2, Width(tap)) then None else Some(V4(bits + 1))
    case V6(bits) => Some(V6((bits + 1) % Power(2, Width(tap))))
  }

  /** The number of bits a prefix leaves to the host. */
  function HostBits(ip: IpAddr, prefixLen: nat): (k: nat)
    ensures k <= Width(ip)
  {
    if prefixLen >= Width(ip) then 0 else Width(ip) - prefixLen
  }

  function HostPart(ip: IpAddr, prefixLen: nat): nat {
    Power(2, HostBits(ip, prefixLen))
  }

  /** The bits that both numbers have. */
  function BitAnd(x: nat, y: nat): nat {
    if x == 0 || y == 0 then 0
    else BitAnd(x / 2, y / 2) * 2 + if x % 2 == 1 && y % 2 == 1 then 1 else 0
  }

  /** All ones of the width, shifted left; bits shifted out are lost. */
  function Mask(width: nat, shift: nat): nat {
    ((Power(2, width) - 1) * Power(2, shift)) % Power(2, width)
  }

  /** Same bits under the prefix mask.  For prefix 0 the mask's shift overflows. */
  function ValidateIpInSubnet(ip: IpAddr, tap: IpAddr, prefixLen: nat): Option<bool> {
    if ip.V4? != tap.V4? then Some(false)
    else if prefixLen == 0 then None
    else
      var mask := Mask(Width(ip), HostBits(ip, prefixLen));
      Some(BitAnd(ip.bits, mask) == BitAnd(tap.bits, mask))
  }

  lemma {:induction false} PowerGrows(k: nat, width: nat)
    requires k <= width
    ensures Power(2, k) <= Power(2, width)
    decreases width
  {
    if k < width {
      PowerGrows(k, width - 1);
    }
  }

  lemma MaskProduct(w: nat, m: nat)
    requires 0 < m <= w
    ensures (w - 1) * m == (m - 1) * w + (w - m)
  {
  }

  lemma MaskValue(width: nat, shift: nat)
    requires shift <= width
    ensures Power(2, shift) <= Power(2, width) && Mask(width, shift) == Power(2, width) - Power(2, shift)
  {
    PowerGrows(shift, width);
    MaskNumber(Power(2, width), Power(2, shift));
  }

  lemma MaskNumber(w: nat, m: nat)
    requires 0 < m <= w
    ensures (w - 1) * m >= 0 && (w - 1) * m % w == w - m
  {
    MaskProduct(w, m);
    QuotientUnique((w - 1) * m, w, m - 1, w - m);
  }

  lemma {:induction false} AndOnes(x: nat, width: nat)
    requires x < Power(2, width)
    ensures BitAnd(x, Power(2, width) - 1) == x
    decreases width
  {
    if width > 0 && x > 0 {
      AndOnes(x / 2, width - 1);
    }
  }

  lemma HalvedTwice(x: nat, m: nat)
    requires m > 0
    ensures x / 2 / m == x / (m * 2)
  {
    var (q, r) := (x / 2 / m, x / 2 % m);
    Division(x / 2, m);
    assert x == q * (m * 2) + (r * 2 + x % 2);
    QuotientUnique(x, m * 2, q, r * 2 + x % 2);
  }

  /** Masking keeps the network part. */
  lemma {:induction false} AndMask(x: nat, width: nat, shift: nat)
    requires x < Power(2, width) && shift <= width
    ensures Power(2, shift) <= Power(2, width)
    ensures BitAnd(x, Power(2, width) - Power(2, shift)) == (x / Power(2, shift)) * Power(2, shift)
    decreases shift
  {
    PowerGrows(shift, width);
    if shift == 0 {
      AndOnes(x, width);
    } else {
      AndMask(x / 2, width - 1, shift - 1);
      HalvedTwice(x, Power(2, shift - 1));
      AndDoubledBy(x, Power(2, width - 1) - Power(2, shift - 1), x / Power(2, shift), Power(2, shift - 1));
    }
  }

  lemma AndDoubledBy(x: nat, y: nat, q: nat, m: nat)
    requires BitAnd(x / 2, y) == q * m
    ensures BitAnd(x, y * 2) == q * (m * 2)
  {
    AndDoubled(x, y);
    Reassociate(q, m);
  }

  lemma Reassociate(q: nat, m: nat)
    ensures q * (m * 2) == q * m * 2
  {
  }

  lemma AndDoubled(x: nat, y: nat)
    ensures BitAnd(x, y * 2) == BitAnd(x / 2, y) * 2
  {
  }

  lemma SameNetworkIff(x: nat, y: nat, width: nat, shift: nat)
    requires x < Power(2, width) && y < Power(2, width) && shift <= width
    ensures BitAnd(x, Mask(width, shift)) == BitAnd(y, Mask(width, shift)) <==>
            x / Power(2, shift) == y / Power(2, shift)
  {
    var m := Power(2, shift);
    MaskValue(width, shift);
    AndMask(x, width, shift);
    AndMask(y, width, shift);
    if x / m < y / m {
      ProductGap(x / m, y / m, m);
    } else if y / m < x / m {
      ProductGap(y / m, x / m, m);
    }
  }

  lemma NextInSameBlock(n: nat, m: nat)
    requires m > 0
    ensures (n + 1) / m == n / m <==> n % m != m - 1
  {
    var (q, r) := (n / m, n % m);
    if r == m - 1 {
      assert n + 1 == (q + 1) * m + 0;
      QuotientUnique(n + 1, m, q + 1, 0);
    } else {
      QuotientUnique(n + 1, m, q, r + 1);
    }
  }

  lemma {:induction false} PowerSplits(a: nat, b: nat)
    ensures Power(2, a + b) == Power(2, a) * Power(2, b)
  {
    if b > 0 {
      PowerSplits(a, b - 1);
    }
  }

  lemma {:induction false} PowerOfBytes(n: nat)
    ensures Power(256, n) == Power(2, n * 8)
  {
    if n > 0 {
      PowerOfBytes(n - 1);
      PowerSplits((n - 1) * 8, 8);
    }
  }

  /** The carry loop on the 16 octets of an IPv6 address computes the default client. */
  lemma CarryLoopComputesClient(tap: IpAddr, octets: seq<Byte>)
    requires tap.V6? && |octets| * 8 == Width(tap) && tap.bits == Value(octets)
    ensures ValidIp(tap) && DefaultClientIp(tap) == Some(V6(Value(Successor(octets))))
  {
    SuccessorIsPlusOne(octets);
    PowerOfBytes(|octets|);
    ValueBound(octets);
  }

  lemma LastOfBlocks(n: nat, m: nat, k: nat)
    requires m > 0 && k >= 2 && n + 1 == k * m
    ensures n % m == m - 1 && n / m != 0
  {
    assert k * m == (k - 1) * m + m;
    QuotientUnique(n, m, k - 1, m - 1);
  }

  /** The top address of the width has an all-ones host part, and a network other than zero. */
  lemma TopAddress(n: nat, width: nat, host: nat)
    requires host < width && n + 1 == Power(2, width)
    ensures n % Power(2, host) == Power(2, host) - 1 && n / Power(2, host) != 0
  {
    PowerSplits(width - host, host);
    assert Power(2, width - host) == Power(2, width - host - 1) * 2;
    LastOfBlocks(n, Power(2, host), Power(2, width - host));
  }

  /** The default client is the next address of the same family, modulo the size of the address space;
      only for the last IPv4 address there is none. */
  lemma DefaultClientIsNext(tap: IpAddr)
    requires ValidIp(tap)
    ensures DefaultClientIp(tap).None? <==> tap.V4? && tap.bits + 1 == Power(2, 32)
    ensures DefaultClientIp(tap).Some? ==>
              var client := DefaultClientIp(tap).value;
              && client.V4? == tap.V4? && ValidIp(client)
              && client.bits == (tap.bits + 1) % Power(2, Width(tap))
  {
    var top := Power(2, Width(tap));
    if tap.bits + 1 == top {
      QuotientUnique(tap.bits + 1, top, 1, 0);
    } else {
      QuotientUnique(tap.bits + 1, top, 0, tap.bits + 1);
    }
  }

  /** An address is found in the subnet of a TAP address if and only if it is of the same family and in
      the same block of the size of the host part; prefix 0 has no result within a family. */
  lemma InSubnetIff(ip: IpAddr, tap: IpAddr, prefixLen: nat)
    requires ValidIp(ip) && ValidIp(tap)
    ensures ValidateIpInSubnet(ip, tap, prefixLen).None? <==> ip.V4? == tap.V4? && prefixLen == 0
    ensures ValidateIpInSubnet(ip, tap, prefixLen) == Some(true) <==>
              && ip.V4? == tap.V4? && prefixLen > 0
              && ip.bits / HostPart(tap, prefixLen) == tap.bits / HostPart(tap, prefixLen)
  {
    if ip.V4? == tap.V4? {
      SameNetworkIff(ip.bits, tap.bits, Width(tap), HostBits(tap, prefixLen));
    }
  }

  /** For every prefix but 0, the default client of a TAP address is in its subnet exactly when the
      TAP address is not the last one of the subnet. */
  lemma DefaultClientInSubnetIff(tap: IpAddr, prefixLen: nat)
    requires ValidIp(tap) && prefixLen > 0 && DefaultClientIp(tap).Some?
    ensures var m := HostPart(tap, prefixLen);
            ValidateIpInSubnet(DefaultClientIp(tap).value, tap, prefixLen) == Some(tap.bits % m != m - 1)
  {
    var (m, top) := (HostPart(tap, prefixLen), Power(2, Width(tap)));
    if tap.bits + 1 == top {
      TopAddress(tap.bits, Width(tap), HostBits(tap, prefixLen));
      QuotientUnique(tap.bits + 1, top, 1, 0);
      QuotientUnique(0, m, 0, 0);
    } else {
      NextInSameBlock(tap.bits, m);
      QuotientUnique(tap.bits + 1, top, 0, tap.bits + 1);
    }
    SameNetworkIff(DefaultClientIp(tap).value.bits, tap.bits, Width(tap), HostBits(tap, prefixLen));
  }

  // ---------------------------------------------------------------- ephemeral ports

  /** The allocator after k allocations. */
  function AllocatedTimes(local: Local, k: nat): Local {
    if k == 0 then local else AllocatedTimes(local, k - 1).Allocated()
  }

  lemma {:induction false} PortAfter(local: Local, k: nat)
    requires local.nextPort == EPHEMERAL_PORT_START
    ensures AllocatedTimes(local, k).nextPort == (EPHEMERAL_PORT_START + k) % 65536
  {
    if k > 0 {
      PortAfter(local, k - 1);
    }
  }

  /** No port is given twice within 65536 allocations.  Of each 65536 allocations the first 16384 are
      in the dynamic range and no others, and the next one is port 0. */
  lemma PortsDistinct(local: Local, i: nat, j: nat)
    requires local.nextPort == EPHEMERAL_PORT_START && i < j < i + 65536
    ensures AllocatedTimes(local, i).nextPort != AllocatedTimes(local, j).nextPort
    ensures 49152 <= AllocatedTimes(local, i).nextPort <= 65535 <==> i % 65536 < 16384
    ensures AllocatedTimes(local, i).nextPort == 0 <==> i % 65536 == 16384
  {
    PortAfter(local, i);
    PortAfter(local, j);
  }
}
