/** Which addresses may be dialed: the shared policy for feed-supplied hosts. */
module AddressPolicy {
  import opened Prelude

  type Octet = x: int | 0 <= x < 256
  type Segment = x: int | 0 <= x < 65536

  datatype V4 = V4(a: Octet, b: Octet, c: Octet, d: Octet)
  datatype V6 = V6(s0: Segment, s1: Segment, s2: Segment, s3: Segment, s4: Segment, s5: Segment, s6: Segment, s7: Segment)
  datatype Ip = Four(v4: V4) | Six(v6: V6)

  datatype Verdict = Accepted | Refused(reason: string)

  // ---------------------------------------------------------------- IPv4

  predicate IsLoopback(v: V4) { v.a == 127 }
  predicate IsPrivate(v: V4) { v.a == 10 || (v.a == 172 && 16 <= v.b <= 31) || (v.a == 192 && v.b == 168) }
  predicate IsLinkLocal(v: V4) { v.a == 169 && v.b == 254 }
  predicate IsMulticast(v: V4) { 224 <= v.a <= 239 }

  function CheckIpv4(v: V4): Verdict {
    if IsLoopback(v) then Refused("loopback address")
    else if IsPrivate(v) then Refused("RFC1918 private address")
    else if IsLinkLocal(v) then Refused("link-local address (cloud metadata range)")
    else if v == V4(0, 0, 0, 0) then Refused("unspecified address")
    else if v == V4(255, 255, 255, 255) then Refused("broadcast address")
    else if IsMulticast(v) then Refused("multicast address")
    else if v.a == 0 then Refused("0.0.0.0/8")
    else if v.a == 100 && v.b / 64 == 1 then Refused("100.64.0.0/10 CGNAT")
    else if v.a == 198 && (v.b == 18 || v.b == 19) then Refused("198.18.0.0/15 benchmarking")
    else if v.a == 192 && v.b == 0 then Refused("192.0.0.0/24 IETF")
    else if v.a == 192 && v.b == 2 then Refused("192.0.2.0/24 TEST-NET-1")
    else if v.a == 198 && v.b == 51 && v.c == 100 then Refused("198.51.100.0/24 TEST-NET-2")
    else if v.a == 203 && v.b == 0 && v.c == 113 then Refused("203.0.113.0/24 TEST-NET-3")
    else Accepted
  }

  function Number(v: V4): int { v.a * 0x100_0000 + v.b * 0x1_0000 + v.c * 0x100 + v.d }

  /** The `size` addresses (a power of two) from `first` on: one CIDR block. */
  predicate InBlock(v: V4, first: V4, size: int) {
    Number(first) <= Number(v) < Number(first) + size
  }

  const SLASH_4 := 0x1000_0000
  const SLASH_8 := 0x100_0000
  const SLASH_10 := 0x40_0000
  const SLASH_12 := 0x10_0000
  const SLASH_15 := 0x2_0000
  const SLASH_16 := 0x1_0000
  const SLASH_24 := 0x100

  /** The blocks the policy documents, as prefixes of the 32-bit address. */
  predicate Documented(v: V4) {
    || InBlock(v, V4(127, 0, 0, 0), SLASH_8)
    || InBlock(v, V4(10, 0, 0, 0), SLASH_8)
    || InBlock(v, V4(172, 16, 0, 0), SLASH_12)
    || InBlock(v, V4(192, 168, 0, 0), SLASH_16)
    || InBlock(v, V4(169, 254, 0, 0), SLASH_16)
    || InBlock(v, V4(255, 255, 255, 255), 1)
    || InBlock(v, V4(224, 0, 0, 0), SLASH_4)
    || InBlock(v, V4(0, 0, 0, 0), SLASH_8)
    || InBlock(v, V4(100, 64, 0, 0), SLASH_10)
    || InBlock(v, V4(198, 18, 0, 0), SLASH_15)
    || InBlock(v, V4(192, 0, 0, 0), SLASH_24)
    || InBlock(v, V4(192, 0, 2, 0), SLASH_24)
    || InBlock(v, V4(198, 51, 100, 0), SLASH_24)
    || InBlock(v, V4(203, 0, 113, 0), SLASH_24)
  }

  /** The policy refuses every documented block and exactly two more: the rules labelled
      192.0.0.0/24 and 192.0.2.0/24 compare two octets, so they cover the whole of
      192.0.0.0/16 and of 192.2.0.0/16. */
  lemma RefusedBlocksAreExact(v: V4)
    ensures CheckIpv4(v) != Accepted <==>
              Documented(v) || InBlock(v, V4(192, 0, 0, 0), SLASH_16) || InBlock(v, V4(192, 2, 0, 0), SLASH_16)
  {
    WideBlocks(v);
    NarrowBlocks(v);
    hide InBlock;
  }

  lemma WideBlocks(v: V4)
    ensures forall a: Octet :: InBlock(v, V4(a, 0, 0, 0), SLASH_8) <==> v.a == a
    ensures InBlock(v, V4(224, 0, 0, 0), SLASH_4) <==> 224 <= v.a < 240
    ensures InBlock(v, V4(172, 16, 0, 0), SLASH_12) <==> v.a == 172 && 16 <= v.b < 32
    ensures InBlock(v, V4(100, 64, 0, 0), SLASH_10) <==> v.a == 100 && 64 <= v.b < 128
    ensures InBlock(v, V4(198, 18, 0, 0), SLASH_15) <==> v.a == 198 && 18 <= v.b < 20
  {}

  lemma Slash16(v: V4, a: Octet, b: Octet)
    ensures InBlock(v, V4(a, b, 0, 0), SLASH_16) <==> v.a == a && v.b == b
  {}

  lemma Slash24(v: V4, a: Octet, b: Octet, c: Octet)
    ensures InBlock(v, V4(a, b, c, 0), SLASH_24) <==> v.a == a && v.b == b && v.c == c
  {
    assert InBlock(v, V4(a, b, c, 0), SLASH_24) ==> v.a == a && v.b == b by {
      if InBlock(v, V4(a, b, c, 0), SLASH_24) {
        Slash16(v, a, b);
      }
    }
  }

  lemma NarrowBlocks(v: V4)
    ensures InBlock(v, V4(192, 168, 0, 0), SLASH_16) <==> v.a == 192 && v.b == 168
    ensures InBlock(v, V4(169, 254, 0, 0), SLASH_16) <==> v.a == 169 && v.b == 254
    ensures InBlock(v, V4(192, 0, 0, 0), SLASH_16) <==> v.a == 192 && v.b == 0
    ensures InBlock(v, V4(192, 2, 0, 0), SLASH_16) <==> v.a == 192 && v.b == 2
    ensures InBlock(v, V4(192, 0, 0, 0), SLASH_24) <==> v.a == 192 && v.b == 0 && v.c == 0
    ensures InBlock(v, V4(192, 0, 2, 0), SLASH_24) <==> v.a == 192 && v.b == 0 && v.c == 2
    ensures InBlock(v, V4(198, 51, 100, 0), SLASH_24) <==> v.a == 198 && v.b == 51 && v.c == 100
    ensures InBlock(v, V4(203, 0, 113, 0), SLASH_24) <==> v.a == 203 && v.b == 0 && v.c == 113
    ensures InBlock(v, V4(255, 255, 255, 255), 1) <==> v == V4(255, 255, 255, 255)
  {
    LastAddress(v);
    hide InBlock;
    Slash16(v, 192, 168);
    Slash16(v, 169, 254);
    Slash16(v, 192, 0);
    Slash16(v, 192, 2);
    Slash24(v, 192, 0, 0);
    Slash24(v, 192, 0, 2);
    Slash24(v, 198, 51, 100);
    Slash24(v, 203, 0, 113);
  }

  lemma LastAddress(v: V4)
    ensures InBlock(v, V4(255, 255, 255, 255), 1) <==> v == V4(255, 255, 255, 255)
  {}

  /** Two public addresses the wide rules refuse although no documented block holds them. */
  lemma WiderThanLabelled()
    ensures CheckIpv4(V4(192, 2, 0, 1)) != Accepted && !Documented(V4(192, 2, 0, 1))
    ensures CheckIpv4(V4(192, 0, 66, 1)) != Accepted && !Documented(V4(192, 0, 66, 1))
  {
    hide Documented;
    NotDocumented(V4(192, 2, 0, 1));
    NotDocumented(V4(192, 0, 66, 1));
  }

  lemma NotDocumented(v: V4)
    requires v.a == 192 && v.b != 168 && (v.b == 0 ==> v.c != 0 && v.c != 2)
    ensures !Documented(v)
  {
    WideBlocks(v);
    NarrowBlocks(v);
    hide InBlock;
  }

  // ---------------------------------------------------------------- IPv6

  function EmbeddedV4(high: Segment, low: Segment): V4 {
    V4(high / 256, high % 256, low / 256, low % 256)
  }

  predicate ZeroUpTo5(v: V6) { v.s0 == 0 && v.s1 == 0 && v.s2 == 0 && v.s3 == 0 && v.s4 == 0 }

  function ToIpv4Mapped(v: V6): Option<V4> {
    if ZeroUpTo5(v) && v.s5 == 0xffff then Some(EmbeddedV4(v.s6, v.s7)) else None
  }

  /** Mapped or compatible. */
  function ToIpv4(v: V6): Option<V4> {
    if ZeroUpTo5(v) && (v.s5 == 0 || v.s5 == 0xffff) then Some(EmbeddedV4(v.s6, v.s7)) else None
  }

  function CheckIpv6(v: V6): Verdict {
    if ToIpv4Mapped(v).Some? then CheckIpv4(ToIpv4Mapped(v).value)
    else if v == V6(0, 0, 0, 0, 0, 0, 0, 1) then Refused("loopback address")
    else if v == V6(0, 0, 0, 0, 0, 0, 0, 0) then Refused("unspecified address")
    else if ToIpv4(v).Some? then CheckIpv4(ToIpv4(v).value)
    else if v.s0 / 0x100 == 0xff then Refused("multicast address")
    else if v.s0 / 0x40 == 0xfe80 / 0x40 then Refused("link-local address")
    else if v.s0 / 0x200 == 0xfc00 / 0x200 then Refused("unique-local address")
    else if v.s0 / 0x40 == 0xfec0 / 0x40 then Refused("site-local address (deprecated fec0::/10)")
    else if v.s0 == 0x0064 && v.s1 == 0xff9b && v.s2 == 0 && v.s3 == 0 && v.s4 == 0 && v.s5 == 0 then
      CheckIpv4(EmbeddedV4(v.s6, v.s7))
    else if v.s0 == 0x2002 then CheckIpv4(EmbeddedV4(v.s1, v.s2))
    else Accepted
  }

  function CheckIp(ip: Ip, allowPrivate: bool): Verdict {
    if allowPrivate then Accepted
    else match ip
      case Four(v) => CheckIpv4(v)
      case Six(v) => CheckIpv6(v)
  }

  // ---------------------------------------------------------------- forms of one IPv4 address

  function High(v: V4): Segment { v.a * 256 + v.b }
  function Low(v: V4): Segment { v.c * 256 + v.d }

  /** `::ffff:a.b.c.d`, section 2.5.5.2 of RFC 4291. */
  function Mapped(v: V4): Ip { Six(V6(0, 0, 0, 0, 0, 0xffff, High(v), Low(v))) }

  /** `::a.b.c.d`, section 2.5.5.1 of RFC 4291. */
  function Compatible(v: V4): Ip { Six(V6(0, 0, 0, 0, 0, 0, High(v), Low(v))) }

  /** `64:ff9b::a.b.c.d`, section 2.1 of RFC 6052. */
  function Nat64(v: V4): Ip { Six(V6(0x64, 0xff9b, 0, 0, 0, 0, High(v), Low(v))) }

  /** `2002:ab:cd::/48` with any suffix, section 2 of RFC 3056. */
  function SixToFour(v: V4, s3: Segment, s4: Segment, s5: Segment, s6: Segment, s7: Segment): Ip {
    Six(V6(0x2002, High(v), Low(v), s3, s4, s5, s6, s7))
  }

  lemma EmbeddingIsReadable(v: V4)
    ensures EmbeddedV4(High(v), Low(v)) == v
  {}

  lemma LowestAreRefused()
    ensures CheckIpv4(V4(0, 0, 0, 0)) != Accepted && CheckIpv4(V4(0, 0, 0, 1)) != Accepted
  {}

  /** An IPv4 address cannot be smuggled past the policy inside an IPv6 one: each form is
      accepted exactly when the address itself is. */
  lemma FormsShareTheVerdict(v: V4, allow: bool, s3: Segment, s4: Segment, s5: Segment, s6: Segment, s7: Segment)
    ensures CheckIp(Mapped(v), allow) == CheckIp(Four(v), allow)
    ensures CheckIp(Compatible(v), allow) == Accepted <==> CheckIp(Four(v), allow) == Accepted
    ensures CheckIp(Nat64(v), allow) == CheckIp(Four(v), allow)
    ensures CheckIp(SixToFour(v, s3, s4, s5, s6, s7), allow) == CheckIp(Four(v), allow)
  {
    LowestAreRefused();
    hide CheckIpv4;
    EmbeddingIsReadable(v);
    LowestInner();
    hide EmbeddedV4, High, Low;
  }

  /** The IPv4 address an IPv6 one stands for under the four covered forms. */
  ghost predicate StandsFor(v: V6, x: V4) {
    || Six(v) == Mapped(x) || Six(v) == Compatible(x) || Six(v) == Nat64(x)
    || Six(v) == SixToFour(x, v.s3, v.s4, v.s5, v.s6, v.s7)
  }

  predicate Internal(v: V6) {
    || 0xff00 <= v.s0            // ff00::/8
    || 0xfe80 <= v.s0 < 0xfec0   // fe80::/10
    || 0xfc00 <= v.s0 < 0xfe00   // fc00::/7
    || 0xfec0 <= v.s0 < 0xff00   // fec0::/10
  }

  /** The IPv4 address that the covered forms would read out of `v`. */
  function Inner(v: V6): V4 {
    if v.s0 == 0x2002 then EmbeddedV4(v.s1, v.s2) else EmbeddedV4(v.s6, v.s7)
  }

  lemma StandsForInner(v: V6, x: V4)
    requires StandsFor(v, x)
    ensures x == Inner(v)
  {
    EmbeddingIsReadable(x);
  }

  lemma Covered(v: V6)
    ensures StandsFor(v, Inner(v)) <==>
              || v.s0 == 0x2002
              || (ZeroUpTo5(v) && (v.s5 == 0 || v.s5 == 0xffff))
              || (v.s0 == 0x0064 && v.s1 == 0xff9b && v.s2 == 0 && v.s3 == 0 && v.s4 == 0 && v.s5 == 0)
  {
    SplitsBack(v.s6, v.s7);
    SplitsBack(v.s1, v.s2);
    hide High, Low, EmbeddedV4;
  }

  lemma Ipv6Cases(v: V6)
    ensures CheckIpv6(v) != Accepted <==> Internal(v) || (StandsFor(v, Inner(v)) && CheckIpv4(Inner(v)) != Accepted)
  {
    LowestAreRefused();
    LowestInner();
    Covered(v);
    InternalRanges(v);
    hide CheckIpv4, StandsFor, EmbeddedV4;
    if v.s0 == 0x2002 || v.s0 == 0x64 || v.s0 == 0 {
      assert !Internal(v);
    }
  }

  lemma LowestInner()
    ensures EmbeddedV4(0, 0) == V4(0, 0, 0, 0) && EmbeddedV4(0, 1) == V4(0, 0, 0, 1)
  {}

  /** The whole IPv6 rule: refused if and only if the address lies in one of four internal
      ranges or stands for a refused IPv4 address.  `::` and `::1` need no case of their own. */
  lemma RefusedV6IsExact(v: V6)
    ensures CheckIpv6(v) != Accepted <==>
              Internal(v) || exists x :: StandsFor(v, x) && CheckIpv4(x) != Accepted
  {
    hide CheckIpv4, StandsFor, Inner, CheckIpv6, Internal;
    Ipv6Cases(v);
    forall x | StandsFor(v, x) ensures x == Inner(v) {
      StandsForInner(v, x);
    }
  }

  lemma SplitsBack(high: Segment, low: Segment)
    ensures High(EmbeddedV4(high, low)) == high && Low(EmbeddedV4(high, low)) == low
  {}

  lemma InternalRanges(v: V6)
    ensures Internal(v) <==>
              || v.s0 / 0x100 == 0xff || v.s0 / 0x40 == 0xfe80 / 0x40
              || v.s0 / 0x200 == 0xfc00 / 0x200 || v.s0 / 0x40 == 0xfec0 / 0x40
  {}

  /** An IPv4 address in a documented block or in one of the two wide ones. */
  predicate RefusedV4(v: V4) {
    Documented(v) || InBlock(v, V4(192, 0, 0, 0), SLASH_16) || InBlock(v, V4(192, 2, 0, 0), SLASH_16)
  }

  /** The policy in one sentence: unless private addresses are allowed, exactly the addresses are
      accepted that lie in no refused block, in no internal range, and stand for none that does. */
  lemma PolicyIsExact(ip: Ip, allowPrivate: bool)
    ensures CheckIp(ip, allowPrivate) == Accepted <==>
              || allowPrivate
              || match ip
                 case Four(v) => !RefusedV4(v)
                 case Six(v) => !Internal(v) && forall x :: StandsFor(v, x) ==> !RefusedV4(x)
  {
    hide CheckIpv4, CheckIpv6, Internal, StandsFor, RefusedV4;
    match ip
    case Four(v) => RefusedMeans(v);
    case Six(v) =>
      RefusedV6IsExact(v);
      forall x ensures CheckIpv4(x) != Accepted <==> RefusedV4(x) {
        RefusedMeans(x);
      }
  }

  lemma RefusedMeans(v: V4)
    ensures CheckIpv4(v) != Accepted <==> RefusedV4(v)
  {
    RefusedBlocksAreExact(v);
    hide CheckIpv4, Documented, InBlock;
  }
}
