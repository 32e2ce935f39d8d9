/** `Trackdown::IpValidator`: syntax check and private-address test for an IP argument. */
module IpValidator {
  import opened Wrappers
  import opened Errors
  import opened IpAddr
  import opened Text

  /** `ip.to_s` for a string or `nil`. */
  function ToS(ip: Option<string>): string {
    ip.GetOr("")
  }

  /**
   * `validate!`: `nil` passes (and yields `nil`); otherwise the text must
   * parse as an `IPAddr`, else an `InvalidIpError` naming the input is raised.
   */
  function Validate(parseOther: string -> Option<Addr>, ip: Option<string>): (r: Result<Option<Addr>, Error>)
    ensures ip.None? ==> r == Ok(None)
    ensures ip.Some? ==> (r.Ok? <==> Parse(parseOther, ip.value).Some?)
    ensures r.Ok? && ip.Some? ==> r.value == Parse(parseOther, ip.value)
    ensures r.Err? ==> r.error == Error(InvalidIp, "Invalid IP address format: " + ToS(ip))
  {
    if ip.None? then Ok(None)
    else
      match Parse(parseOther, ip.value)
      case Some(a) => Ok(Some(a))
      case None => Err(Error(InvalidIp, "Invalid IP address format: " + ToS(ip)))
  }

  /** `addr.private? || addr.loopback?`. */
  predicate IsPrivateOrLoopback(a: Addr) {
    IsPrivate(a) || IsLoopback(a)
  }

  /**
   * `private_ip?`: parses `ip.to_s` with no rescue, so unparsable text, and
   * `nil` (which becomes the empty text), raise `IPAddr::InvalidAddressError`.
   */
  function PrivateIp(parseOther: string -> Option<Addr>, ip: Option<string>): (r: Result<bool, Error>)
    ensures r.Ok? <==> Parse(parseOther, ToS(ip)).Some?
    ensures r.Ok? ==> (r.value <==> IsPrivateOrLoopback(Parse(parseOther, ToS(ip)).value))
    ensures r.Err? ==> r.error.kind == InvalidAddress
  {
    match Parse(parseOther, ToS(ip))
    case Some(a) => Ok(IsPrivateOrLoopback(a))
    case None => Err(Error(InvalidAddress, "invalid address: " + ToS(ip)))
  }

  /** `private_ip?(nil)` raises: `nil.to_s` is the empty text, which is no address. */
  lemma PrivateIpOfNil(parseOther: string -> Option<Addr>)
    ensures PrivateIp(parseOther, None).Err?
  {
  }

  /** An address that `validate!` accepts never makes `private_ip?` raise. */
  lemma ValidatedIsClassifiable(parseOther: string -> Option<Addr>, ip: Option<string>)
    requires ip.Some? && Validate(parseOther, ip).Ok?
    ensures PrivateIp(parseOther, ip).Ok?
  {
  }

  /** The IPv4 addresses counted as private or loopback, as intervals of the address space. */
  predicate InPrivateOrLoopbackRangeV4(x: U32) {
    (0x0A00_0000 <= x < 0x0B00_0000)      // 10.0.0.0/8
    || (0xAC10_0000 <= x < 0xAC20_0000)   // 172.16.0.0/12
    || (0xC0A8_0000 <= x < 0xC0A9_0000)   // 192.168.0.0/16
    || (0x7F00_0000 <= x < 0x8000_0000)   // 127.0.0.0/8
  }

  /** The masked tests of `private?`/`loopback?` on IPv4 pick out exactly those four intervals. */
  lemma PrivateV4Ranges(x: U32)
    ensures IsPrivateOrLoopback(V4(x)) <==> InPrivateOrLoopbackRangeV4(x)
  {
  }

  /** An IPv4-mapped IPv6 address is classified like the IPv4 address it carries. */
  lemma MappedClassifiedLikeNative(x: U32)
    ensures IsPrivateOrLoopback(Ipv4Mapped(x)) <==> IsPrivateOrLoopback(V4(x))
  {
    var y := 0xffff * TWO_32 + x;
    assert y / TWO_32 == 0xffff;
    assert y % TWO_32 == x;
    assert y / 0x200_0000_0000_0000_0000_0000_0000_0000 == 0;
  }

  /** ::1 is loopback; fc00::1 and fd00::1 lie in the unique-local block fc00::/7. */
  lemma Ipv6Examples()
    ensures IsPrivateOrLoopback(V6(1))
    ensures IsPrivateOrLoopback(V6(0xfc00_0000_0000_0000_0000_0000_0000_0001))
    ensures IsPrivateOrLoopback(V6(0xfd00_0000_0000_0000_0000_0000_0000_0001))
    ensures !IsPrivateOrLoopback(V6(0x2001_4860_4860_0000_0000_0000_0000_8888))
  {
  }

  /** Dotted-quad inputs are classified without consulting `parseOther`, by the four intervals. */
  lemma PrivateIpOfShownV4(parseOther: string -> Option<Addr>, x: U32)
    ensures PrivateIp(parseOther, Some(ShowV4(x))) == Ok(InPrivateOrLoopbackRangeV4(x))
  {
    ParseShowV4(parseOther, x);
    PrivateV4Ranges(x);
  }

  /** Examples: 192.168.1.1, 10.255.255.255, 172.31.255.255 and 127.0.0.2 are private; 169.254.1.1 and 8.8.8.8 are not. */
  lemma Ipv4Examples(parseOther: string -> Option<Addr>)
    ensures PrivateIp(parseOther, Some(ShowV4(Compose(192, 168, 1, 1)))) == Ok(true)
    ensures PrivateIp(parseOther, Some(ShowV4(Compose(10, 255, 255, 255)))) == Ok(true)
    ensures PrivateIp(parseOther, Some(ShowV4(Compose(172, 31, 255, 255)))) == Ok(true)
    ensures PrivateIp(parseOther, Some(ShowV4(Compose(127, 0, 0, 2)))) == Ok(true)
    ensures PrivateIp(parseOther, Some(ShowV4(Compose(169, 254, 1, 1)))) == Ok(false)
    ensures PrivateIp(parseOther, Some(ShowV4(Compose(8, 8, 8, 8)))) == Ok(false)
  {
    PrivateIpOfShownV4(parseOther, Compose(192, 168, 1, 1));
    PrivateIpOfShownV4(parseOther, Compose(10, 255, 255, 255));
    PrivateIpOfShownV4(parseOther, Compose(172, 31, 255, 255));
    PrivateIpOfShownV4(parseOther, Compose(127, 0, 0, 2));
    PrivateIpOfShownV4(parseOther, Compose(169, 254, 1, 1));
    PrivateIpOfShownV4(parseOther, Compose(8, 8, 8, 8));
  }

  /**
   * A dotted quad with an octet above 255 (such as 256.256.256.256) or a
   * zero-filled octet (such as 010.0.0.1) is rejected by `validate!`,
   * whatever `parseOther` would say about it.
   */
  lemma {:induction false} RejectsBadOctet(parseOther: string -> Option<Addr>, octets: seq<string>, k: nat)
    requires |octets| == 4 && k < 4
    requires forall i :: 0 <= i < 4 ==> octets[i] != [] && AllDigits(octets[i]) && '.' !in octets[i]
    requires ParseNat(octets[k]) > 255 || (|octets[k]| > 1 && octets[k][0] == '0')
    ensures Validate(parseOther, Some(Join(octets, "."))).Err?
  {
    SplitJoin(octets, '.');
  }
}
