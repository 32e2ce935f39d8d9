/**
 * The slice of Ruby's `ipaddr` library that the geolocation core uses.
 *
 * Addresses are 32-bit (IPv4) or 128-bit (IPv6) integers. Parsing of the
 * dotted-quad form and printing of IPv4 addresses are modelled exactly;
 * parsing every other text form (IPv6 literals, prefixes, zones, brackets)
 * and printing IPv6 addresses are supplied by the caller as functions.
 */
module IpAddr {
  import opened Wrappers
  import opened Text

  const TWO_32: nat := 0x1_0000_0000

  type U32 = n: nat | n < 0x1_0000_0000
  type U128 = n: nat | n < 0x1_0000_0000_0000_0000_0000_0000_0000_0000

  /** An `IPAddr` value: its family and its address bits. */
  datatype Addr = V4(v4: U32) | V6(v6: U128)

  /** `IPAddr#ipv4_mapped?`: an IPv6 address of the form ::ffff:a.b.c.d. */
  predicate IsIpv4Mapped(a: Addr) {
    a.V6? && a.v6 / TWO_32 == 0xffff
  }

  /** The IPv6 address ::ffff:a.b.c.d for the IPv4 address `x`. */
  function Ipv4Mapped(x: U32): (a: Addr)
    ensures IsIpv4Mapped(a)
  {
    V6(0xffff * TWO_32 + x)
  }

  /**
   * `IPAddr#native`, used only on mapped addresses: the embedded IPv4 address.
   * Mapping it back gives the original address.
   */
  function Native(a: Addr): (r: Addr)
    ensures IsIpv4Mapped(a) ==> r.V4? && Ipv4Mapped(r.v4) == a
    ensures !IsIpv4Mapped(a) ==> r == a
  {
    if IsIpv4Mapped(a) then V4(a.v6 % TWO_32) else a
  }

  lemma NativeOfMapped(x: U32)
    ensures Native(Ipv4Mapped(x)) == V4(x)
  {
  }

  /** The four octets of an IPv4 address, most significant first. */
  function Octets(x: U32): (o: seq<nat>)
    ensures |o| == 4 && o[0] < 256 && o[1] < 256 && o[2] < 256 && o[3] < 256
  {
    [x / 0x100_0000, (x / 0x1_0000) % 256, (x / 256) % 256, x % 256]
  }

  /** Putting the octets back together gives the address. */
  lemma ComposeOctets(x: U32)
    ensures var o := Octets(x); Compose(o[0], o[1], o[2], o[3]) == x
  {
  }

  /** The address whose octets are `a.b.c.d`. */
  function Compose(a: nat, b: nat, c: nat, d: nat): nat {
    ((a * 256 + b) * 256 + c) * 256 + d
  }

  /** Distinct octet quadruples give distinct addresses: `Octets` undoes `Compose`. */
  lemma OctetsOfCompose(a: nat, b: nat, c: nat, d: nat)
    requires a < 256 && b < 256 && c < 256 && d < 256
    ensures Compose(a, b, c, d) < TWO_32
    ensures Octets(Compose(a, b, c, d)) == [a, b, c, d]
  {
    var hi := a * 256 + b;
    var mid := hi * 256 + c;
    var x := mid * 256 + d;
    assert Compose(a, b, c, d) == x;
    DivModOfSum(mid, d, 256);
    DivModOfSum(hi, c, 256);
    assert x == hi * 0x1_0000 + (c * 256 + d);
    DivModOfSum(hi, c * 256 + d, 0x1_0000);
    DivModOfSum(a, b, 256);
    assert x == a * 0x100_0000 + ((b * 256 + c) * 256 + d);
    DivModOfSum(a, (b * 256 + c) * 256 + d, 0x100_0000);
  }

  /** Dividing `q * k + r` by a power of 256 `k` gives `q` with remainder `r` when `r < k`. */
  lemma DivModOfSum(q: nat, r: nat, k: nat)
    requires k == 256 || k == 0x1_0000 || k == 0x100_0000
    requires r < k
    ensures (q * k + r) / k == q && (q * k + r) % k == r
  {
    if k == 256 {
      assert (q * 256 + r) / 256 == q;
    } else if k == 0x1_0000 {
      assert (q * 0x1_0000 + r) / 0x1_0000 == q;
    } else {
      assert (q * 0x100_0000 + r) / 0x100_0000 == q;
    }
  }

  /** `IPAddr#to_s` of an IPv4 address: the octets in decimal joined by dots. */
  function ShowV4(x: U32): string {
    var o := Octets(x);
    Join([NatToString(o[0]), NatToString(o[1]), NatToString(o[2]), NatToString(o[3])], ".")
  }

  /** `IPAddr#to_s`; the IPv6 text form is the given `showV6`. */
  function Show(showV6: U128 -> string, a: Addr): string {
    match a
    case V4(x) => ShowV4(x)
    case V6(y) => showV6(y)
  }

  /** Text of the shape `\A(\d+)\.(\d+)\.(\d+)\.(\d+)\z`. */
  predicate IsDottedQuad(s: string) {
    var p := Split(s, '.');
    |p| == 4 && forall i :: 0 <= i < 4 ==> p[i] != [] && AllDigits(p[i])
  }

  /** A decimal octet that `IPAddr` accepts: at most 255 and not zero-filled. */
  predicate IsOctetText(t: string)
    requires AllDigits(t)
  {
    ParseNat(t) < 256 && (t == "0" || t == [] || t[0] != '0')
  }

  /**
   * `IPAddr.new(s)`: `None` stands for `IPAddr::InvalidAddressError`. A
   * dotted quad is an IPv4 address or an error (an octet above 255 or a
   * zero-filled octet); the empty text is an error; any other text is
   * interpreted by `parseOther`.
   */
  function Parse(parseOther: string -> Option<Addr>, s: string): (r: Option<Addr>)
    ensures IsDottedQuad(s) && r.Some? ==> r.value.V4? && ShowV4(r.value.v4) == s
    ensures s == [] ==> r.None?
  {
    if IsDottedQuad(s) then
      var p := Split(s, '.');
      if IsOctetText(p[0]) && IsOctetText(p[1]) && IsOctetText(p[2]) && IsOctetText(p[3]) then
        var x := Compose(ParseNat(p[0]), ParseNat(p[1]), ParseNat(p[2]), ParseNat(p[3]));
        OctetsOfCompose(ParseNat(p[0]), ParseNat(p[1]), ParseNat(p[2]), ParseNat(p[3]));
        DottedQuadOfCanonical(s, p);
        Some(V4(x))
      else None
    else if s == [] then None
    else parseOther(s)
  }

  /** The dots in `ShowV4(x)` separate exactly its four canonical octets. */
  lemma ShowV4Pieces(x: U32)
    ensures var o := Octets(x);
      Split(ShowV4(x), '.') == [NatToString(o[0]), NatToString(o[1]), NatToString(o[2]), NatToString(o[3])]
    ensures var p := Split(ShowV4(x), '.');
      |p| == 4 && forall i :: 0 <= i < 4 ==> AllDigits(p[i]) && IsOctetText(p[i]) && ParseNat(p[i]) == Octets(x)[i]
  {
    var o := Octets(x);
    var p := [NatToString(o[0]), NatToString(o[1]), NatToString(o[2]), NatToString(o[3])];
    forall i | 0 <= i < 4
      ensures '.' !in p[i] && ParseNat(p[i]) == o[i]
    {
      assert p[i] == NatToString(o[i]);
      ParseNatOfNatToString(o[i]);
      assert forall j :: 0 <= j < |p[i]| ==> p[i][j] != '.';
    }
    SplitJoin(p, '.');
  }

  /** A dotted quad of canonical octets is the printed form of its value. */
  lemma DottedQuadOfCanonical(s: string, p: seq<string>)
    requires p == Split(s, '.') && IsDottedQuad(s)
    requires IsOctetText(p[0]) && IsOctetText(p[1]) && IsOctetText(p[2]) && IsOctetText(p[3])
    ensures Compose(ParseNat(p[0]), ParseNat(p[1]), ParseNat(p[2]), ParseNat(p[3])) < TWO_32
    ensures ShowV4(Compose(ParseNat(p[0]), ParseNat(p[1]), ParseNat(p[2]), ParseNat(p[3]))) == s
  {
    OctetsOfCompose(ParseNat(p[0]), ParseNat(p[1]), ParseNat(p[2]), ParseNat(p[3]));
    NatToStringOfParseNat(p[0]);
    NatToStringOfParseNat(p[1]);
    NatToStringOfParseNat(p[2]);
    NatToStringOfParseNat(p[3]);
    JoinSplit(s, '.');
    assert p == [p[0], p[1], p[2], p[3]];
  }

  /** The printed form of an IPv4 address starts and ends with a digit and holds only digits and dots. */
  lemma ShowV4Characters(x: U32)
    ensures ShowV4(x) != [] && IsDigit(ShowV4(x)[0]) && IsDigit(ShowV4(x)[|ShowV4(x)| - 1])
    ensures forall i :: 0 <= i < |ShowV4(x)| ==> IsDigit(ShowV4(x)[i]) || ShowV4(x)[i] == '.'
  {
    var o := Octets(x);
    var p := [NatToString(o[0]), NatToString(o[1]), NatToString(o[2]), NatToString(o[3])];
    assert p[1..][1..][1..] == [p[3]];
    assert Join(p[1..][1..], ".") == p[2] + "." + p[3];
    assert Join(p[1..], ".") == p[1] + "." + (p[2] + "." + p[3]);
    assert Join(p, ".") == p[0] + "." + (p[1] + "." + (p[2] + "." + p[3]));
  }

  /** Printing an IPv4 address and parsing the text gives the address back. */
  lemma ParseShowV4(parseOther: string -> Option<Addr>, x: U32)
    ensures Parse(parseOther, ShowV4(x)) == Some(V4(x))
  {
    ShowV4Pieces(x);
    var o := Octets(x);
    OctetsOfCompose(o[0], o[1], o[2], o[3]);
    ComposeOctets(x);
  }

  /**
   * The private IPv4 ranges 10/8, 172.16/12 and 192.168/16, tested on the low
   * 32 bits as `IPAddr` does (`addr & 0xff000000 == 0x0a000000` and so on).
   */
  predicate IsPrivateV4Bits(x: nat) {
    var v := x % TWO_32;
    v / 0x100_0000 == 0x0a || v / 0x10_0000 == 0xac1 || v / 0x1_0000 == 0xc0a8
  }

  /** 127/8 tested on the low 32 bits. */
  predicate IsLoopbackV4Bits(x: nat) {
    (x % TWO_32) / 0x100_0000 == 0x7f
  }

  /**
   * The mapped-address test inside `IPAddr#private?` and `IPAddr#loopback?`:
   * `addr & 0xffff_0000_0000 == 0xffff_0000_0000`, which looks at bits 32..47 only.
   */
  predicate HasMappedMarker(y: nat) {
    (y / TWO_32) % 0x1_0000 == 0xffff
  }

  /** `IPAddr#private?`: the private IPv4 ranges, fc00::/7, and the IPv4 ranges behind the mapped marker. */
  predicate IsPrivate(a: Addr) {
    match a
    case V4(x) => IsPrivateV4Bits(x)
    case V6(y) => y / 0x200_0000_0000_0000_0000_0000_0000_0000 == 0x7e || (HasMappedMarker(y) && IsPrivateV4Bits(y))
  }

  /** `IPAddr#loopback?`: 127/8, ::1, and 127/8 behind the mapped marker. */
  predicate IsLoopback(a: Addr) {
    match a
    case V4(x) => IsLoopbackV4Bits(x)
    case V6(y) => y == 1 || (HasMappedMarker(y) && IsLoopbackV4Bits(y))
  }
}
