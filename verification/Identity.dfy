/** Node identity: an IPv4 endpoint plus a boot timestamp, with the text form that
    keys the membership table and travels in messages, and the 14-byte binary form. */
module Identity {
  import opened Wrappers

  type u8 = x: nat | x < 0x100
  type u16 = x: nat | x < 0x1_0000
  type u64 = x: nat | x < 0x1_0000_0000_0000_0000

  /** `NoAddr` is the zero address; every other address is IPv4. */
  datatype Addr = NoAddr | V4(a: u8, b: u8, c: u8, d: u8)

  datatype Endpoint = Endpoint(ip: Addr, port: u16)

  datatype NodeId = NodeId(ep: Endpoint, ts: u64)

  datatype ParseError = BadNodeId | BadEndpoint | ZeroEndpoint | ShortBuffer

  // ------------------------------ printing ------------------------------

  function Digit(d: nat): char
    requires d < 10
  {
    '0' + d as char
  }

  function Decimal(n: nat): string {
    if n < 10 then [Digit(n)] else Decimal(n / 10) + [Digit(n % 10)]
  }

  function AddrToString(ip: Addr): string {
    match ip
    case NoAddr => "invalid IP"
    case V4(a, b, c, d) => Decimal(a) + "." + Decimal(b) + "." + Decimal(c) + "." + Decimal(d)
  }

  function EndpointToString(ep: Endpoint): string {
    AddrToString(ep.ip) + ":" + Decimal(ep.port)
  }

  function NodeIdToString(n: NodeId): string {
    EndpointToString(n.ep) + "@" + Decimal(n.ts)
  }

  // ------------------------------ parsing -------------------------------

  predicate IsDigit(c: char) {
    '0' <= c <= '9'
  }

  predicate AllDigits(s: string) {
    forall i | 0 <= i < |s| :: IsDigit(s[i])
  }

  function DigitsValue(s: string): nat
    requires AllDigits(s)
  {
    if s == [] then 0 else 10 * DigitsValue(s[..|s| - 1]) + (s[|s| - 1] - '0') as nat
  }

  /** A nonempty run of decimal digits below `bound`; leading zeros are accepted. */
  function ParseUint(s: string, bound: nat): Option<nat> {
    if s == [] || !AllDigits(s) || DigitsValue(s) >= bound then None else Some(DigitsValue(s))
  }

  /** An IPv4 octet: like ParseUint, but a leading zero is an error. */
  function ParseOctet(s: string): Option<nat> {
    if |s| > 1 && s[0] == '0' then None else ParseUint(s, 0x100)
  }

  function Split(s: string, sep: char): (parts: seq<string>)
    ensures |parts| > 0
  {
    if s == [] then [[]]
    else
      var rest := Split(s[1..], sep);
      if s[0] == sep then [[]] + rest else [[s[0]] + rest[0]] + rest[1..]
  }

  function ParseAddr(s: string): Option<Addr> {
    var f := Split(s, '.');
    if |f| != 4 then None
    else
      match (ParseOctet(f[0]), ParseOctet(f[1]), ParseOctet(f[2]), ParseOctet(f[3]))
      case (Some(a), Some(b), Some(c), Some(d)) => Some(V4(a, b, c, d))
      case _ => None
  }

  /** The index of the last `c` in `s`, or -1. */
  function LastIndex(s: string, c: char): (i: int)
    ensures -1 <= i < |s|
    ensures i >= 0 ==> s[i] == c
    ensures forall j | i < j < |s| :: s[j] != c
  {
    if s == [] then -1
    else if s[|s| - 1] == c then |s| - 1
    else LastIndex(s[..|s| - 1], c)
  }

  function ParseEndpoint(s: string): Result<Endpoint, ParseError> {
    var i := LastIndex(s, ':');
    if i < 0 then Failure(BadEndpoint)
    else
      match (ParseAddr(s[..i]), ParseUint(s[i + 1..], 0x1_0000))
      case (Some(ip), Some(port)) => Success(Endpoint(ip, port))
      case _ => Failure(BadEndpoint)
  }

  function ParseNodeId(s: string): Result<NodeId, ParseError> {
    var parts := Split(s, '@');
    if |parts| != 2 then Failure(BadNodeId)
    else
      match ParseEndpoint(parts[0])
      case Failure(e) => Failure(e)
      case Success(ep) =>
        match ParseUint(parts[1], 0x1_0000_0000_0000_0000)
        case None => Failure(BadNodeId)
        case Some(ts) => Success(NodeId(ep, ts))
  }

  // --------------------------- text round trip --------------------------

  lemma {:induction false} DecimalDigits(n: nat)
    ensures |Decimal(n)| > 0 && AllDigits(Decimal(n)) && DigitsValue(Decimal(n)) == n
    ensures Decimal(n)[0] == '0' ==> |Decimal(n)| == 1
  {
    if n >= 10 {
      DecimalDigits(n / 10);
      assert Decimal(n)[..|Decimal(n)| - 1] == Decimal(n / 10);
    }
  }

  lemma ParseDecimal(n: nat, bound: nat)
    requires n < bound
    ensures ParseUint(Decimal(n), bound) == Some(n)
    ensures bound == 0x100 ==> ParseOctet(Decimal(n)) == Some(n)
  {
    DecimalDigits(n);
  }

  lemma {:induction false} SplitNone(s: string, sep: char)
    requires sep !in s
    ensures Split(s, sep) == [s]
  {
    if s == [] {
    } else {
      assert s[0] in s;
      SplitNone(s[1..], sep);
      assert [s[0]] + s[1..] == s;
    }
  }

  lemma {:induction false} SplitHead(s: string, sep: char, t: string)
    requires sep !in s
    ensures Split(s + [sep] + t, sep) == [s] + Split(t, sep)
  {
    var u := s + [sep] + t;
    if s == [] {
      assert u[1..] == t;
    } else {
      assert s[0] in s;
      SplitHead(s[1..], sep, t);
      assert u[1..] == s[1..] + [sep] + t;
      assert [s[0]] + s[1..] == s;
    }
  }

  lemma OctetText(n: u8)
    ensures var s := Decimal(n); ParseOctet(s) == Some(n) && '.' !in s && '@' !in s && ':' !in s
  {
    DecimalDigits(n);
    ParseDecimal(n, 0x100);
  }

  lemma SplitFour(a: string, b: string, c: string, d: string, sep: char)
    requires sep !in a && sep !in b && sep !in c && sep !in d
    ensures Split(a + [sep] + b + [sep] + c + [sep] + d, sep) == [a, b, c, d]
  {
    SplitNone(d, sep);
    SplitHead(c, sep, d);
    var cd := c + [sep] + d;
    SplitHead(b, sep, cd);
    var bcd := b + [sep] + cd;
    SplitHead(a, sep, bcd);
    assert a + [sep] + b + [sep] + c + [sep] + d == a + [sep] + bcd;
    assert [a] + ([b] + ([c] + [d])) == [a, b, c, d];
  }

  lemma AddrRoundTrip(ip: Addr)
    requires ip.V4?
    ensures ParseAddr(AddrToString(ip)) == Some(ip)
    ensures '@' !in AddrToString(ip) && ':' !in AddrToString(ip)
  {
    var (a, b, c, d) := (Decimal(ip.a), Decimal(ip.b), Decimal(ip.c), Decimal(ip.d));
    OctetText(ip.a);
    OctetText(ip.b);
    OctetText(ip.c);
    OctetText(ip.d);
    SplitFour(a, b, c, d, '.');
  }

  lemma {:induction false} LastIndexOf(s: string, c: char, t: string)
    requires c !in t
    ensures LastIndex(s + [c] + t, c) == |s|
  {
    var u := s + [c] + t;
    assert u[|s|] == c;
    assert forall j | |s| < j < |u| :: u[j] == t[j - |s| - 1];
  }

  lemma EndpointRoundTrip(ep: Endpoint)
    requires ep.ip.V4?
    ensures ParseEndpoint(EndpointToString(ep)) == Success(ep)
    ensures '@' !in EndpointToString(ep)
  {
    var s, t := AddrToString(ep.ip), Decimal(ep.port);
    AddrRoundTrip(ep.ip);
    DecimalDigits(ep.port);
    ParseDecimal(ep.port, 0x1_0000);
    var u := EndpointToString(ep);
    assert u == s + [':'] + t;
    LastIndexOf(s, ':', t);
    assert u[..|s|] == s && u[|s| + 1..] == t;
  }

  /** Printing a NodeId over an IPv4 endpoint and parsing the text gives it back. */
  lemma TextRoundTrip(n: NodeId)
    requires n.ep.ip.V4?
    ensures ParseNodeId(NodeIdToString(n)) == Success(n)
  {
    var s, t := EndpointToString(n.ep), Decimal(n.ts);
    EndpointRoundTrip(n.ep);
    DecimalDigits(n.ts);
    ParseDecimal(n.ts, 0x1_0000_0000_0000_0000);
    assert NodeIdToString(n) == s + ['@'] + t;
    SplitHead(s, '@', t);
    SplitNone(t, '@');
  }

  lemma ZeroEndpointUnparsable(port: u16)
    ensures ParseEndpoint(EndpointToString(Endpoint(NoAddr, port))).Failure?
    ensures LastIndex(EndpointToString(Endpoint(NoAddr, port)), ':') == |"invalid IP"|
  {
    var s, t := "invalid IP", Decimal(port);
    DecimalDigits(port);
    var u := EndpointToString(Endpoint(NoAddr, port));
    assert u == s + [':'] + t;
    LastIndexOf(s, ':', t);
    assert u[..|s|] == s;
    SplitNone(s, '.');
  }

  /** The table key determines the endpoint: no two endpoints print alike, zero addresses included. */
  lemma EndpointKeyInjective(p: Endpoint, q: Endpoint)
    requires EndpointToString(p) == EndpointToString(q)
    ensures p == q
  {
    if p.ip.V4? { EndpointRoundTrip(p); } else { ZeroEndpointUnparsable(p.port); }
    if q.ip.V4? { EndpointRoundTrip(q); } else { ZeroEndpointUnparsable(q.port); }
    if p.ip.NoAddr? && q.ip.NoAddr? {
      var n := |"invalid IP"| + 1;
      assert EndpointToString(p)[n..] == Decimal(p.port);
      assert EndpointToString(q)[n..] == Decimal(q.port);
      DecimalDigits(p.port);
      DecimalDigits(q.port);
    }
  }

  predicate NoLeadingZero(s: string) {
    |s| > 1 ==> s[0] != '0'
  }

  lemma {:induction false} DecimalOfDigits(s: string)
    requires s != [] && AllDigits(s)
    ensures Decimal(DigitsValue(s)) == s <==> NoLeadingZero(s)
  {
    var n := DigitsValue(s);
    DecimalDigits(n);
    if NoLeadingZero(s) {
      CanonicalDigits(s);
    }
  }

  lemma {:induction false} CanonicalDigits(s: string)
    requires s != [] && AllDigits(s) && NoLeadingZero(s)
    ensures Decimal(DigitsValue(s)) == s
    ensures |s| > 1 ==> DigitsValue(s) >= 10
  {
    var k := |s| - 1;
    var d := (s[k] - '0') as nat;
    assert IsDigit(s[k]) && d < 10 && Digit(d) == s[k];
    if k == 0 {
      assert s[..0] == [];
      assert s == [s[0]];
    } else {
      CanonicalDigits(s[..k]);
      assert s == s[..k] + [s[k]];
      if k == 1 {
        assert s[..1][..0] == [];
        assert DigitsValue(s[..1]) == (s[0] - '0') as nat >= 1;
      }
      var n := DigitsValue(s);
      assert n == 10 * DigitsValue(s[..k]) + d;
      assert n / 10 == DigitsValue(s[..k]) && n % 10 == d;
    }
  }

  /** The pieces of a split, glued back together. */
  function Join(parts: seq<string>, sep: char): string
    requires |parts| > 0
  {
    if |parts| == 1 then parts[0] else parts[0] + [sep] + Join(parts[1..], sep)
  }

  lemma {:induction false} JoinSplit(s: string, sep: char)
    ensures Join(Split(s, sep), sep) == s
  {
    if s == [] {
    } else {
      var rest := Split(s[1..], sep);
      JoinSplit(s[1..], sep);
      assert [s[0]] + s[1..] == s;
      if s[0] == sep {
        assert ([[]] + rest)[1..] == rest;
      } else {
        assert ([[s[0]] + rest[0]] + rest[1..])[1..] == rest[1..];
      }
    }
  }

  lemma OctetPrints(s: string)
    requires ParseOctet(s).Some?
    ensures Decimal(ParseOctet(s).value) == s
  {
    DecimalOfDigits(s);
  }

  lemma JoinFour(a: string, b: string, c: string, d: string, sep: char)
    ensures Join([a, b, c, d], sep) == a + [sep] + b + [sep] + c + [sep] + d
  {
    assert Join([d], sep) == d;
    assert [c, d][1..] == [d] && Join([c, d], sep) == c + [sep] + d;
    assert [b, c, d][1..] == [c, d] && Join([b, c, d], sep) == b + [sep] + (c + [sep] + d);
    assert [a, b, c, d][1..] == [b, c, d];
  }

  lemma ParsedAddrPrints(s: string)
    requires ParseAddr(s).Some?
    ensures AddrToString(ParseAddr(s).value) == s
  {
    var f := Split(s, '.');
    JoinSplit(s, '.');
    assert f == [f[0], f[1], f[2], f[3]];
    JoinFour(f[0], f[1], f[2], f[3], '.');
    OctetPrints(f[0]);
    OctetPrints(f[1]);
    OctetPrints(f[2]);
    OctetPrints(f[3]);
  }

  lemma PartsDetermined(a: string, p: string, p': string, t: string, t': string)
    requires AllDigits(t) && AllDigits(t')
    ensures a + ":" + p + "@" + t == a + ":" + p' + "@" + t' <==> p == p' && t == t'
  {
    var (e, e') := (a + ":" + p, a + ":" + p');
    if e + "@" + t == e' + "@" + t' {
      LastIndexOf(e, '@', t);
      LastIndexOf(e', '@', t');
      var u := e + "@" + t;
      assert t == u[|e| + 1..] && t' == u[|e'| + 1..];
      assert u[..|e|] == e && u[..|e'|] == e';
      assert p == e[|a| + 1..] && p' == e'[|a| + 1..];
    }
  }

  lemma ParsedEndpoint(s: string)
    requires ParseEndpoint(s).Success?
    ensures var (i, ep) := (LastIndex(s, ':'), ParseEndpoint(s).value);
      i >= 0 && s == AddrToString(ep.ip) + ":" + s[i + 1..]
      && ParseUint(s[i + 1..], 0x1_0000) == Some(ep.port)
  {
    var i := LastIndex(s, ':');
    ParsedAddrPrints(s[..i]);
    assert s == s[..i] + [s[i]] + s[i + 1..];
  }

  /** Parsing accepts more texts than printing produces: exactly those whose port or timestamp
      carries a superfluous leading zero print differently from how they were written. */
  lemma TextCanonical(s: string)
    requires ParseNodeId(s).Success?
    ensures var parts := Split(s, '@');
      var i := LastIndex(parts[0], ':');
      NodeIdToString(ParseNodeId(s).value) == s
      <==> NoLeadingZero(parts[0][i + 1..]) && NoLeadingZero(parts[1])
  {
    var parts := Split(s, '@');
    JoinSplit(s, '@');
    var (e, t) := (parts[0], parts[1]);
    assert Join(parts[1..], '@') == t;
    assert s == e + ['@'] + t;
    ParsedEndpoint(e);
    var p := e[LastIndex(e, ':') + 1..];
    DecimalOfDigits(p);
    DecimalOfDigits(t);
    var n := ParseNodeId(s).value;
    DecimalDigits(n.ts);
    PartsDetermined(AddrToString(n.ep.ip), p, Decimal(n.ep.port), t, Decimal(n.ts));
  }

  // --------------------------- binary round trip ------------------------

  /** `width` bytes of `n`, most significant first. */
  function BigEndian(n: nat, width: nat): (b: seq<u8>)
    ensures |b| == width
  {
    if width == 0 then [] else BigEndian(n / 0x100, width - 1) + [n % 0x100]
  }

  function FromBigEndian(b: seq<u8>): nat {
    if b == [] then 0 else 0x100 * FromBigEndian(b[..|b| - 1]) + b[|b| - 1]
  }

  function Pow256(width: nat): nat {
    if width == 0 then 1 else 0x100 * Pow256(width - 1)
  }

  lemma {:induction false} BigEndianRoundTrip(n: nat, width: nat)
    requires n < Pow256(width)
    ensures FromBigEndian(BigEndian(n, width)) == n
  {
    if width == 0 {
    } else {
      BigEndianRoundTrip(n / 0x100, width - 1);
      var b := BigEndian(n, width);
      assert b[..|b| - 1] == BigEndian(n / 0x100, width - 1);
    }
  }

  lemma {:induction false} FromBigEndianRoundTrip(b: seq<u8>)
    ensures FromBigEndian(b) < Pow256(|b|)
    ensures BigEndian(FromBigEndian(b), |b|) == b
  {
    if b == [] {
    } else {
      var k := |b| - 1;
      FromBigEndianRoundTrip(b[..k]);
      var n := FromBigEndian(b);
      assert n / 0x100 == FromBigEndian(b[..k]) && n % 0x100 == b[k];
      assert b == b[..k] + [b[k]];
    }
  }

  lemma Pow256Values()
    ensures Pow256(2) == 0x1_0000 && Pow256(8) == 0x1_0000_0000_0000_0000
  {
    assert Pow256(1) == 0x100 && Pow256(2) == 0x1_0000 && Pow256(3) == 0x100_0000;
    assert Pow256(4) == 0x1_0000_0000 && Pow256(5) == 0x100_0000_0000 && Pow256(6) == 0x1_0000_0000_0000;
    assert Pow256(7) == 0x100_0000_0000_0000;
  }

  /** The wire layout: 4 address bytes, 2 port bytes, 8 timestamp bytes. */
  function Encoded(n: NodeId): seq<u8>
    requires n.ep.ip.V4?
  {
    [n.ep.ip.a, n.ep.ip.b, n.ep.ip.c, n.ep.ip.d] + BigEndian(n.ep.port, 2) + BigEndian(n.ts, 8)
  }

  function Decode(b: seq<u8>): Result<NodeId, ParseError> {
    if |b| < 14 then Failure(ShortBuffer)
    else
      FromBigEndianRoundTrip(b[4..6]);
      FromBigEndianRoundTrip(b[6..14]);
      Pow256Values();
      Success(NodeId(Endpoint(V4(b[0], b[1], b[2], b[3]), FromBigEndian(b[4..6])), FromBigEndian(b[6..14])))
  }

  /** Marshalling fills a 14-byte buffer field by field, or rejects the zero endpoint. */
  method MarshalBinary(n: NodeId) returns (r: Result<array<u8>, ParseError>)
    ensures n.ep.ip.NoAddr? ==> r == Failure(ZeroEndpoint)
    ensures n.ep.ip.V4? ==> r.Success? && fresh(r.value) && r.value[..] == Encoded(n)
  {
    if n.ep.ip.NoAddr? {
      return Failure(ZeroEndpoint);
    }
    var buf := new u8[14];
    buf[0], buf[1], buf[2], buf[3] := n.ep.ip.a, n.ep.ip.b, n.ep.ip.c, n.ep.ip.d;
    PutBigEndian(buf, 4, 2, n.ep.port);
    PutBigEndian(buf, 6, 8, n.ts);
    assert buf[..] == buf[..4] + buf[4..6] + buf[6..14];
    r := Success(buf);
  }

  method PutBigEndian(buf: array<u8>, at: nat, width: nat, n: nat)
    requires at + width <= buf.Length
    modifies buf
    ensures buf[at..at + width] == BigEndian(n, width)
    ensures buf[..at] == old(buf[..at]) && buf[at + width..] == old(buf[at + width..])
  {
    var k, left := width, n;
    while k > 0
      invariant 0 <= k <= width
      invariant BigEndian(left, k) + buf[at + k..at + width] == BigEndian(n, width)
      invariant buf[..at] == old(buf[..at]) && buf[at + width..] == old(buf[at + width..])
    {
      ghost var before := buf[at + k..at + width];
      k := k - 1;
      buf[at + k] := left % 0x100;
      assert buf[at + k..at + width] == [left % 0x100] + before;
      left := left / 0x100;
      assert BigEndian(left, k) + ([buf[at + k]] + before) == BigEndian(left, k) + [buf[at + k]] + before;
    }
  }

  /** Decoding inverts encoding, whatever follows in the buffer; and re-encoding what was
      decoded gives the first fourteen bytes back. */
  lemma BinaryRoundTrip(n: NodeId, rest: seq<u8>)
    requires n.ep.ip.V4?
    ensures Decode(Encoded(n) + rest) == Success(n)
  {
    Pow256Values();
    BigEndianRoundTrip(n.ep.port, 2);
    BigEndianRoundTrip(n.ts, 8);
    var b := Encoded(n) + rest;
    assert b[4..6] == BigEndian(n.ep.port, 2);
    assert b[6..14] == BigEndian(n.ts, 8);
  }

  lemma DecodeEncodes(b: seq<u8>)
    ensures Decode(b).Failure? <==> |b| < 14
    ensures |b| >= 14 ==> Decode(b).value.ep.ip.V4? && Encoded(Decode(b).value) == b[..14]
  {
    if |b| >= 14 {
      FromBigEndianRoundTrip(b[4..6]);
      FromBigEndianRoundTrip(b[6..14]);
      assert b[..14] == b[..4] + b[4..6] + b[6..14];
    }
  }

  // ------------------------------ both forms, concretely ------------------------------

  lemma DecimalExamples()
    ensures Decimal(0) == "0" && Decimal(1) == "1" && Decimal(10) == "10" && Decimal(42) == "42" && Decimal(8080) == "8080"
  {
    assert Decimal(8) == "8" && Decimal(80) == "80" && Decimal(808) == "808";
  }

  /** Dotted address, colon, port, at sign, timestamp. */
  lemma TextForm()
    ensures NodeIdToString(NodeId(Endpoint(V4(10, 0, 0, 1), 8080), 42)) == "10.0.0.1:8080@42"
  {
    DecimalExamples();
  }

  /** Four bytes of address, two of port, eight of timestamp, most significant first. */
  lemma BinaryForm(a: u8, b: u8, c: u8, d: u8)
    ensures Encoded(NodeId(Endpoint(V4(a, b, c, d), 0x1F90), 0x102)) == [a, b, c, d, 0x1F, 0x90, 0, 0, 0, 0, 0, 0, 1, 2]
  {
    assert BigEndian(0x1F90, 2) == [0x1F, 0x90];
    assert BigEndian(0, 4) == [0, 0, 0, 0];
    assert BigEndian(0, 6) == [0, 0, 0, 0, 0, 0];
    assert BigEndian(1, 7) == [0, 0, 0, 0, 0, 0, 1];
  }
}
