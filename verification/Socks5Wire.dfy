/**
 The messages of SOCKS5 (sections 3 to 7 of RFC 1928, section 2 of RFC 1929) as byte sequences, each with an encoder
 that says what is well formed and the decoder internal/socks5/server.go uses.
 */
module Socks5Wire {
  import opened Basics

  type Bytes = seq<Byte>

  const VERSION: Byte := 5
  const ADDRESS_IPV4: Byte := 1
  const ADDRESS_DOMAIN: Byte := 3
  const ADDRESS_IPV6: Byte := 4

  /** An address as it stands on the wire. */
  datatype Host = V4(addr: Bytes) | V6(addr: Bytes) | Name(addr: Bytes)

  predicate ValidHost(h: Host) {
    match h
    case V4(addr) => |addr| == 4
    case V6(addr) => |addr| == 16
    case Name(addr) => 1 <= |addr| <= 255
  }

  function EncodeHost(h: Host): Bytes
    requires ValidHost(h)
  {
    match h
    case V4(addr) => [ADDRESS_IPV4] + addr
    case V6(addr) => [ADDRESS_IPV6] + addr
    case Name(addr) => [ADDRESS_DOMAIN, |addr| as Byte] + addr
  }

  /** The first twelve bytes of an IPv4 address written as IPv6. */
  const MAPPED: Bytes := [0, 0, 0, 0, 0, 0, 0, 0, 0, 0, 255, 255]

  /** net.IP.To4: nil is the empty sequence. */
  function To4(ip: Bytes): Bytes {
    if |ip| == 4 then ip
    else if |ip| == 16 && ip[..12] == MAPPED then ip[12..]
    else []
  }

  /** net.IP.To16. */
  function To16(ip: Bytes): Bytes {
    if |ip| == 4 then MAPPED + ip else if |ip| == 16 then ip else []
  }

  /** The address net.IP.String renders: an IPv4-mapped address reads as IPv4. */
  function Canonical(h: Host): Host {
    if h.V6? && To4(h.addr) != [] then V4(To4(h.addr)) else h
  }

  function EncodePort(port: nat): Bytes
    requires port < 0x1_0000
  {
    [(port / 256) as Byte, (port % 256) as Byte]
  }

  function PortOf(high: Byte, low: Byte): (port: nat)
    ensures port < 0x1_0000 && EncodePort(port) == [high, low]
  {
    256 * high as nat + low as nat
  }

  lemma PortInverse(port: nat)
    requires port < 0x1_0000
    ensures PortOf(EncodePort(port)[0], EncodePort(port)[1]) == port
  {
  }

  // ----- the stream messages -----

  function EncodeGreeting(methods: Bytes): Bytes
    requires 1 <= |methods| <= 255
  {
    [VERSION, |methods| as Byte] + methods
  }

  /** RFC 1929 asks for a password of at least one byte; the program also takes an empty one. */
  function EncodeLogin(user: Bytes, secret: Bytes): Bytes
    requires 1 <= |user| <= 255 && |secret| <= 255
  {
    [1, |user| as Byte] + user + [|secret| as Byte] + secret
  }

  datatype Request = Request(command: Byte, host: Host, port: nat)

  predicate ValidRequest(r: Request) { ValidHost(r.host) && r.port < 0x1_0000 }

  function EncodeRequest(r: Request): Bytes
    requires ValidRequest(r)
  {
    [VERSION, r.command, 0] + EncodeHost(r.host) + EncodePort(r.port)
  }

  /** A decoded message and what follows it. */
  datatype Decoded<T> = Bad | Good(value: T, rest: Bytes)

  datatype Login = Login(user: Bytes, secret: Bytes)

  function DecodeGreeting(s: Bytes): Decoded<Bytes> {
    if |s| < 2 || s[0] != VERSION || s[1] == 0 then Bad
    else
      var n := s[1] as nat;
      if |s| < 2 + n then Bad else Good(s[2..2 + n], s[2 + n..])
  }

  function DecodeLogin(s: Bytes): Decoded<Login> {
    if |s| < 2 || s[0] != 1 || s[1] == 0 then Bad
    else
      var n := s[1] as nat;
      if |s| < 3 + n then Bad
      else
        var m := s[2 + n] as nat;
        if |s| < 3 + n + m then Bad else Good(Login(s[2..2 + n], s[3 + n..3 + n + m]), s[3 + n + m..])
  }

  function DecodeHost(s: Bytes): Decoded<Host> {
    if s == [] then Bad
    else if s[0] == ADDRESS_IPV4 then if |s| < 5 then Bad else Good(V4(s[1..5]), s[5..])
    else if s[0] == ADDRESS_IPV6 then if |s| < 17 then Bad else Good(V6(s[1..17]), s[17..])
    else if s[0] == ADDRESS_DOMAIN then
      if |s| < 2 || s[1] == 0 || |s| < 2 + s[1] as nat then Bad
      else Good(Name(s[2..2 + s[1] as nat]), s[2 + s[1] as nat..])
    else Bad
  }

  function DecodeRequest(s: Bytes): Decoded<Request> {
    if |s| < 4 || s[0] != VERSION || s[2] != 0 then Bad
    else
      match DecodeHost(s[3..])
      case Bad => Bad
      case Good(host, rest) =>
        if |rest| < 2 then Bad else Good(Request(s[1], host, PortOf(rest[0], rest[1])), rest[2..])
  }

  lemma GreetingRoundTrip(methods: Bytes, tail: Bytes)
    requires 1 <= |methods| <= 255
    ensures DecodeGreeting(EncodeGreeting(methods) + tail) == Good(methods, tail)
  {
    var s := EncodeGreeting(methods) + tail;
    assert s[2..2 + |methods|] == methods && s[2 + |methods|..] == tail;
  }

  /** Whatever is accepted as a greeting is the encoding of what was read, with the rest untouched. */
  lemma GreetingExact(s: Bytes)
    ensures DecodeGreeting(s).Good? ==>
              var d := DecodeGreeting(s);
              1 <= |d.value| <= 255 && s == EncodeGreeting(d.value) + d.rest
  {
    if DecodeGreeting(s).Good? {
      var n := s[1] as nat;
      assert s == s[..2] + s[2..2 + n] + s[2 + n..];
    }
  }

  lemma LoginRoundTrip(user: Bytes, secret: Bytes, tail: Bytes)
    requires 1 <= |user| <= 255 && |secret| <= 255
    ensures DecodeLogin(EncodeLogin(user, secret) + tail) == Good(Login(user, secret), tail)
  {
    var s := EncodeLogin(user, secret) + tail;
    var n, m := |user|, |secret|;
    assert s == [1, n as Byte] + (user + ([m as Byte] + (secret + tail)));
    assert s[2..2 + n] == user && s[2 + n] == m as Byte;
    assert s[3 + n..3 + n + m] == secret && s[3 + n + m..] == tail;
  }

  lemma LoginExact(s: Bytes)
    ensures DecodeLogin(s).Good? ==>
              var d := DecodeLogin(s);
              && 1 <= |d.value.user| <= 255 && |d.value.secret| <= 255
              && s == EncodeLogin(d.value.user, d.value.secret) + d.rest
  {
    if DecodeLogin(s).Good? {
      var n := s[1] as nat;
      var m := s[2 + n] as nat;
      assert s == s[..2] + s[2..2 + n] + [s[2 + n]] + s[3 + n..3 + n + m] + s[3 + n + m..];
    }
  }

  lemma HostRoundTrip(h: Host, tail: Bytes)
    requires ValidHost(h)
    ensures DecodeHost(EncodeHost(h) + tail) == Good(h, tail)
  {
    var s := EncodeHost(h) + tail;
    match h
    case V4(addr) => assert s[1..5] == addr && s[5..] == tail;
    case V6(addr) => assert s[1..17] == addr && s[17..] == tail;
    case Name(addr) => assert s[2..2 + |addr|] == addr && s[2 + |addr|..] == tail;
  }

  lemma HostExact(s: Bytes)
    ensures DecodeHost(s).Good? ==>
              ValidHost(DecodeHost(s).value) && s == EncodeHost(DecodeHost(s).value) + DecodeHost(s).rest
  {
    if DecodeHost(s).Good? {
      if s[0] == ADDRESS_IPV4 {
        assert s == [s[0]] + s[1..5] + s[5..];
      } else if s[0] == ADDRESS_IPV6 {
        assert s == [s[0]] + s[1..17] + s[17..];
      } else {
        var n := s[1] as nat;
        assert s == s[..2] + s[2..2 + n] + s[2 + n..];
      }
    }
  }

  /** Every well-formed request followed by anything is recovered, and exactly the tail is left. */
  lemma RequestRoundTrip(r: Request, tail: Bytes)
    requires ValidRequest(r)
    ensures DecodeRequest(EncodeRequest(r) + tail) == Good(r, tail)
  {
    hide DecodeHost;
    var s := EncodeRequest(r) + tail;
    var after := EncodePort(r.port) + tail;
    HostRoundTrip(r.host, after);
    assert s[3..] == EncodeHost(r.host) + after;
    assert after[2..] == tail;
    PortInverse(r.port);
  }

  lemma RequestExact(s: Bytes)
    ensures DecodeRequest(s).Good? ==>
              ValidRequest(DecodeRequest(s).value) && s == EncodeRequest(DecodeRequest(s).value) + DecodeRequest(s).rest
  {
    hide DecodeHost, EncodeHost;
    if DecodeRequest(s).Good? {
      HostExact(s[3..]);
      var rest := DecodeHost(s[3..]).rest;
      assert s == s[..3] + s[3..];
      assert rest == rest[..2] + rest[2..];
    }
  }

  // ----- replies -----

  /** A socket address as Go holds it: any number of address bytes, any integer port. */
  datatype SocketAddr = SocketAddr(ip: Bytes, port: int)

  /** uint16(port). */
  function Truncate16(port: int): (r: nat)
    ensures r < 0x1_0000
    ensures 0 <= port < 0x1_0000 ==> r == port
    ensures exists wraps :: port == r + 0x1_0000 * wraps
  {
    var r := port % 0x1_0000;
    assert port == r + 0x1_0000 * (port / 0x1_0000);
    r
  }

  /** writeReply. A nil address is sent as 0.0.0.0:0. */
  function Reply(status: Byte, address: Option<SocketAddr>): Bytes {
    var ip := if address.Some? then address.value.ip else [0, 0, 0, 0];
    var port := if address.Some? then address.value.port else 0;
    if To4(ip) != []
    then [VERSION, status, 0, ADDRESS_IPV4] + To4(ip) + EncodePort(Truncate16(port))
    else [VERSION, status, 0, ADDRESS_IPV6] + To16(ip) + EncodePort(Truncate16(port))
  }

  /** The address a reply names. */
  function BoundHost(ip: Bytes): Host { Canonical(if |ip| == 4 then V4(ip) else V6(ip)) }

  /** A reply for an IP address is the encoding of its status, that address in canonical form and the 16-bit port. */
  lemma ReplyEncodes(status: Byte, ip: Bytes, port: int)
    requires |ip| == 4 || |ip| == 16
    ensures ValidHost(BoundHost(ip))
    ensures Reply(status, Some(SocketAddr(ip, port)))
            == EncodeRequest(Request(status, BoundHost(ip), Truncate16(port)))
  {
  }

  lemma EmptyReplyEncodes(status: Byte)
    ensures Reply(status, None) == EncodeRequest(Request(status, V4([0, 0, 0, 0]), 0))
  {
  }

  /** Any other length leaves a reply without an address, too short to be read. */
  lemma ReplyCutShort(status: Byte, ip: Bytes, port: int)
    requires |ip| != 4 && |ip| != 16
    ensures DecodeRequest(Reply(status, Some(SocketAddr(ip, port)))).Bad?
  {
    hide DecodeRequest;
    var reply := Reply(status, Some(SocketAddr(ip, port)));
    assert |reply| == 6;
    TooShort(reply);
  }

  /** The client sees a complete reply exactly when the bound address has the length of an IP address. */
  lemma ReplyIsWellFormed(status: Byte, address: Option<SocketAddr>, tail: Bytes)
    ensures var lasts := address.None? || |address.value.ip| == 4 || |address.value.ip| == 16;
            && (DecodeRequest(Reply(status, address)).Good? <==> lasts)
            && (lasts ==>
                 DecodeRequest(Reply(status, address) + tail) ==
                 Good(if address.None? then Request(status, V4([0, 0, 0, 0]), 0)
                      else Request(status, BoundHost(address.value.ip), Truncate16(address.value.port)), tail))
  {
    hide DecodeRequest, EncodeRequest, Reply, BoundHost, ValidHost;
    var reply := Reply(status, address);
    assert reply + [] == reply;
    if address.None? {
      EmptyReplyEncodes(status);
      ZeroIsValid();
      RequestRoundTrip(Request(status, V4([0, 0, 0, 0]), 0), tail);
      RequestRoundTrip(Request(status, V4([0, 0, 0, 0]), 0), []);
    } else {
      var SocketAddr(ip, port) := address.value;
      if |ip| == 4 || |ip| == 16 {
        ReplyEncodes(status, ip, port);
        RequestRoundTrip(Request(status, BoundHost(ip), Truncate16(port)), tail);
        RequestRoundTrip(Request(status, BoundHost(ip), Truncate16(port)), []);
      } else {
        ReplyCutShort(status, ip, port);
      }
    }
  }

  lemma ZeroIsValid()
    ensures ValidHost(V4([0, 0, 0, 0]))
  {
  }

  lemma TooShort(s: Bytes)
    requires |s| == 6 && s[3] == ADDRESS_IPV6
    ensures DecodeRequest(s).Bad?
  {
  }

  // ----- UDP datagrams -----

  datatype Datagram = Datagram(host: Host, port: nat, payload: Bytes)

  predicate ValidDatagram(d: Datagram) { ValidHost(d.host) && d.port < 0x1_0000 }

  /** An unfragmented datagram. */
  function EncodeDatagram(d: Datagram): Bytes
    requires ValidDatagram(d)
  {
    [0, 0, 0] + EncodeHost(d.host) + EncodePort(d.port) + d.payload
  }

  datatype UdpError = Invalid | Fragmented | Truncated | BadDomain | Unsupported | NoAddress

  datatype Result<T> = Ok(value: T) | Err(error: UdpError)

  /** parseUDPRequest. */
  function ParseUDPRequest(data: Bytes): Result<Datagram> {
    if |data| < 4 || data[0] != 0 || data[1] != 0 then Err(Invalid)
    else if data[2] != 0 then Err(Fragmented)
    else if data[3] == ADDRESS_IPV4 then
      if |data| < 8 then Err(Truncated) else WithPort(data, 8, V4(data[4..8]))
    else if data[3] == ADDRESS_IPV6 then
      if |data| < 20 then Err(Truncated) else WithPort(data, 20, Canonical(V6(data[4..20])))
    else if data[3] == ADDRESS_DOMAIN then
      if |data| < 5 then Err(Truncated)
      else
        var length := data[4] as nat;
        if length == 0 || |data| < 5 + length then Err(BadDomain)
        else WithPort(data, 5 + length, Name(data[5..5 + length]))
    else Err(Unsupported)
  }

  function WithPort(data: Bytes, offset: nat, host: Host): Result<Datagram>
    requires offset <= |data|
  {
    if |data| < offset + 2 then Err(Truncated)
    else Ok(Datagram(host, PortOf(data[offset], data[offset + 1]), data[offset + 2..]))
  }

  /** marshalUDPResponse. */
  function MarshalUDPResponse(address: Option<SocketAddr>, payload: Bytes): Result<Bytes> {
    if address.None? || address.value.ip == [] then Err(NoAddress)
    else
      var SocketAddr(ip, port) := address.value;
      if To4(ip) != [] then Ok([0, 0, 0, ADDRESS_IPV4] + To4(ip) + EncodePort(Truncate16(port)) + payload)
      else if To16(ip) != [] then Ok([0, 0, 0, ADDRESS_IPV6] + To16(ip) + EncodePort(Truncate16(port)) + payload)
      else Err(NoAddress)
  }

  /** The datagram's header carries this host, port and payload. */
  ghost predicate Carries(data: Bytes, wire: Host, port: nat, payload: Bytes) {
    ValidHost(wire) && port < 0x1_0000 && data == EncodeDatagram(Datagram(wire, port, payload))
  }

  /** Every well-formed datagram is accepted, with its address in canonical form. */
  lemma ParseAcceptsEncodings(wire: Host, port: nat, payload: Bytes)
    requires ValidHost(wire) && port < 0x1_0000
    ensures ParseUDPRequest(EncodeDatagram(Datagram(wire, port, payload)))
              == Ok(Datagram(Canonical(wire), port, payload))
  {
    var data := EncodeDatagram(Datagram(wire, port, payload));
    var head := [0, 0, 0] + EncodeHost(wire);
    var n := |head|;
    PortInverse(port);
    assert data == head + (EncodePort(port) + payload);
    assert data[n..] == EncodePort(port) + payload;
    assert data[n + 2..] == payload;
    assert data[n] == EncodePort(port)[0] && data[n + 1] == EncodePort(port)[1];
    assert WithPort(data, n, Canonical(wire)) == Ok(Datagram(Canonical(wire), port, payload));
    match wire
    case V4(addr) => assert data[4..8] == addr;
    case V6(addr) => assert data[4..20] == addr;
    case Name(addr) => assert data[5..5 + |addr|] == addr;
  }

  /** And nothing else is: an accepted datagram is the encoding of an address, a port and exactly its payload. */
  lemma ParseAcceptsOnlyEncodings(data: Bytes)
    ensures ParseUDPRequest(data).Ok? <==> exists wire, port, payload :: Carries(data, wire, port, payload)
    ensures forall wire, port, payload :: Carries(data, wire, port, payload) ==>
              ParseUDPRequest(data) == Ok(Datagram(Canonical(wire), port, payload))
  {
    hide ParseUDPRequest;
    forall wire, port, payload | Carries(data, wire, port, payload)
      ensures ParseUDPRequest(data) == Ok(Datagram(Canonical(wire), port, payload))
    {
      ParseAcceptsEncodings(wire, port, payload);
    }
    if ParseUDPRequest(data).Ok? {
      var wire := AcceptedFrom(data);
    }
  }

  lemma AcceptedFrom(data: Bytes) returns (wire: Host)
    requires ParseUDPRequest(data).Ok?
    ensures Carries(data, wire, ParseUDPRequest(data).value.port, ParseUDPRequest(data).value.payload)
  {
    hide ParseUDPRequest, DecodeHost, EncodeHost;
    AcceptedHost(data);
    HostExact(data[3..]);
    var d := DecodeHost(data[3..]);
    wire := d.value;
    assert data == [0, 0, 0] + data[3..];
    assert d.rest == d.rest[..2] + d.rest[2..];
  }

  /** The parser's offsets follow the decoder of the address. */
  lemma AcceptedHost(data: Bytes)
    requires ParseUDPRequest(data).Ok?
    ensures |data| >= 4 && data[..3] == [0, 0, 0]
    ensures var d := DecodeHost(data[3..]);
            && d.Good? && |d.rest| >= 2
            && ParseUDPRequest(data) == Ok(Datagram(Canonical(d.value), PortOf(d.rest[0], d.rest[1]), d.rest[2..]))
  {
    var s := data[3..];
    assert s[0] == data[3];
    if data[3] == ADDRESS_IPV4 {
      assert s[1..5] == data[4..8] && s[5..] == data[8..] && data[8..][2..] == data[10..];
    } else if data[3] == ADDRESS_IPV6 {
      assert s[1..17] == data[4..20] && s[17..] == data[20..] && data[20..][2..] == data[22..];
    } else {
      var n := data[4] as nat;
      assert s[2..2 + n] == data[5..5 + n] && s[2 + n..] == data[5 + n..] && data[5 + n..][2..] == data[7 + n..];
    }
  }

  /**
   A response is made exactly for an IP address of 4 or 16 bytes, and reads back as that address, port and payload.
   */
  lemma UdpRoundTrip(address: Option<SocketAddr>, payload: Bytes)
    ensures MarshalUDPResponse(address, payload).Ok? <==>
              address.Some? && (|address.value.ip| == 4 || |address.value.ip| == 16)
    ensures MarshalUDPResponse(address, payload).Ok? ==>
              var ip := address.value.ip;
              ParseUDPRequest(MarshalUDPResponse(address, payload).value)
              == Ok(Datagram(Canonical(if |ip| == 4 then V4(ip) else V6(ip)), Truncate16(address.value.port), payload))
  {
    hide ParseUDPRequest;
    if address.Some? && (|address.value.ip| == 4 || |address.value.ip| == 16) {
      var ip, port := address.value.ip, Truncate16(address.value.port);
      var h := Canonical(if |ip| == 4 then V4(ip) else V6(ip));
      assert [0, 0, 0, ADDRESS_IPV4] + To4(ip) == [0, 0, 0] + ([ADDRESS_IPV4] + To4(ip));
      assert [0, 0, 0, ADDRESS_IPV6] + To16(ip) == [0, 0, 0] + ([ADDRESS_IPV6] + To16(ip));
      assert MarshalUDPResponse(address, payload) == Ok(EncodeDatagram(Datagram(h, port, payload)));
      CanonicalIsFixed(if |ip| == 4 then V4(ip) else V6(ip));
      ParseAcceptsEncodings(h, port, payload);
    }
  }

  lemma CanonicalIsFixed(h: Host)
    requires ValidHost(h)
    ensures ValidHost(Canonical(h)) && Canonical(Canonical(h)) == Canonical(h)
  {
  }

  /** The layouts of RFC 1928 and RFC 1929, byte by byte. */
  lemma MessagesAreLaidOut(command: Byte, status: Byte, a: Byte, b: Byte, c: Byte, d: Byte, high: Byte, low: Byte)
    ensures EncodeGreeting([a, b]) == [5, 2, a, b]
    ensures EncodeLogin([a, b], [c]) == [1, 2, a, b, 1, c] && EncodeLogin([a], []) == [1, 1, a, 0]
    ensures EncodeRequest(Request(command, V4([a, b, c, d]), PortOf(high, low))) ==
              [5, command, 0, 1, a, b, c, d, high, low]
    ensures EncodeRequest(Request(command, Name([a, b]), PortOf(high, low))) == [5, command, 0, 3, 2, a, b, high, low]
    ensures forall ip: Bytes :: |ip| == 16 ==>
              EncodeRequest(Request(command, V6(ip), PortOf(high, low))) == [5, command, 0, 4] + ip + [high, low]
    ensures EncodeDatagram(Datagram(V4([a, b, c, d]), PortOf(high, low), [status])) ==
              [0, 0, 0, 1, a, b, c, d, high, low, status]
    ensures PortOf(high, low) == 256 * high as int + low as int
  {
  }

  /** An IPv6 address reads as IPv4 exactly if it is ten zero bytes, two bytes 255 and that address. */
  lemma MappedAddresses(ip: Bytes, v4: Bytes)
    requires |ip| == 16
    ensures Canonical(V6(ip)) == V4(v4) <==>
              |v4| == 4 && (forall i :: 0 <= i < 10 ==> ip[i] == 0) && ip[10] == 255 && ip[11] == 255 && ip[12..] == v4
    ensures Canonical(V6(ip)).V6? ==> Canonical(V6(ip)) == V6(ip)
    ensures Canonical(V4(v4)) == V4(v4) && Canonical(Name(v4)) == Name(v4)
  {
  }
}
