/** The start of a SOCKS5 connection: the stream readers of internal/socks5/server.go over an in-memory connection. */
module Socks5Server {
  import opened Basics
  import opened Socks5Wire

  const METHOD_NONE: Byte := 0
  const METHOD_PASSWORD: Byte := 2
  const METHOD_REJECTED: Byte := 255
  const COMMAND_CONNECT: Byte := 1
  const COMMAND_UDP_ASSOCIATE: Byte := 3
  const REPLY_COMMAND: Byte := 7
  const REPLY_ADDRESS: Byte := 8

  datatype Network = Tcp4 | Tcp6

  datatype Outcome =
    | Refused                                             // by negotiate; no request is read
    | BadRequest
    | Connect(network: Network, host: Host, port: nat)
    | Associate
    | BadCommand

  function Wanted(username: Bytes): Byte {
    if username != [] then METHOD_PASSWORD else METHOD_NONE
  }

  /** What a client must send before its request is read, and where that request then begins. */
  ghost predicate Introduces(stream: Bytes, username: Bytes, secret: Bytes, request: Bytes) {
    exists methods: Bytes ::
      && 1 <= |methods| <= 255 && (if username == [] then 0 in methods else 2 in methods)
      && if username == [] then stream == EncodeGreeting(methods) + request
         else |username| <= 255 && |secret| <= 255
              && stream == EncodeGreeting(methods) + (EncodeLogin(username, secret) + request)
  }

  function AfterLogin(stream: Bytes, username: Bytes, secret: Bytes): Option<Bytes> {
    match DecodeLogin(stream)
    case Bad => None
    case Good(login, rest) => if login == Login(username, secret) then Some(rest) else None
  }

  function AfterNegotiation(stream: Bytes, username: Bytes, secret: Bytes): Option<Bytes> {
    match DecodeGreeting(stream)
    case Bad => None
    case Good(methods, rest) =>
      if Wanted(username) !in methods then None
      else if username == [] then Some(rest)
      else AfterLogin(rest, username, secret)
  }

  /**
   A request is read if and only if the client introduced itself: it offered the required method and, with a username
   configured, sent exactly that username and password. What is then read begins exactly after the introduction.
   */
  lemma RequestOnlyAfterIntroduction(stream: Bytes, username: Bytes, secret: Bytes)
    ensures AfterNegotiation(stream, username, secret).Some? <==>
              exists request :: Introduces(stream, username, secret, request)
    ensures forall request :: Introduces(stream, username, secret, request) ==>
              AfterNegotiation(stream, username, secret) == Some(request)
  {
    forall request | Introduces(stream, username, secret, request)
      ensures AfterNegotiation(stream, username, secret) == Some(request)
    {
      IntroductionAdmits(stream, username, secret, request);
    }
    if AfterNegotiation(stream, username, secret).Some? {
      AdmittedWasIntroduced(stream, username, secret);
    }
  }

  lemma IntroductionAdmits(stream: Bytes, username: Bytes, secret: Bytes, request: Bytes)
    requires Introduces(stream, username, secret, request)
    ensures AfterNegotiation(stream, username, secret) == Some(request)
  {
    hide DecodeGreeting, DecodeLogin, EncodeGreeting, EncodeLogin;
    var methods: Bytes :| 1 <= |methods| <= 255 && (if username == [] then 0 in methods else 2 in methods)
      && if username == [] then stream == EncodeGreeting(methods) + request
         else |username| <= 255 && |secret| <= 255
              && stream == EncodeGreeting(methods) + (EncodeLogin(username, secret) + request);
    if username == [] {
      GreetingRoundTrip(methods, request);
    } else {
      GreetingRoundTrip(methods, EncodeLogin(username, secret) + request);
      LoginRoundTrip(username, secret, request);
    }
  }

  lemma AdmittedWasIntroduced(stream: Bytes, username: Bytes, secret: Bytes)
    requires AfterNegotiation(stream, username, secret).Some?
    ensures Introduces(stream, username, secret, AfterNegotiation(stream, username, secret).value)
  {
    hide DecodeGreeting, DecodeLogin, EncodeGreeting, EncodeLogin;
    GreetingExact(stream);
    LoginExact(DecodeGreeting(stream).rest);
    assert Wanted(username) in DecodeGreeting(stream).value;
  }

  /** The messages the client is sent while negotiating. */
  function NegotiationReplies(stream: Bytes, username: Bytes, secret: Bytes): seq<Bytes> {
    match DecodeGreeting(stream)
    case Bad => []
    case Good(methods, rest) =>
      if Wanted(username) !in methods then [[VERSION, METHOD_REJECTED]]
      else if username == [] then [[VERSION, METHOD_NONE]]
      else [[VERSION, METHOD_PASSWORD]] + LoginReplies(rest, username, secret)
  }

  function LoginReplies(stream: Bytes, username: Bytes, secret: Bytes): seq<Bytes> {
    match DecodeLogin(stream)
    case Bad => []
    case Good(login, _) => [[1, if login == Login(username, secret) then 0 else 1]]
  }

  /** The part of the messages that is written before writing begins to fail. */
  function Written(messages: seq<Bytes>, writes: nat): seq<Bytes> {
    if |messages| <= writes then messages else messages[..writes]
  }

  function Less(writes: nat, messages: seq<Bytes>): nat {
    if |messages| <= writes then writes - |messages| else 0
  }

  class Conn {
    /** What the client still sends, the messages it was sent, and how many more writes will succeed. */
    var input: Bytes
    var output: seq<Bytes>
    var writes: nat

    constructor (input: Bytes, writes: nat)
      ensures this.input == input && output == [] && this.writes == writes
    {
      this.input, output, this.writes := input, [], writes;
    }

    /** io.ReadFull: a short stream is used up and reported. */
    method ReadFull(n: nat) returns (data: Option<Bytes>)
      modifies this`input
      ensures data.Some? <==> n <= |old(input)|
      ensures data.Some? ==> data.value == old(input)[..n] && input == old(input)[n..]
      ensures data.None? ==> input == []
    {
      if n <= |input| {
        data, input := Some(input[..n]), input[n..];
      } else {
        data, input := None, [];
      }
    }

    method Write(data: Bytes) returns (ok: bool)
      modifies this`output, this`writes
      ensures ok <==> old(writes) > 0
      ensures ok ==> output == old(output) + [data] && writes == old(writes) - 1
      ensures !ok ==> output == old(output) && writes == 0
      ensures output == old(output) + Written([data], old(writes)) && writes == Less(old(writes), [data])
    {
      ok := writes > 0;
      if ok {
        output, writes := output + [data], writes - 1;
      }
    }

    /** negotiate: it fails when the choice of a method cannot be written. */
    method Negotiate(username: Bytes, secret: Bytes) returns (ok: bool)
      modifies this
      ensures ok <==> AfterNegotiation(old(input), username, secret).Some? && old(writes) > 0
      ensures ok ==> input == AfterNegotiation(old(input), username, secret).value
      ensures output == old(output) + Written(NegotiationReplies(old(input), username, secret), old(writes))
      ensures ok ==> writes == Less(old(writes), NegotiationReplies(old(input), username, secret))
    {
      hide DecodeGreeting, DecodeLogin;
      var methods := ReadGreeting();
      if methods.None? {
        return false;
      }
      var wanted := Wanted(username);
      var selected := METHOD_REJECTED;
      for i := 0 to |methods.value|
        invariant selected == METHOD_REJECTED && wanted !in methods.value[..i]
      {
        if methods.value[i] == wanted {
          selected := wanted;
          break;
        }
      }
      assert methods.value[..|methods.value|] == methods.value;
      var written := Write([VERSION, selected]);
      if !written || selected == METHOD_REJECTED {
        return false;
      }
      if selected == METHOD_PASSWORD {
        ok := Authenticate(username, secret);
      } else {
        ok := true;
      }
    }

    method ReadGreeting() returns (methods: Option<Bytes>)
      modifies this`input
      ensures methods.Some? <==> DecodeGreeting(old(input)).Good?
      ensures methods.Some? ==> DecodeGreeting(old(input)) == Good(methods.value, input)
    {
      var header := ReadFull(2);
      if header.None? || header.value[0] != VERSION || header.value[1] == 0 {
        return None;
      }
      methods := ReadFull(header.value[1] as nat);
      ghost var stream, n := old(input), header.value[1] as nat;
      if methods.Some? {
        assert stream[2..][..n] == stream[2..2 + n] && stream[2..][n..] == stream[2 + n..];
      }
    }

    /** authenticate: whether its status could be written makes no difference to its result. */
    method Authenticate(username: Bytes, secret: Bytes) returns (ok: bool)
      modifies this
      ensures ok <==> AfterLogin(old(input), username, secret).Some?
      ensures ok ==> input == AfterLogin(old(input), username, secret).value
      ensures output == old(output) + Written(LoginReplies(old(input), username, secret), old(writes))
      ensures writes == Less(old(writes), LoginReplies(old(input), username, secret))
    {
      hide DecodeLogin;
      var login := ReadLogin();
      if login.None? {
        return false;
      }
      ok := login.value.user == username && login.value.secret == secret;
      var written := Write([1, if ok then 0 else 1]);
    }

    method ReadLogin() returns (login: Option<Login>)
      modifies this`input
      ensures login.Some? <==> DecodeLogin(old(input)).Good?
      ensures login.Some? ==> DecodeLogin(old(input)) == Good(login.value, input)
    {
      ghost var stream := input;
      var header := ReadFull(2);
      if header.None? || header.value[0] != 1 || header.value[1] == 0 {
        return None;
      }
      var user := ReadFull(header.value[1] as nat);
      if user.None? {
        return None;
      }
      ghost var n := header.value[1] as nat;
      assert user.value == stream[2..2 + n] && input == stream[2 + n..];
      var secret := ReadSecret();
      if secret.None? {
        return None;
      }
      login := Some(Login(user.value, secret.value));
      assert stream[2 + n..][0] == stream[2 + n];
      ghost var m := stream[2 + n] as nat;
      assert stream[2 + n..][1..1 + m] == stream[3 + n..3 + n + m];
      assert stream[2 + n..][1 + m..] == stream[3 + n + m..];
    }

    /** A length byte and that many bytes. */
    method ReadSecret() returns (secret: Option<Bytes>)
      modifies this`input
      ensures secret.Some? <==> old(input) != [] && 1 + old(input)[0] as nat <= |old(input)|
      ensures secret.Some? ==>
                var m := old(input)[0] as nat;
                secret.value == old(input)[1..1 + m] && input == old(input)[1 + m..]
    {
      var length := ReadFull(1);
      if length.None? {
        return None;
      }
      secret := ReadFull(length.value[0] as nat);
    }

    /** readRequest. The network follows the address type on the wire, even when the address itself reads as IPv4. */
    method ReadRequest() returns (request: Option<Request>, network: Network)
      modifies this`input
      ensures request.Some? <==> DecodeRequest(old(input)).Good?
      ensures request.Some? ==>
                var d := DecodeRequest(old(input));
                && input == d.rest
                && request.value == Request(d.value.command, Canonical(d.value.host), d.value.port)
                && network == (if d.value.host.V6? then Tcp6 else Tcp4)
    {
      request, network := None, Tcp4;
      var header := ReadFull(4);
      if header.None? || header.value[0] != VERSION || header.value[2] != 0 {
        return;
      }
      var host: Option<Host>;
      host, network := ReadHost(header.value[3], old(input));
      if host.None? {
        return;
      }
      var port := ReadFull(2);
      if port.None? {
        return;
      }
      request := Some(Request(header.value[1], host.value, PortOf(port.value[0], port.value[1])));
    }

    method ReadHost(kind: Byte, ghost stream: Bytes) returns (host: Option<Host>, network: Network)
      requires |stream| >= 4 && stream[3] == kind && input == stream[4..]
      modifies this`input
      ensures host.Some? <==> DecodeHost(stream[3..]).Good?
      ensures host.Some? ==>
                var d := DecodeHost(stream[3..]);
                && input == d.rest && host.value == Canonical(d.value)
                && network == (if d.value.V6? then Tcp6 else Tcp4)
    {
      ghost var s := stream[3..];
      assert s == [kind] + stream[4..] && s[1..] == stream[4..];
      host, network := None, Tcp4;
      if kind == ADDRESS_IPV4 {
        var value := ReadFull(4);
        if value.Some? {
          host := Some(V4(value.value));
        }
      } else if kind == ADDRESS_IPV6 {
        network := Tcp6;
        var value := ReadFull(16);
        if value.Some? {
          assert value.value == s[1..17];
          host := Some(Canonical(V6(value.value)));
        }
      } else if kind == ADDRESS_DOMAIN {
        var length := ReadFull(1);
        if length.None? || length.value[0] == 0 {
          return;
        }
        var value := ReadFull(length.value[0] as nat);
        if value.Some? {
          host := Some(Name(value.value));
        }
      }
    }

    method WriteReply(status: Byte, address: Option<SocketAddr>) returns (ok: bool)
      modifies this`output, this`writes
      ensures ok <==> old(writes) > 0
      ensures output == old(output) + Written([Reply(status, address)], old(writes))
    {
      var ip, port := [0, 0, 0, 0], 0;
      if address.Some? {
        ip, port := address.value.ip, address.value.port;
      }
      if To4(ip) != [] {
        ok := Write([VERSION, status, 0, ADDRESS_IPV4] + To4(ip) + EncodePort(Truncate16(port)));
      } else {
        ok := Write([VERSION, status, 0, ADDRESS_IPV6] + To16(ip) + EncodePort(Truncate16(port)));
      }
    }

    /** handle, up to the point where it dials or opens the UDP relay. */
    method Handle(username: Bytes, secret: Bytes) returns (outcome: Outcome)
      modifies this
      ensures outcome == Answer(old(input), username, secret, old(writes))
      ensures outcome.Connect? || outcome.Associate? ==>
                && AfterNegotiation(old(input), username, secret).Some?
                && input == DecodeRequest(AfterNegotiation(old(input), username, secret).value).rest
      ensures output == old(output) +
                        Written(NegotiationReplies(old(input), username, secret) + Complaint(outcome), old(writes))
      ensures Complaint(outcome) == if outcome.BadRequest? then [Reply(8, None)]
                                    else if outcome.BadCommand? then [Reply(7, None)] else []
    {
      hide AfterNegotiation, NegotiationReplies, DecodeRequest, Reply;
      var ok := Negotiate(username, secret);
      if !ok {
        return Refused;
      }
      var request, network := ReadRequest();
      if request.None? {
        var written := WriteReply(REPLY_ADDRESS, None);
        return BadRequest;
      }
      if request.value.command == COMMAND_CONNECT {
        return Connect(network, request.value.host, request.value.port);
      }
      if request.value.command == COMMAND_UDP_ASSOCIATE {
        return Associate;
      }
      var written := WriteReply(REPLY_COMMAND, None);
      return BadCommand;
    }
  }

  function Complaint(outcome: Outcome): seq<Bytes> {
    if outcome.BadRequest? then [Reply(REPLY_ADDRESS, None)]
    else if outcome.BadCommand? then [Reply(REPLY_COMMAND, None)]
    else []
  }

  /** What becomes of a connection: nothing without a written choice of method, then what the request asks for. */
  function Answer(stream: Bytes, username: Bytes, secret: Bytes, writes: nat): Outcome {
    if writes == 0 then Refused else
    match AfterNegotiation(stream, username, secret)
    case None => Refused
    case Some(request) =>
      match DecodeRequest(request)
      case Bad => BadRequest
      case Good(r, _) =>
        if r.command == COMMAND_CONNECT then Connect(if r.host.V6? then Tcp6 else Tcp4, Canonical(r.host), r.port)
        else if r.command == COMMAND_UDP_ASSOCIATE then Associate
        else BadCommand
  }

  /** The client introduced itself and then asked for this, in a well-formed request. */
  ghost predicate Asks(
    stream: Bytes, username: Bytes, secret: Bytes, command: Byte, wire: Host, port: nat, tail: Bytes)
  {
    && ValidHost(wire) && port < 0x1_0000
    && Introduces(stream, username, secret, EncodeRequest(Request(command, wire, port)) + tail)
  }

  /** An introduced client that asks for something is answered by its command; a network and an address only for 1. */
  lemma AskedIsAnswered(
    stream: Bytes, username: Bytes, secret: Bytes, writes: nat, command: Byte, wire: Host, port: nat, tail: Bytes)
    requires writes > 0 && Asks(stream, username, secret, command, wire, port, tail)
    ensures Answer(stream, username, secret, writes) ==
              if command == 1 then Connect(if wire.V6? then Tcp6 else Tcp4, Canonical(wire), port)
              else if command == 3 then Associate
              else BadCommand
  {
    hide AfterNegotiation, Introduces, DecodeRequest, EncodeRequest;
    RequestOnlyAfterIntroduction(stream, username, secret);
    RequestRoundTrip(Request(command, wire, port), tail);
  }

  /** Whatever is answered other than by refusing or rejecting was asked for. */
  lemma AnsweredWasAsked(stream: Bytes, username: Bytes, secret: Bytes, writes: nat)
    returns (command: Byte, wire: Host, port: nat, tail: Bytes)
    requires var a := Answer(stream, username, secret, writes); !a.Refused? && !a.BadRequest?
    ensures writes > 0 && Asks(stream, username, secret, command, wire, port, tail)
  {
    hide AfterNegotiation, Introduces, DecodeRequest, EncodeRequest;
    RequestOnlyAfterIntroduction(stream, username, secret);
    var request := AfterNegotiation(stream, username, secret).value;
    RequestExact(request);
    var d := DecodeRequest(request);
    command, wire, port, tail := d.value.command, d.value.host, d.value.port, d.rest;
    assert d.value == Request(command, wire, port);
  }

  /**
   A connection is made for a destination if and only if an introduced client asked for it in a well-formed request.
   */
  lemma ConnectsExactlyAsAsked(
    stream: Bytes, username: Bytes, secret: Bytes, writes: nat, network: Network, host: Host, port: nat)
    ensures Answer(stream, username, secret, writes) == Connect(network, host, port) <==>
              writes > 0 && exists wire: Host, tail: Bytes ::
                && host == Canonical(wire) && network == (if wire.V6? then Tcp6 else Tcp4)
                && Asks(stream, username, secret, 1, wire, port, tail)
  {
    hide Answer, Asks;
    if Answer(stream, username, secret, writes) == Connect(network, host, port) {
      var command, wire, p, tail := AnsweredWasAsked(stream, username, secret, writes);
      AskedIsAnswered(stream, username, secret, writes, command, wire, p, tail);
    }
    forall wire: Host, tail: Bytes |
      && writes > 0 && host == Canonical(wire) && network == (if wire.V6? then Tcp6 else Tcp4)
      && Asks(stream, username, secret, 1, wire, port, tail)
      ensures Answer(stream, username, secret, writes) == Connect(network, host, port)
    {
      AskedIsAnswered(stream, username, secret, writes, 1, wire, port, tail);
    }
  }

  /** A UDP relay is opened exactly for an introduced client that asked for command 3 in a well-formed request. */
  lemma AssociatesExactlyAsAsked(stream: Bytes, username: Bytes, secret: Bytes, writes: nat)
    ensures Answer(stream, username, secret, writes).Associate? <==>
              writes > 0 && exists wire, port, tail :: Asks(stream, username, secret, 3, wire, port, tail)
  {
    hide Answer, Asks;
    if Answer(stream, username, secret, writes).Associate? {
      var command, wire, port, tail := AnsweredWasAsked(stream, username, secret, writes);
      AskedIsAnswered(stream, username, secret, writes, command, wire, port, tail);
    }
    forall wire, port, tail | writes > 0 && Asks(stream, username, secret, 3, wire, port, tail)
      ensures Answer(stream, username, secret, writes).Associate?
    {
      AskedIsAnswered(stream, username, secret, writes, 3, wire, port, tail);
    }
  }

  /** A well-formed request is turned down for its command exactly when that is neither CONNECT nor UDP ASSOCIATE. */
  lemma OtherCommandsAreTurnedDown(stream: Bytes, username: Bytes, secret: Bytes, writes: nat)
    ensures Answer(stream, username, secret, writes).BadCommand? <==>
              writes > 0 && exists command: Byte, wire, port, tail ::
                command != 1 && command != 3 && Asks(stream, username, secret, command, wire, port, tail)
  {
    hide Answer, Asks;
    if Answer(stream, username, secret, writes).BadCommand? {
      var command, wire, port, tail := AnsweredWasAsked(stream, username, secret, writes);
      AskedIsAnswered(stream, username, secret, writes, command, wire, port, tail);
    }
    forall command: Byte, wire, port, tail |
      writes > 0 && command != 1 && command != 3 && Asks(stream, username, secret, command, wire, port, tail)
      ensures Answer(stream, username, secret, writes).BadCommand?
    {
      AskedIsAnswered(stream, username, secret, writes, command, wire, port, tail);
    }
  }

  /** The client introduced itself, and no well-formed request follows. */
  ghost predicate AsksBadly(stream: Bytes, username: Bytes, secret: Bytes) {
    && (exists request :: Introduces(stream, username, secret, request))
    && !(exists command: Byte, wire, port, tail :: Asks(stream, username, secret, command, wire, port, tail))
  }

  /**
   The rest: a request is rejected exactly when an introduced client sends no well-formed one, and no request is read
   exactly when the client did not introduce itself or could not be told the method.
   */
  lemma RejectsAndRefusals(stream: Bytes, username: Bytes, secret: Bytes, writes: nat)
    ensures Answer(stream, username, secret, writes).Refused? <==>
              writes == 0 || !exists request :: Introduces(stream, username, secret, request)
    ensures Answer(stream, username, secret, writes).BadRequest? <==>
              writes > 0 && AsksBadly(stream, username, secret)
  {
    hide AfterNegotiation, DecodeRequest, EncodeRequest, Introduces;
    RequestOnlyAfterIntroduction(stream, username, secret);
    var answer := Answer(stream, username, secret, writes);
    if writes > 0 && AfterNegotiation(stream, username, secret).Some? {
      if answer.BadRequest? {
        forall command: Byte, wire, port, tail ensures !Asks(stream, username, secret, command, wire, port, tail) {
          if Asks(stream, username, secret, command, wire, port, tail) {
            AskedIsAnswered(stream, username, secret, writes, command, wire, port, tail);
          }
        }
      } else {
        var command, wire, port, tail := AnsweredWasAsked(stream, username, secret, writes);
      }
    }
  }

  /**
   What a client is told while it introduces itself, byte by byte: the method, or 255 if it lacks the one required, and
   after a complete login status 0 exactly for the configured strings, otherwise 1.
   */
  lemma NegotiationSays(methods: Bytes, user: Bytes, pass: Bytes, tail: Bytes, username: Bytes, secret: Bytes)
    requires 1 <= |methods| <= 255 && 1 <= |user| <= 255 && |pass| <= 255
    ensures var stream := EncodeGreeting(methods) + (EncodeLogin(user, pass) + tail);
            NegotiationReplies(stream, username, secret) ==
              if username == [] then (if 0 in methods then [[5, 0]] else [[5, 255]])
              else if 2 !in methods then [[5, 255]]
              else if user == username && pass == secret then [[5, 2], [1, 0]]
              else [[5, 2], [1, 1]]
  {
    hide DecodeGreeting, DecodeLogin, EncodeGreeting, EncodeLogin;
    GreetingRoundTrip(methods, EncodeLogin(user, pass) + tail);
    LoginRoundTrip(user, pass, tail);
  }

  /** And while it has not: nothing before a complete greeting, and only the method before a complete login. */
  lemma NegotiationWaits(stream: Bytes, username: Bytes, secret: Bytes)
    ensures (forall methods: Bytes, rest: Bytes :: 1 <= |methods| <= 255 ==>
               stream != EncodeGreeting(methods) + rest) ==>
              NegotiationReplies(stream, username, secret) == []
    ensures forall methods: Bytes, rest: Bytes ::
              && 1 <= |methods| <= 255 && 2 in methods && username != [] && stream == EncodeGreeting(methods) + rest
              && (forall user: Bytes, pass: Bytes, tail: Bytes :: 1 <= |user| <= 255 && |pass| <= 255 ==>
                   rest != EncodeLogin(user, pass) + tail) ==>
                NegotiationReplies(stream, username, secret) == [[5, 2]]
  {
    hide DecodeGreeting, DecodeLogin, EncodeGreeting, EncodeLogin;
    GreetingExact(stream);
    forall methods: Bytes, rest: Bytes | 1 <= |methods| <= 255 && stream == EncodeGreeting(methods) + rest
      ensures DecodeGreeting(stream) == Good(methods, rest)
    {
      GreetingRoundTrip(methods, rest);
    }
    forall rest: Bytes
      ensures DecodeLogin(rest).Good? ==>
                exists user: Bytes, pass: Bytes, tail: Bytes ::
                  1 <= |user| <= 255 && |pass| <= 255 && rest == EncodeLogin(user, pass) + tail
    {
      LoginExact(rest);
    }
  }
}
