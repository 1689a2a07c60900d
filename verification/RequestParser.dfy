/**
 The SOCKS request parser (RFC 1928 sections 4 and 5), one byte at a time, and the grammar it accepts.
 */
module RequestParserModule {

  import opened Base
  import opened Buffers
  import opened Feeding

  const CMD_CONNECT: Byte := 1
  const ATYP_IPV4: Byte := 1
  const ATYP_DOMAIN: Byte := 3
  const ATYP_IPV6: Byte := 4
  const MAX_FQDN_SIZE := 255

  datatype State =
    | Version | Cmd | Rsv | Atyp | DestAddr | DestAddrFqdn | DestPort
    | Done
    | Error | ErrorUnsupportedCmd | ErrorUnsupportedType | ErrorUnsupportedVersion

  /** The parser's value: `addr` and `port` are the bytes stored so far for those two fields. */
  datatype Parser = Parser(
    state: State, remaining: Byte, cmd: Byte, atyp: Byte, size: Byte, addr: seq<Byte>, port: seq<Byte>)

  const INITIAL := Parser(Version, 0, 0, 0, 0, [], [])

  function Feed(p: Parser, b: Byte): Parser {
    match p.state
    case Version => p.(state := if b == 5 then Cmd else ErrorUnsupportedVersion)
    case Cmd => if b == CMD_CONNECT then p.(cmd := b, state := Rsv) else p.(state := ErrorUnsupportedCmd)
    case Rsv => p.(state := Atyp)
    case Atyp =>
      var q := p.(atyp := b);
      if b == ATYP_IPV4 then q.(state := DestAddr, remaining := 4)
      else if b == ATYP_DOMAIN then q.(state := DestAddrFqdn)
      else if b == ATYP_IPV6 then q.(state := DestAddr, remaining := 16)
      else q.(state := ErrorUnsupportedType)
    case DestAddrFqdn =>
      if b > MAX_FQDN_SIZE - 1 then p.(state := Error) else p.(state := DestAddr, remaining := b, size := b)
    case DestAddr =>
      var q := p.(addr := p.addr + [b]);
      if |q.addr| >= p.remaining then q.(state := DestPort, remaining := 2) else q
    case DestPort =>
      var q := p.(port := p.port + [b]);
      if |q.port| >= p.remaining then q.(state := Done) else q
    case _ => p
  }

  /** `request_is_done`: only success stops the consuming loop. */
  predicate IsDone(p: Parser) {
    p.state == Done
  }

  /**
   Destinations. `StrayName` is what a domain length of zero means to this parser: the length byte is
   accepted, and one more byte is taken before the port.
   */
  datatype Address = IPv4(bytes: seq<Byte>) | IPv6(bytes: seq<Byte>) | Domain(bytes: seq<Byte>) | StrayName(stray: Byte) {

    /** The addresses of RFC 1928 section 5, with names of at most 254 bytes. */
    predicate Rfc() {
      match this
      case IPv4(bs) => |bs| == 4
      case IPv6(bs) => |bs| == 16
      case Domain(bs) => 1 <= |bs| <= 254
      case StrayName(_) => false
    }

    predicate Accepted() {
      Rfc() || StrayName?
    }

    function Encode(): seq<Byte>
      requires Accepted()
    {
      match this
      case IPv4(bs) => [ATYP_IPV4] + bs
      case IPv6(bs) => [ATYP_IPV6] + bs
      case Domain(bs) => [ATYP_DOMAIN, |bs|] + bs
      case StrayName(b) => [ATYP_DOMAIN, 0, b]
    }
  }

  datatype Request = Request(rsv: Byte, dest: Address, port: seq<Byte>) {
    predicate Accepted() {
      dest.Accepted() && |port| == 2
    }

    predicate Rfc() {
      dest.Rfc() && |port| == 2
    }

    /** A CONNECT request as it travels. */
    function Encode(): seq<Byte>
      requires Accepted()
    {
      [5, CMD_CONNECT, rsv] + dest.Encode() + port
    }
  }

  function AddressOf(p: Parser): Address {
    if p.atyp == ATYP_IPV4 then IPv4(p.addr)
    else if p.atyp == ATYP_IPV6 then IPv6(p.addr)
    else if p.size == 0 && p.addr != [] then StrayName(p.addr[0])
    else Domain(p.addr)
  }

  /** The bytes from ATYP up to the destination bytes stored so far. */
  function AddressHeader(p: Parser): seq<Byte> {
    if p.atyp == ATYP_DOMAIN then [ATYP_DOMAIN, p.size] else [p.atyp]
  }

  /** How many bytes of destination the parser stores before it turns to the port. */
  function AddressLength(p: Parser): nat {
    if p.atyp == ATYP_IPV4 then 4
    else if p.atyp == ATYP_IPV6 then 16
    else Max(p.size, 1)
  }

  predicate KnownType(atyp: Byte) {
    atyp == ATYP_IPV4 || atyp == ATYP_DOMAIN || atyp == ATYP_IPV6
  }

  /** Why a parser that has read exactly `s` is where it is. */
  ghost predicate Explains(p: Parser, s: seq<Byte>) {
    var opening := |s| >= 3 && s[0] == 5 && s[1] == CMD_CONNECT && p.cmd == CMD_CONNECT;
    match p.state
    case Version => s == [] && p == INITIAL
    case Cmd => s == [5] && p == INITIAL.(state := Cmd)
    case Rsv => s == [5, CMD_CONNECT] && p == INITIAL.(state := Rsv, cmd := CMD_CONNECT)
    case Atyp => opening && |s| == 3 && p == INITIAL.(state := Atyp, cmd := CMD_CONNECT)
    case DestAddrFqdn =>
      opening && s[3..] == [ATYP_DOMAIN] && p == INITIAL.(state := DestAddrFqdn, cmd := CMD_CONNECT, atyp := ATYP_DOMAIN)
    case DestAddr =>
      && opening && KnownType(p.atyp) && p.size <= 254 && s[3..] == AddressHeader(p) + p.addr
      && |p.addr| < AddressLength(p) && p.port == []
      && p.remaining == (if p.atyp == ATYP_IPV4 then 4 else if p.atyp == ATYP_IPV6 then 16 else p.size)
    case DestPort =>
      && opening && KnownType(p.atyp) && p.size <= 254 && s[3..] == AddressHeader(p) + p.addr + p.port
      && |p.addr| == AddressLength(p) && |p.port| < 2 && p.remaining == 2
    case Done =>
      && opening && KnownType(p.atyp) && p.size <= 254
      && |p.addr| == AddressLength(p) && |p.port| == 2
      && AddressHeader(p) + p.addr + p.port <= s[3..]
    case Error => opening && |s| >= 5 && s[3] == ATYP_DOMAIN && s[4] == 255
    case ErrorUnsupportedCmd => |s| >= 2 && s[0] == 5 && s[1] != CMD_CONNECT
    case ErrorUnsupportedType => opening && |s| >= 4 && !KnownType(s[3])
    case ErrorUnsupportedVersion => |s| >= 1 && s[0] != 5
  }

  lemma ExplainsStep(p: Parser, s: seq<Byte>, b: Byte)
    requires Explains(p, s)
    ensures Explains(Feed(p, b), s + [b])
  {
    var t := s + [b];
    if |s| >= 3 {
      assert t[3..] == s[3..] + [b];
    }
    if p.state == Atyp {
      assert t[3..] == [b];
    } else if p.state == DestAddr {
      AddressByte(p, s, b);
    } else if p.state == DestPort {
      PortByte(p, s, b);
    }
  }

  lemma AddressByte(p: Parser, s: seq<Byte>, b: Byte)
    requires p.state == DestAddr && Explains(p, s)
    ensures Explains(Feed(p, b), s + [b])
  {
    assert (s + [b])[3..] == s[3..] + [b];
    assert AddressHeader(p) + p.addr + [b] == AddressHeader(p) + (p.addr + [b]);
  }

  lemma PortByte(p: Parser, s: seq<Byte>, b: Byte)
    requires p.state == DestPort && Explains(p, s)
    ensures Explains(Feed(p, b), s + [b])
  {
    assert (s + [b])[3..] == s[3..] + [b];
    assert AddressHeader(p) + p.addr + p.port + [b] == AddressHeader(p) + p.addr + (p.port + [b]);
  }

  lemma {:induction false} Explained(s: seq<Byte>)
    ensures Explains(FeedAll(Feed, INITIAL, s), s)
    decreases |s|
  {
    if s == [] {
    } else {
      var t, b := s[..|s| - 1], s[|s| - 1];
      assert s == t + [b];
      Explained(t);
      FeedAllSnoc(Feed, INITIAL, t, b);
      ExplainsStep(FeedAll(Feed, INITIAL, t), t, b);
    }
  }

  /** What a finished parser has parsed; only the reserved byte is not kept. */
  function RequestOf(p: Parser, rsv: Byte): Request {
    Request(rsv, AddressOf(p), p.port)
  }

  lemma EncodeAddressOf(p: Parser)
    requires KnownType(p.atyp) && p.size <= 254 && |p.addr| == AddressLength(p)
    ensures AddressOf(p).Accepted() && AddressOf(p).Encode() == AddressHeader(p) + p.addr
  {
    if AddressOf(p).StrayName? {
      assert p.addr == [p.addr[0]];
    }
  }

  lemma ExplainedDone(p: Parser, s: seq<Byte>)
    requires Explains(p, s) && p.state == Done
    ensures RequestOf(p, s[2]).Accepted() && RequestOf(p, s[2]).Encode() <= s
  {
    EncodeAddressOf(p);
    var d := AddressOf(p).Encode();
    var opening := [5, CMD_CONNECT, s[2]];
    assert opening <= s;
    PrefixBehind(s, opening, d, p.port);
  }

  /** Soundness: a done parser has read an encoded request, which its fields encode back to. */
  lemma DoneReencodes(s: seq<Byte>)
    requires FeedAll(Feed, INITIAL, s).state == Done
    ensures |s| >= 3
    ensures var r := RequestOf(FeedAll(Feed, INITIAL, s), s[2]);
            r.Accepted() && r.Encode() <= s
  {
    Explained(s);
    ExplainedDone(FeedAll(Feed, INITIAL, s), s);
  }

  lemma PrefixBehind(s: seq<Byte>, opening: seq<Byte>, a: seq<Byte>, b: seq<Byte>)
    requires opening <= s && a + b <= s[|opening|..]
    ensures opening + a + b <= s
  {
    var tail := s[|opening|..];
    assert s == opening + tail;
    assert tail == a + b + tail[|a + b|..];
    assert s == opening + a + b + tail[|a + b|..];
  }

  /** The byte of `s` right after the opening three decides the form of the destination. */
  lemma EncodingShape(r: Request, s: seq<Byte>)
    requires r.Accepted() && r.Encode() <= s
    ensures |s| >= 4 && s[0] == 5 && s[1] == CMD_CONNECT && s[2] == r.rsv
    ensures s[3..] == r.dest.Encode() + r.port + s[|r.Encode()|..]
    ensures s[3] == r.dest.Encode()[0]
    ensures r.dest.Domain? || r.dest.StrayName? ==> |s| >= 5 && s[4] == r.dest.Encode()[1]
  {
    var e := r.Encode();
    assert s == e + s[|e|..];
    assert s == [5, CMD_CONNECT, r.rsv] + (r.dest.Encode() + r.port + s[|e|..]);
  }

  /** Completeness: a stream that starts with an accepted request leaves the parser done, with that request. */
  lemma EncodedIsDone(r: Request, s: seq<Byte>)
    requires r.Accepted() && r.Encode() <= s
    ensures var p := FeedAll(Feed, INITIAL, s); p.state == Done && RequestOf(p, r.rsv) == r
  {
    Explained(s);
    EncodingShape(r, s);
    var p := FeedAll(Feed, INITIAL, s);
    var d := r.dest.Encode();
    var rest := s[|r.Encode()|..];
    if p.state == DestAddr || p.state == DestPort || p.state == Done {
      var h := AddressHeader(p);
      assert p.atyp == s[3];
      if p.atyp == ATYP_DOMAIN {
        assert p.size == s[4];
      }
      assert |d| == |h| + AddressLength(p);
      if p.state == Done {
        var e := h + p.addr + p.port;
        assert s[3..][..|d|] == d;
        assert e[..|d|] == h + p.addr;
        assert d == h + p.addr;
        assert d[|h|..] == p.addr;
        assert e[|d|..] == p.port;
        assert s[3..][|d|..][..2] == r.port;
      }
    }
  }

  /**
   The parser refines the grammar: it is done exactly when the stream has a prefix that encodes a CONNECT
   request; besides the requests of RFC 1928, that includes the zero-length name.
   */
  lemma DoneIffRequest(s: seq<Byte>)
    ensures FeedAll(Feed, INITIAL, s).state == Done <==> exists r: Request :: r.Accepted() && r.Encode() <= s
  {
    if FeedAll(Feed, INITIAL, s).state == Done {
      DoneReencodes(s);
      var r := RequestOf(FeedAll(Feed, INITIAL, s), s[2]);
      assert r.Accepted() && r.Encode() <= s;
    }
    forall r: Request | r.Accepted() && r.Encode() <= s
      ensures FeedAll(Feed, INITIAL, s).state == Done
    {
      EncodedIsDone(r, s);
    }
  }

  /** The stream asks to connect to a name of length zero, and is as long as the parser takes such a request to be. */
  predicate ZeroLengthName(s: seq<Byte>) {
    |s| >= 8 && s[0] == 5 && s[1] == CMD_CONNECT && s[3] == ATYP_DOMAIN && s[4] == 0
  }

  /** A stream that starts with an accepted request starts with a request of RFC 1928 unless its name is empty. */
  lemma RfcUnlessZeroLength(r: Request, s: seq<Byte>)
    requires r.Accepted() && r.Encode() <= s
    ensures r.Rfc() <==> !ZeroLengthName(s)
  {
    EncodingShape(r, s);
    if r.dest.StrayName? {
      assert |r.Encode()| == 8;
    }
  }

  /** The parser agrees with RFC 1928 on a stream if and only if the stream does not name an empty name. */
  lemma DoneIffRfcRequest(s: seq<Byte>)
    ensures (FeedAll(Feed, INITIAL, s).state == Done <==> exists r: Request :: r.Rfc() && r.Encode() <= s)
            <==> !ZeroLengthName(s)
  {
    DoneIffRequest(s);
    forall r: Request | r.Accepted() && r.Encode() <= s
      ensures r.Rfc() <==> !ZeroLengthName(s)
    {
      RfcUnlessZeroLength(r, s);
    }
    if ZeroLengthName(s) {
      var r := Request(s[2], StrayName(s[5]), s[6..8]);
      assert r.Encode() == s[..8];
      assert r.Accepted() && r.Encode() <= s;
    }
  }

  /** With a zero-length name the parser is done although no request of RFC 1928 was sent. */
  lemma ZeroLengthNameIsAccepted(stray: Byte, port: seq<Byte>)
    requires |port| == 2
    ensures var s := [5, 1, 0, 3, 0, stray] + port;
            && FeedAll(Feed, INITIAL, s).state == Done
            && !exists r: Request :: r.Rfc() && r.Encode() <= s
  {
    var s := [5, 1, 0, 3, 0, stray] + port;
    var r := Request(0, StrayName(stray), port);
    assert r.Encode() == s;
    EncodedIsDone(r, s);
    forall q: Request | q.Rfc() && q.Encode() <= s
      ensures false
    {
      EncodingShape(q, s);
    }
  }

  /** Done and error states absorb every further byte. */
  lemma {:induction false} FinalStatesAbsorb(p: Parser, s: seq<Byte>)
    requires p.state.Done? || p.state.Error? || p.state.ErrorUnsupportedCmd? || p.state.ErrorUnsupportedType?
             || p.state.ErrorUnsupportedVersion?
    ensures FeedAll(Feed, p, s) == p
    decreases |s|
  {
    if s != [] {
      FinalStatesAbsorb(p, s[1..]);
    }
  }

  /** No two accepted requests start the same stream. */
  lemma EncodingIsUnique(q: Request, r: Request, s: seq<Byte>)
    requires q.Accepted() && r.Accepted() && q.Encode() <= s && r.Encode() <= s
    ensures q == r
  {
    EncodedIsDone(q, s);
    EncodedIsDone(r, s);
    EncodingShape(q, s);
    EncodingShape(r, s);
  }

  /** A proper prefix of an accepted request is not done. */
  lemma NotDoneEarly(r: Request, k: nat)
    requires r.Accepted() && k < |r.Encode()|
    ensures FeedAll(Feed, INITIAL, r.Encode()[..k]).state != Done
  {
    var e := r.Encode();
    if FeedAll(Feed, INITIAL, e[..k]).state == Done {
      DoneReencodes(e[..k]);
      EncodingIsUnique(RequestOf(FeedAll(Feed, INITIAL, e[..k]), e[2]), r, e);
      assert false;
    }
  }

  /** The consuming loop takes exactly the bytes of a request. */
  lemma RequestTaken(r: Request, s: seq<Byte>)
    requires r.Accepted() && r.Encode() <= s
    ensures var (p, n) := Consume(Feed, IsDone, INITIAL, s);
            p.state == Done && n == |r.Encode()| && RequestOf(p, r.rsv) == r
  {
    var e := r.Encode();
    var (p, n) := Consume(Feed, IsDone, INITIAL, s);
    ConsumeIsFeeding(Feed, IsDone, INITIAL, s);
    EncodedIsDone(r, s);
    EncodedIsDone(r, e);
    assert s[..|e|] == e;
    if n < |e| {
      assert s[..n] == e[..n];
      NotDoneEarly(r, n);
    }
    assert n <= |e|;
  }

  /** However the request arrives, the stage takes exactly its bytes and leaves what was pipelined behind it. */
  lemma RequestTakenExactly(r: Request, chunks: seq<seq<Byte>>)
    requires r.Accepted() && r.Encode() <= Flatten(chunks)
    ensures var (p, n) := ConsumeChunks(Feed, IsDone, INITIAL, chunks);
            p.state == Done && n == |r.Encode()| && RequestOf(p, r.rsv) == r
  {
    ChunkingIrrelevant(Feed, IsDone, INITIAL, chunks);
    RequestTaken(r, Flatten(chunks));
  }

  /** A loop that has stopped has taken a request and no more. */
  lemma FinishedRequest(s: seq<Byte>)
    requires Consume(Feed, IsDone, INITIAL, s).0.state == Done
    ensures |s| >= 4
    ensures var (p, n) := Consume(Feed, IsDone, INITIAL, s);
            var r := RequestOf(p, s[2]);
            r.Accepted() && r.Encode() <= s && n == |r.Encode()| && p.atyp == s[3] && KnownType(p.atyp)
  {
    var (p, n) := Consume(Feed, IsDone, INITIAL, s);
    ConsumeIsFeeding(Feed, IsDone, INITIAL, s);
    Explained(s[..n]);
    DoneReencodes(s[..n]);
    var r := RequestOf(p, s[2]);
    RequestTaken(r, s);
  }

  /** The loop stops on exactly the streams that start with a request. */
  lemma StopsIffRequest(s: seq<Byte>)
    ensures Consume(Feed, IsDone, INITIAL, s).0.state == Done <==> exists r: Request :: r.Accepted() && r.Encode() <= s
  {
    if Consume(Feed, IsDone, INITIAL, s).0.state == Done {
      FinishedRequest(s);
    }
    forall r: Request | r.Accepted() && r.Encode() <= s
      ensures Consume(Feed, IsDone, INITIAL, s).0.state == Done
    {
      RequestTaken(r, s);
    }
  }

  /** The parser as the server holds it, with the request it fills in place. */
  class RequestParser {
    var state: State
    var remaining: Byte
    var read: Byte
    var cmd: Byte
    var atyp: Byte
    var size: Byte
    const address: array<Byte>
    const host: array<Byte>
    const destPort: array<Byte>

    ghost predicate Shaped()
      reads this, address, host, destPort
    {
      && address.Length == 16 && host.Length == MAX_FQDN_SIZE && destPort.Length == 2
      && address != host && address != destPort && host != destPort
    }

    /** The destination field in use. */
    function Destination(): array<Byte>
      reads this
    {
      if atyp == ATYP_DOMAIN then host else address
    }

    ghost function View(): Parser
      requires Valid()
      reads this, address, host, destPort
    {
      Parser(state, remaining, cmd, atyp, size,
             Destination()[..Stored()],
             destPort[..if state == DestPort then read as int else if state == Done then 2 else 0])
    }

    /** How many bytes of the destination field have been stored. */
    ghost function Stored(): nat
      reads this
    {
      if state == DestAddr then read
      else if state != DestPort && state != Done then 0
      else if atyp == ATYP_IPV4 then 4 else if atyp == ATYP_IPV6 then 16 else Max(size, 1)
    }

    ghost predicate Valid()
      reads this, address, host, destPort
    {
      && Shaped()
      && size <= 254
      && (state == DestAddr || state == DestPort || state == Done ==> KnownType(atyp))
      && (state == DestAddrFqdn ==> atyp == ATYP_DOMAIN)
      && (state == DestAddr ==>
            && remaining == (if atyp == ATYP_IPV4 then 4 else if atyp == ATYP_IPV6 then 16 else size)
            && read < Max(remaining, 1))
      && (state == DestPort ==> remaining == 2 && read < 2)
    }

    constructor ()
      ensures Valid() && View() == INITIAL && fresh(address) && fresh(host) && fresh(destPort)
    {
      state, remaining, read, cmd, atyp, size := Version, 0, 0, 0, 0, 0;
      address, host, destPort := new Byte[16], new Byte[MAX_FQDN_SIZE], new Byte[2];
      new;
      assert host[..0] == [] && address[..0] == [] && destPort[..0] == [];
    }

    method RemainingSet(n: Byte)
      modifies this`remaining, this`read
      ensures remaining == n && read == 0
    {
      remaining, read := n, 0;
    }

    method AddressType(b: Byte) returns (next: State)
      modifies this`atyp, this`remaining, this`read
      ensures atyp == b
      ensures if b == ATYP_IPV4 then next == DestAddr && remaining == 4 && read == 0
              else if b == ATYP_IPV6 then next == DestAddr && remaining == 16 && read == 0
              else remaining == old(remaining) && next == if b == ATYP_DOMAIN then DestAddrFqdn else ErrorUnsupportedType
    {
      atyp := b;
      if b == ATYP_IPV4 {
        RemainingSet(4);
        next := DestAddr;
      } else if b == ATYP_DOMAIN {
        next := DestAddrFqdn;
      } else if b == ATYP_IPV6 {
        RemainingSet(16);
        next := DestAddr;
      } else {
        next := ErrorUnsupportedType;
      }
    }

    /** The terminator the original stores in front of a zero-length name has no cell and is not modelled. */
    method DestAddressFqdn(b: Byte) returns (next: State)
      requires Shaped()
      modifies this`remaining, this`read, this`size, host
      ensures if b > MAX_FQDN_SIZE - 1 then next == Error && remaining == old(remaining) && size == old(size)
              else next == DestAddr && remaining == b && size == b && read == 0
    {
      if b > MAX_FQDN_SIZE - 1 {
        return Error;
      }
      RemainingSet(b);
      if b > 0 {
        host[b - 1] := 0;
      }
      size := b;
      next := DestAddr;
    }

    method DestAddress(b: Byte) returns (next: State)
      requires Valid() && state == DestAddr
      modifies this`remaining, this`read, address, host
      ensures Destination()[..old(read) + 1] == old(Destination()[..read]) + [b]
      ensures if old(read) + 1 >= old(remaining) then next == DestPort && remaining == 2 && read == 0
              else next == DestAddr && remaining == old(remaining) && read == old(read) + 1
    {
      var dest := Destination();
      dest[read] := b;
      read := read + 1;
      if read >= remaining {
        RemainingSet(2);
        next := DestPort;
      } else {
        next := DestAddr;
      }
    }

    method DestinationPort(b: Byte) returns (next: State)
      requires Valid() && state == DestPort
      modifies this`read, destPort
      ensures destPort[..old(read) + 1] == old(destPort[..read]) + [b] && read == old(read) + 1
      ensures next == if read >= remaining then Done else DestPort
    {
      destPort[read] := b;
      read := read + 1;
      next := if read >= remaining then Done else DestPort;
    }

    method FeedByte(b: Byte) returns (following: State)
      requires Valid()
      modifies this, address, host, destPort
      ensures Valid() && View() == Feed(old(View()), b) && following == state
    {
      following := Error;
      match state {
        case Version => following := if b == 5 then Cmd else ErrorUnsupportedVersion;
        case Cmd =>
          if b == CMD_CONNECT {
            cmd := b;
            following := Rsv;
          } else {
            following := ErrorUnsupportedCmd;
          }
        case Rsv => following := Atyp;
        case Atyp => following := AddressType(b);
        case DestAddrFqdn => following := DestAddressFqdn(b);
        case DestAddr => following := DestAddress(b);
        case DestPort => following := DestinationPort(b);
        case _ => following := state;
      }
      state := following;
    }

    /** One turn of the consuming loop. */
    method TakeByte(b: Buffer)
      requires Valid() && b.Valid() && b.View().CanRead()
      requires b.data != address && b.data != host && b.data != destPort
      modifies this, address, host, destPort, b, b.data
      ensures Valid() && b.Valid()
      ensures View() == Feed(old(View()), old(b.View()).bytes[0])
      ensures b.View() == old(b.View()).Advance(1)
    {
      var byte := b.ReadByte();
      var _ := FeedByte(byte);
    }

    /** `request_consume`: feeds the buffer to the parser until it is done or the buffer is empty. */
    method ConsumeFrom(b: Buffer) returns (st: State)
      requires Valid() && b.Valid() && b.data != address && b.data != host && b.data != destPort
      modifies this, address, host, destPort, b, b.data
      ensures Valid() && b.Valid() && st == state
      ensures var (p, n) := Consume(Feed, IsDone, old(View()), old(b.View()).bytes);
              View() == p && b.View() == old(b.View()).Advance(n)
    {
      var finished := false;
      ghost var start, was, k := View(), b.View(), 0;
      DrainingStarts(Feed, IsDone, start, was);
      var more := b.CanRead();
      while more && !finished
        invariant Valid() && b.Valid() && more == b.View().CanRead()
        invariant Draining(Feed, IsDone, start, was, View(), b.View(), k, finished)
        decreases |was.bytes| - k
      {
        DrainingStep(Feed, IsDone, start, was, View(), b.View(), k);
        TakeByte(b);
        finished := state == Done;
        k := k + 1;
        more := b.CanRead();
      }
      DrainingEnds(Feed, IsDone, start, was, View(), b.View(), k, finished);
      st := state;
    }
  }
}
