/**
 The method-selection parser (RFC 1928 section 3), shared by the proxy and the management server.
 */
module HelloParserModule {

  import opened Base
  import opened Buffers
  import opened Feeding

  const NO_AUTHENTICATION: Byte := 0
  const USERNAME_PASSWORD: Byte := 2
  const NO_ACCEPTABLE_METHODS: Byte := 0xFF

  datatype State = Version | NMethods | Methods | Done | ErrorUnsupportedVersion

  /** `wanted` is the one method the server is configured for; `selected` is the selection so far. */
  datatype Hello = Hello(state: State, version: Byte, wanted: Byte, remaining: Byte, selected: Byte)

  function Initial(version: Byte, wanted: Byte): Hello {
    Hello(Version, version, wanted, 0, NO_ACCEPTABLE_METHODS)
  }

  function Feed(p: Hello, b: Byte): Hello {
    match p.state
    case Version => p.(state := if b == p.version then NMethods else ErrorUnsupportedVersion)
    case NMethods => p.(remaining := b, state := if b == 0 then Done else Methods)
    case Methods =>
      var left := if p.remaining == 0 then 255 else p.remaining - 1;
      p.(selected := if b == p.wanted then b else p.selected, remaining := left, state := if left == 0 then Done else Methods)
    case _ => p
  }

  /** `hello_is_done`: success and failure both stop the consuming loop. */
  predicate Stops(p: Hello) {
    p.state == Done || p.state == ErrorUnsupportedVersion
  }

  /** A client's opening message. */
  function Encode(version: Byte, methods: seq<Byte>): seq<Byte>
    requires |methods| <= 255
  {
    [version, |methods|] + methods
  }

  /** The length that the second byte of a message announces. */
  function MessageLength(s: seq<Byte>): nat
    requires |s| >= 2
  {
    2 + s[1] as int
  }

  /** `s` opens with a complete message of `k` bytes for this version. */
  predicate Opens(s: seq<Byte>, version: Byte, k: nat) {
    2 <= k <= |s| && s[0] == version && k == MessageLength(s)
  }

  function Select(wanted: Byte, methods: seq<Byte>): Byte {
    if wanted in methods then wanted else NO_ACCEPTABLE_METHODS
  }

  ghost predicate Explains(p: Hello, version: Byte, wanted: Byte, s: seq<Byte>) {
    p.version == version && p.wanted == wanted &&
    match p.state
    case Version => s == [] && p == Initial(version, wanted)
    case NMethods => s == [version] && p.selected == NO_ACCEPTABLE_METHODS
    case Methods =>
      && 2 <= |s| < MessageLength(s) && s[0] == version && p.remaining == MessageLength(s) - |s|
      && p.selected == Select(wanted, s[2..])
    case Done => |s| >= 2 && Opens(s, version, MessageLength(s)) && p.selected == Select(wanted, s[2..MessageLength(s)])
    case ErrorUnsupportedVersion => |s| >= 1 && s[0] != version
  }

  lemma {:induction false} Explained(version: Byte, wanted: Byte, s: seq<Byte>)
    ensures Explains(FeedAll(Feed, Initial(version, wanted), s), version, wanted, s)
    decreases |s|
  {
    if s != [] {
      var t, b := s[..|s| - 1], s[|s| - 1];
      assert s == t + [b];
      Explained(version, wanted, t);
      FeedAllSnoc(Feed, Initial(version, wanted), t, b);
      ExplainsStep(FeedAll(Feed, Initial(version, wanted), t), version, wanted, t, b);
    }
  }

  lemma ExplainsStep(p: Hello, version: Byte, wanted: Byte, s: seq<Byte>, b: Byte)
    requires Explains(p, version, wanted, s)
    ensures Explains(Feed(p, b), version, wanted, s + [b])
  {
    var t := s + [b];
    match p.state
    case NMethods =>
      assert t[2..] == [] && t[2..2] == [];
    case Methods =>
      assert t[2..] == s[2..] + [b];
      if |t| == MessageLength(t) {
        assert t[2..MessageLength(t)] == t[2..];
      }
    case Done =>
      assert t[2..MessageLength(t)] == s[2..MessageLength(s)];
    case _ =>
  }

  /**
   The parser accepts exactly the streams that open with a complete message for its version, and selects the
   configured method exactly when the client offered it.
   */
  lemma DoneIffOpens(version: Byte, wanted: Byte, s: seq<Byte>)
    ensures var p := FeedAll(Feed, Initial(version, wanted), s);
            && (p.state == Done <==> |s| >= 2 && Opens(s, version, MessageLength(s)))
            && (p.state == Done ==> p.selected == Select(wanted, s[2..MessageLength(s)]))
            && (p.state == ErrorUnsupportedVersion <==> |s| >= 1 && s[0] != version)
  {
    Explained(version, wanted, s);
  }

  /** Whatever the chunking, the stage takes exactly the message, and its outcome is fixed by the message. */
  lemma MessageTakenExactly(version: Byte, wanted: Byte, methods: seq<Byte>, rest: seq<Byte>, chunks: seq<seq<Byte>>)
    requires |methods| <= 255 && Flatten(chunks) == Encode(version, methods) + rest
    ensures var (p, n) := ConsumeChunks(Feed, Stops, Initial(version, wanted), chunks);
            p.state == Done && n == 2 + |methods| && p.selected == Select(wanted, methods)
  {
    var s := Flatten(chunks);
    ChunkingIrrelevant(Feed, Stops, Initial(version, wanted), chunks);
    ConsumedMessage(version, wanted, s, 2 + |methods|);
    assert s[2..2 + |methods|] == methods;
  }

  lemma ConsumedMessage(version: Byte, wanted: Byte, s: seq<Byte>, k: nat)
    requires Opens(s, version, k)
    ensures var (p, n) := Consume(Feed, Stops, Initial(version, wanted), s);
            p.state == Done && n == k && p.selected == Select(wanted, s[2..k])
  {
    var (p, n) := Consume(Feed, Stops, Initial(version, wanted), s);
    ConsumeIsFeeding(Feed, Stops, Initial(version, wanted), s);
    DoneIffOpens(version, wanted, s[..k]);
    DoneIffOpens(version, wanted, s[..n]);
    assert s[..k][2..k] == s[2..k];
    assert n <= k;
  }

  /** Conversely, a stage that stopped has taken a message of its own version, or seen another version. */
  lemma StoppedHasMessage(version: Byte, wanted: Byte, s: seq<Byte>)
    ensures var (p, n) := Consume(Feed, Stops, Initial(version, wanted), s);
            && (p.state == Done ==> Opens(s, version, n) && p.selected == Select(wanted, s[2..n]))
            && (p.state == ErrorUnsupportedVersion ==> s != [] && s[0] != version)
            && (!Stops(p) ==> n == |s| && p == FeedAll(Feed, Initial(version, wanted), s))
  {
    var (p, n) := Consume(Feed, Stops, Initial(version, wanted), s);
    ConsumeIsFeeding(Feed, Stops, Initial(version, wanted), s);
    DoneIffOpens(version, wanted, s[..n]);
    if n == |s| {
      assert s[..n] == s;
    }
    if p.state == Done {
      var k := MessageLength(s);
      assert s[..n][1] == s[1];
      ConsumedMessage(version, wanted, s, k);
    }
  }

  /** Where the consuming loop ends, said of the bytes it is given. */
  lemma StopsIffOpens(version: Byte, wanted: Byte, s: seq<Byte>)
    requires s != []
    ensures var p := Consume(Feed, Stops, Initial(version, wanted), s).0;
            && (p.state == Done <==> |s| >= 2 && s[0] == version && |s| >= MessageLength(s))
            && (p.state == ErrorUnsupportedVersion <==> s[0] != version)
            && (p.state == Done ==> p.selected == Select(wanted, s[2..MessageLength(s)]))
  {
    var (p, n) := Consume(Feed, Stops, Initial(version, wanted), s);
    StoppedHasMessage(version, wanted, s);
    if |s| >= 2 && s[0] == version && |s| >= MessageLength(s) {
      ConsumedMessage(version, wanted, s, MessageLength(s));
    }
    if s[0] != version {
      assert Stops(Feed(Initial(version, wanted), s[0]));
    }
  }

  lemma {:induction false} WantedStays(p: Hello, s: seq<Byte>)
    ensures Consume(Feed, Stops, p, s).0.wanted == p.wanted
    decreases |s|
  {
    if s != [] {
      WantedStays(Feed(p, s[0]), s[1..]);
    }
  }

  /** The same for a message of which `s` has been read, when `more` arrives. */
  lemma StoppedLater(version: Byte, wanted: Byte, s: seq<Byte>, p: Hello, more: seq<Byte>)
    requires Takes(Feed, Stops, Initial(version, wanted), s, p) && !Stops(p)
    ensures var (q, n) := Consume(Feed, Stops, p, more);
            && q.wanted == wanted
            && (q.state == Done ==> Opens(s + more, version, |s| + n) && q.selected == Select(wanted, (s + more)[2..|s| + n]))
            && (!Stops(q) ==> n == |more| && Takes(Feed, Stops, Initial(version, wanted), s + more, q))
  {
    ConsumeConcat(Feed, Stops, Initial(version, wanted), s, more);
    StoppedHasMessage(version, wanted, s + more);
    WantedStays(Initial(version, wanted), s);
    WantedStays(p, more);
  }

  class HelloParser {
    var state: State
    var version: Byte
    var wanted: Byte
    var remaining: Byte
    var selected: Byte

    ghost function View(): Hello
      reads this
    {
      Hello(state, version, wanted, remaining, selected)
    }

    constructor (version: Byte, wanted: Byte)
      ensures View() == Initial(version, wanted)
    {
      this.version, this.wanted := version, wanted;
      state, remaining, selected := Version, 0, NO_ACCEPTABLE_METHODS;
    }

    /** The callback that compares an offered method with the configured one. */
    method OnAuthenticationMethod(offered: Byte)
      modifies this`selected
      ensures selected == if offered == wanted then offered else old(selected)
    {
      if wanted == offered {
        selected := offered;
      }
    }

    method FeedByte(b: Byte) returns (st: State)
      modifies this
      ensures View() == Feed(old(View()), b) && st == state
    {
      match state {
        case Version => state := if b == version then NMethods else ErrorUnsupportedVersion;
        case NMethods =>
          remaining := b;
          state := Methods;
          if remaining <= 0 {
            state := Done;
          }
        case Methods =>
          OnAuthenticationMethod(b);
          remaining := if remaining == 0 then 255 else remaining - 1;
          if remaining <= 0 {
            state := Done;
          }
        case _ =>
      }
      st := state;
    }

    /** One turn of the consuming loop. */
    method TakeByte(b: Buffer) returns (st: State)
      requires b.Valid() && b.View().CanRead()
      modifies this, b, b.data
      ensures b.Valid() && st == state
      ensures View() == Feed(old(View()), old(b.View()).bytes[0])
      ensures b.View() == old(b.View()).Advance(1)
    {
      var byte := b.ReadByte();
      st := FeedByte(byte);
    }

    /** `hello_consume`. */
    method ConsumeFrom(b: Buffer) returns (st: State)
      requires b.Valid()
      modifies this, b, b.data
      ensures b.Valid() && st == state
      ensures var (p, n) := Consume(Feed, Stops, old(View()), old(b.View()).bytes);
              View() == p && b.View() == old(b.View()).Advance(n)
    {
      st := state;
      var finished := false;
      ghost var start, was, k := View(), b.View(), 0;
      DrainingStarts(Feed, Stops, start, was);
      var more := b.CanRead();
      while more && !finished
        invariant b.Valid() && st == state && more == b.View().CanRead()
        invariant Draining(Feed, Stops, start, was, View(), b.View(), k, finished)
        decreases |was.bytes| - k
      {
        DrainingStep(Feed, Stops, start, was, View(), b.View(), k);
        st := TakeByte(b);
        finished := st == Done || st == ErrorUnsupportedVersion;
        k := k + 1;
        more := b.CanRead();
      }
      DrainingEnds(Feed, Stops, start, was, View(), b.View(), k, finished);
    }
  }
}
