/**
 Replies of the management server and the client that reads them; and the client's encoders for the
 credentials, add-user and delete-user messages.
 */
module ManagementModule {

  import opened Base
  import opened Buffers
  import opened Feeding
  import opened UsersModule
  import F = FieldParserModule
  import C = ConnectionModule

  const STATUS_SUCCEEDED: Byte := 0

  // ----- Metric replies -----

  const TWO_TO_32 := 0x1_0000_0000

  /** The four bytes of a `uint32_t`, least significant first. */
  function LittleEndian(v: nat): (bytes: seq<Byte>)
    ensures |bytes| == 4
  {
    [v % 256, v / 256 % 256, v / 65536 % 256, v / 16777216 % 256]
  }

  /** `uint_mng_request_marshall`: a metric is narrowed to 32 bits on its way in. */
  function MetricReply(v: nat): seq<Byte> {
    [STATUS_SUCCEEDED] + LittleEndian(v % TWO_TO_32)
  }

  /** `cast_uint32`: the client's reading of a reply. */
  function CastUint32(reply: seq<Byte>): nat
    requires |reply| >= 5
  {
    reply[1] as int + reply[2] as int * 256 + reply[3] as int * 65536 + reply[4] as int * 16777216
  }

  /** The client reads back every metric modulo 2^32. */
  lemma MetricRoundTrip(v: nat, rest: seq<Byte>)
    ensures CastUint32(MetricReply(v) + rest) == v % TWO_TO_32
  {
    var reply := MetricReply(v) + rest;
    assert reply[1..5] == LittleEndian(v % TWO_TO_32);
    LittleEndianSum(v % TWO_TO_32);
  }

  lemma LittleEndianSum(w: nat)
    requires w < TWO_TO_32
    ensures var d := LittleEndian(w);
            d[0] as int + d[1] as int * 256 + d[2] as int * 65536 + d[3] as int * 16777216 == w
  {
    var a, b, c := w / 256, w / 65536, w / 16777216;
    assert a / 256 == b && b / 256 == c && c < 256;
  }

  /** Writes a metric reply if the buffer has room for it. */
  method MarshalMetric(wb: Buffer, v: nat)
    requires wb.Valid()
    modifies wb, wb.data
    ensures wb.Valid()
    ensures wb.View() == if old(wb.View()).Room() < 5 then old(wb.View()) else old(wb.View()).Append(MetricReply(v))
  {
    var n := wb.WriteWindow();
    if n < 5 {
      return;
    }
    wb.Fill([STATUS_SUCCEEDED] + LittleEndian(v % TWO_TO_32));
  }

  // ----- The list reply -----

  function NamesLength(t: seq<User>): nat {
    if t == [] then 0 else |t[0].name| + NamesLength(t[1..])
  }

  function EncodeNames(t: seq<User>): seq<Byte> {
    if t == [] then [] else [|t[0].name| % 256] + t[0].name + EncodeNames(t[1..])
  }

  function ListReply(t: seq<User>): seq<Byte> {
    [STATUS_SUCCEEDED, |t| % 256] + EncodeNames(t)
  }

  lemma {:induction false} ListReplyLength(t: seq<User>)
    ensures |EncodeNames(t)| == NamesLength(t) + |t|
  {
    if t != [] {
      ListReplyLength(t[1..]);
    }
  }

  const SIZE_T := 0x1_0000_0000_0000_0000

  /** What remains of the room after reserving the two leading bytes, in `size_t` arithmetic. */
  function Reserved(room: nat): nat {
    (room + SIZE_T - 2) % SIZE_T
  }

  /** The size check of the list reply: it subtracts the names but not their length bytes. */
  predicate CheckPasses(room: nat, t: seq<User>)
    decreases |t|
  {
    t == [] || (|t[0].name| <= room && CheckPasses(room - |t[0].name|, t[1..]))
  }

  lemma {:induction false} CheckMeans(room: nat, t: seq<User>)
    ensures CheckPasses(room, t) <==> NamesLength(t) <= room
    decreases |t|
  {
    if t != [] && |t[0].name| <= room {
      CheckMeans(room - |t[0].name|, t[1..]);
    }
  }

  /**
   The reply stays inside the buffer if and only if, besides passing the check, the room also covers one
   length byte for each user.
   */
  lemma ListReplyFits(room: nat, t: seq<User>)
    requires 2 <= room < SIZE_T
    ensures CheckPasses(Reserved(room), t) <==> NamesLength(t) + 2 <= room
    ensures |ListReply(t)| <= room <==> NamesLength(t) + 2 + |t| <= room
  {
    CheckMeans(Reserved(room), t);
    ListReplyLength(t);
  }

  /** The check passes for a reply that does not fit. */
  predicate Overruns(room: nat, t: seq<User>) {
    CheckPasses(Reserved(room), t) && |ListReply(t)| > room
  }

  /** A name of `n` letters. */
  function Letters(n: nat): seq<Byte> {
    seq(n, _ => 0x61)
  }

  lemma {:induction false} AddedTimes(t: seq<User>, u: User, n: nat)
    requires |t| + n <= MAX_USERS
    ensures ChangeAll(t, seq(n, _ => AddUser(u))) == t + seq(n, _ => u)
    decreases n
  {
    if n > 0 {
      var ops := seq(n, _ => AddUser(u));
      assert ops[1..] == seq(n - 1, _ => AddUser(u));
      AddedTimes(Add(t, u), u, n - 1);
      assert t + [u] + seq(n - 1, _ => u) == t + seq(n, _ => u);
    }
  }

  lemma {:induction false} NamesLengthOf(t: seq<User>, more: seq<User>)
    ensures NamesLength(t + more) == NamesLength(t) + NamesLength(more)
  {
    if t == [] {
      assert t + more == more;
    } else {
      assert (t + more)[1..] == t[1..] + more;
      NamesLengthOf(t[1..], more);
    }
  }

  lemma {:induction false} NamesLengthTimes(n: nat, u: User)
    ensures NamesLength(seq(n, _ => u)) == n * |u.name|
  {
    if n > 0 {
      assert seq(n, _ => u)[1..] == seq(n - 1, _ => u);
      NamesLengthTimes(n - 1, u);
    }
  }

  lemma {:induction false} ChangedInTurn(t: seq<User>, ops: seq<TableOp>, more: seq<TableOp>)
    ensures ChangeAll(t, ops + more) == ChangeAll(ChangeAll(t, ops), more)
    decreases |ops|
  {
    if ops == [] {
      assert ops + more == more;
    } else {
      assert (ops + more)[1..] == ops[1..] + more;
      ChangedInTurn(ChangeTable(t, ops[0]), ops[1..], more);
    }
  }

  /** Administrators can bring the server there: nine additions overrun the empty buffer that the reply is written to. */
  lemma ListReplyCanOverrun() returns (ops: seq<TableOp>)
    ensures forall op :: op in ops ==> op.AddUser? && NulFree(op.user.name) && |op.user.name| <= 255
    ensures Overruns(C.BUFFER_SIZE, ChangeAll([], ops))
  {
    var long, short := User(Letters(255), []), User(Letters(6), []);
    ops := seq(8, _ => AddUser(long)) + [AddUser(short)];
    var t := seq(8, _ => long);
    AddedTimes([], long, 8);
    assert [] + t == t;
    ChangedInTurn([], seq(8, _ => AddUser(long)), [AddUser(short)]);
    assert ChangeAll(Add(t, short), []) == t + [short];
    NamesLengthTimes(8, long);
    NamesLengthOf(t, [short]);
    assert NamesLength([short]) == 6 + NamesLength([]);
    ListReplyFits(C.BUFFER_SIZE, t + [short]);
  }

  /**
   Writes the list reply if the check passes. `overrun` says that it would then run past the end of the buffer;
   the method stops short of that.
   */
  method MarshalList(wb: Buffer, table: UserTable) returns (overrun: bool)
    requires wb.Valid() && table.Valid() && wb.View().Room() < SIZE_T
    modifies wb, wb.data
    ensures wb.Valid()
    ensures overrun <==> Overruns(old(wb.View()).Room(), table.Contents())
    ensures wb.View() == if CheckPasses(Reserved(old(wb.View()).Room()), table.Contents()) && !overrun
                         then old(wb.View()).Append(ListReply(table.Contents())) else old(wb.View())
  {
    overrun := false;
    var n := wb.WriteWindow();
    ghost var t := table.Contents();
    var aux := Reserved(n);
    for i := 0 to table.count
      invariant aux >= 0
      invariant CheckPasses(Reserved(n), t) <==> CheckPasses(aux, t[i..])
    {
      assert t[i..][1..] == t[i + 1..];
      if |table.cells[i].name| > aux {
        return;
      }
      aux := aux - |table.cells[i].name|;
    }
    var buf := [STATUS_SUCCEEDED, table.count % 256];
    for i := 0 to table.count
      invariant buf + EncodeNames(t[i..]) == ListReply(t)
    {
      assert t[i..][1..] == t[i + 1..];
      ghost var was := buf;
      var user := table.cells[i].name;
      buf := buf + [|user| % 256] + user;
      assert was + EncodeNames(t[i..]) == buf + EncodeNames(t[i + 1..]);
    }
    assert t[|t|..] == [] && buf + [] == buf;
    if |buf| > n {
      return true;
    }
    wb.Fill(buf);
  }

  function Names(t: seq<User>): seq<seq<Byte>> {
    if t == [] then [] else [t[0].name] + Names(t[1..])
  }

  /** The client's loop: `count` names, each behind its length. Reading past the reply gives `None`. */
  function DecodeNames(reply: seq<Byte>, index: nat, count: nat): Option<seq<seq<Byte>>>
    decreases count
  {
    if count == 0 then Some([])
    else if index >= |reply| || index + 1 + reply[index] as int > |reply| then None
    else
      var end := index + 1 + reply[index] as int;
      var rest := DecodeNames(reply, end, count - 1);
      if rest.None? then None else Some([CString(reply[index + 1..end])] + rest.value)
  }

  function DecodeList(reply: seq<Byte>): Option<seq<seq<Byte>>> {
    if |reply| < 2 then None else DecodeNames(reply, 2, reply[1])
  }

  lemma {:induction false} CStringOfNulFree(t: seq<Byte>)
    requires NulFree(t)
    ensures CString(t) == t
    decreases |t|
  {
    if t != [] {
      CStringOfNulFree(t[1..]);
    }
  }

  /** Every name of the table can be listed: it is a C string whose length fits a byte. */
  predicate Listable(t: seq<User>) {
    forall k :: 0 <= k < |t| ==> NulFree(t[k].name) && |t[k].name| <= 255
  }

  /** Where the first name and the names behind it are in an encoding that starts at `index`. */
  lemma FirstName(reply: seq<Byte>, index: nat, t: seq<User>)
    requires t != [] && |t[0].name| <= 255
    requires index <= |reply| && reply[index..] == EncodeNames(t)
    ensures var end := index + 1 + |t[0].name|;
            && end <= |reply| && reply[index] == |t[0].name|
            && reply[index + 1..end] == t[0].name && reply[end..] == EncodeNames(t[1..])
  {
    var tail := reply[index..];
    var n := |t[0].name|;
    assert tail == [n] + t[0].name + EncodeNames(t[1..]);
    assert reply[index] == tail[0];
    assert reply[index + 1..index + 1 + n] == tail[1..1 + n];
    assert reply[index + 1 + n..] == tail[1 + n..];
  }

  lemma {:induction false} NamesDecode(reply: seq<Byte>, index: nat, t: seq<User>)
    requires Listable(t) && index <= |reply| && reply[index..] == EncodeNames(t)
    ensures DecodeNames(reply, index, |t|) == Some(Names(t))
    decreases |t|
  {
    if t != [] {
      FirstName(reply, index, t);
      CStringOfNulFree(t[0].name);
      NamesDecode(reply, index + 1 + |t[0].name|, t[1..]);
    }
  }

  lemma ListHead(t: seq<User>)
    requires |t| <= MAX_USERS
    ensures |ListReply(t)| >= 2 && ListReply(t)[1] == |t| && ListReply(t)[2..] == EncodeNames(t)
  {
  }

  lemma DecodeListIs(reply: seq<Byte>)
    requires |reply| >= 2
    ensures DecodeList(reply) == DecodeNames(reply, 2, reply[1])
  {
  }

  /** The client lists exactly the names of the table, in order. */
  lemma ListRoundTrip(t: seq<User>)
    requires |t| <= MAX_USERS && Listable(t)
    ensures DecodeList(ListReply(t)) == Some(Names(t))
  {
    var reply := ListReply(t);
    ListHead(t);
    NamesDecode(reply, 2, t);
    DecodeListIs(reply);
  }

  /** A reply cut short names fewer users than it announces. */
  lemma {:induction false} NamesCut(cut: seq<Byte>, reply: seq<Byte>, index: nat, t: seq<User>)
    requires Listable(t) && index <= |cut| < |reply| && cut <= reply && reply[index..] == EncodeNames(t)
    ensures DecodeNames(cut, index, |t|) == None
    decreases |t|
  {
    if t != [] {
      FirstName(reply, index, t);
      var end := index + 1 + |t[0].name|;
      if end <= |cut| {
        NamesCut(cut, reply, end, t[1..]);
      }
    }
  }

  /** The client's receive buffer. */
  const RESPONSE_SIZE := 500

  /** The client, which reads a reply once, lists the table's names if and only if the reply fits its buffer. */
  lemma ListedIffRead(t: seq<User>)
    requires |t| <= MAX_USERS && Listable(t)
    ensures var reply := ListReply(t);
            DecodeList(reply[..Min(|reply|, RESPONSE_SIZE)]) == Some(Names(t)) <==> |reply| <= RESPONSE_SIZE
  {
    var reply := ListReply(t);
    ListHead(t);
    if |reply| <= RESPONSE_SIZE {
      assert reply[..|reply|] == reply;
      ListRoundTrip(t);
    } else {
      var cut := reply[..RESPONSE_SIZE];
      NamesCut(cut, reply, 2, t);
      DecodeListIs(cut);
    }
  }

  // ----- The client's encoders -----

  /** `strcpy`. */
  method StrCpy(buffer: array<Byte>, at: nat, s: seq<Byte>)
    requires NulFree(s) && at + |s| < buffer.Length
    modifies buffer
    ensures buffer[..] == old(buffer[..at]) + s + [0] + old(buffer[at + |s| + 1..])
  {
    forall i | 0 <= i < |s| {
      buffer[at + i] := s[i];
    }
    buffer[at + |s|] := 0;
  }

  /** Lengths are sent in one byte each. */
  function SentCredentials(user: seq<Byte>, pass: seq<Byte>): seq<Byte> {
    [1, |user| % 256] + user + [|pass| % 256] + pass
  }

  /** With lengths that fit their bytes, that is the message of RFC 1929. */
  lemma SentIsMessage(user: seq<Byte>, pass: seq<Byte>)
    requires |user| <= 255 && |pass| <= 255
    ensures SentCredentials(user, pass) == F.EncodeCredentials(user, pass)
  {
  }

  /**
   `send_credentials`. `overrun` says that the message and its final NUL do not fit its 510-byte buffer; the method
   stops short of that.
   */
  method SendCredentials(username: seq<Byte>, password: seq<Byte>) returns (buffer: array<Byte>, n: nat, overrun: bool)
    requires NulFree(username) && NulFree(password)
    ensures n <= buffer.Length == 510 && fresh(buffer)
    ensures overrun <==> 3 + |username| + |password| >= 510
    ensures !overrun ==> buffer[..n] == SentCredentials(username, password)
  {
    buffer := new Byte[510];
    n := 0;
    overrun := 3 + |username| + |password| >= 510;
    if overrun {
      return;
    }
    var userLength: Byte, passLength: Byte := |username| % 256, |password| % 256;
    var i := 0;
    buffer[i] := 1;
    i := i + 1;
    buffer[i] := userLength;
    i := i + 1;
    StrCpy(buffer, i, username);
    assert buffer[..2 + |username|] == [1, userLength] + username;
    buffer[i + |username|] := passLength;
    i := i + 1;
    assert buffer[..3 + |username|] == [1, userLength] + username + [passLength];
    ghost var head := buffer[..3 + |username|];
    StrCpy(buffer, i + |username|, password);
    assert buffer[..3 + |username| + |password|] == head + password;
    n := |username| + |password| + i;
  }

  function EncodeAddUser(user: seq<Byte>, pass: seq<Byte>): seq<Byte>
    requires |user| <= 255 && |pass| <= 255
  {
    [|user|] + user + [|pass|] + pass
  }

  /** `add_user` writes behind the index byte; the caller's buffer has 512 bytes, its inputs at most 254. */
  method AddUserMessage(buffer: array<Byte>, username: seq<Byte>, password: seq<Byte>) returns (n: nat)
    requires buffer.Length == 512 && NulFree(username) && NulFree(password)
    requires |username| <= 254 && |password| <= 254
    modifies buffer
    ensures 1 <= n <= buffer.Length && buffer[0] == old(buffer[0])
    ensures buffer[1..n] == EncodeAddUser(username, password)
  {
    buffer[1] := |username|;
    StrCpy(buffer, 2, username);
    assert buffer[1..2 + |username|] == [|username|] + username;
    buffer[|username| + 2] := |password|;
    assert buffer[1..3 + |username|] == [|username|] + username + [|password|];
    ghost var head := buffer[..3 + |username|];
    StrCpy(buffer, |username| + 3, password);
    assert buffer[..3 + |username| + |password|] == head + password;
    n := |username| + |password| + 3;
  }

  method DeleteUserMessage(buffer: array<Byte>, username: seq<Byte>) returns (n: nat)
    requires buffer.Length == 512 && NulFree(username) && |username| <= 254
    modifies buffer
    ensures 1 <= n <= buffer.Length && buffer[0] == old(buffer[0])
    ensures buffer[1..n] == [|username|] + username
  {
    buffer[1] := |username|;
    StrCpy(buffer, 2, username);
    n := |username| + 2;
  }

  /** A whole add-user request: the server ends up with the client's two strings, whatever the chunking. */
  lemma AddUserRoundTrip(user: seq<Byte>, pass: seq<Byte>, chunks: seq<seq<Byte>>)
    requires |user| <= 255 && |pass| <= 255 && NulFree(user) && NulFree(pass)
    requires EncodeAddUser(user, pass) <= Flatten(chunks)
    ensures var (p, n) := ConsumeChunks(F.Feed, F.Stops, F.Start(F.ADD_USER_FIELDS), chunks);
            && p.current == F.DoneRead && n == 2 + |user| + |pass|
            && |p.steps| == 4 && CString(p.steps[1].result) == user && CString(p.steps[3].result) == pass
  {
    F.PairIsFields(user, pass);
    F.MessageTakenExactly(F.ADD_USER_FIELDS, [user, pass], chunks);
    Terminated(user);
    Terminated(pass);
  }

  lemma DeleteUserRoundTrip(user: seq<Byte>, chunks: seq<seq<Byte>>)
    requires |user| <= 255 && NulFree(user) && [|user|] + user <= Flatten(chunks)
    ensures var (p, n) := ConsumeChunks(F.Feed, F.Stops, F.Start(F.DELETE_USER_FIELDS), chunks);
            && p.current == F.DoneRead && n == 1 + |user|
            && |p.steps| == 2 && CString(p.steps[1].result) == user
  {
    assert F.Encode([F.Prefixed], [user]) == [|user|] + user;
    assert F.Filled([F.Prefixed], [user]) == F.Field.Prefixed.Filled(user);
    F.MessageTakenExactly(F.DELETE_USER_FIELDS, [user], chunks);
    Terminated(user);
  }

  lemma Terminated(t: seq<Byte>)
    requires NulFree(t)
    ensures CString(t + [0]) == t
  {
    CStringOfTerminated(t, []);
    assert t + [0] + [] == t + [0];
  }

  /** The credentials that the client sends are those that the server looks up, zero lengths included. */
  lemma CredentialsRoundTrip(user: seq<Byte>, pass: seq<Byte>, chunks: seq<seq<Byte>>)
    requires |user| <= 255 && |pass| <= 255 && NulFree(user) && NulFree(pass)
    requires F.EncodeCredentials(user, pass) <= Flatten(chunks)
    ensures var (p, n) := ConsumeChunks(F.Feed, F.Stops, F.Start(F.AUTH_FIELDS), chunks);
            && p.current == F.DoneRead && n == 3 + |user| + |pass|
            && |p.steps| == 5 && CString(p.steps[2].result) == user && CString(p.steps[4].result) == pass
  {
    ChunkingIrrelevant(F.Feed, F.Stops, F.Start(F.AUTH_FIELDS), chunks);
    F.CredentialsTaken(user, pass, Flatten(chunks));
    Terminated(user);
    Terminated(pass);
  }
}
