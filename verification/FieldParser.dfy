/**
 The field parser of the authentication and management stages: a fixed list of steps, each of which either
 reads a length for the next field or reads a field of known length; and the grammar a list of steps accepts.
 */
module FieldParserModule {

  import opened Base
  import opened Buffers
  import opened Feeding

  datatype Kind = ReadN | LongRead

  datatype Check = NoCheck | CheckVersion | CheckIndex

  const USERPASS_VERSION: Byte := 1
  const VERSION_ERROR: Byte := 32
  const INDEX_NOT_SUPPORTED: Byte := 2
  const LAST_INDEX: Byte := 0x0D

  datatype Step = Step(kind: Kind, size: Byte, remaining: Byte, result: seq<Byte>, check: Check)

  datatype Phase = AtReadN | AtLongRead | DoneRead | ErrorRead

  datatype Parser = Parser(index: nat, current: Phase, steps: seq<Step>, error: Byte)

  function PhaseOf(kind: Kind): Phase {
    if kind == ReadN then AtReadN else AtLongRead
  }

  function Passes(check: Check, field: seq<Byte>): bool {
    match check
    case NoCheck => true
    case CheckVersion => |field| == 1 && field[0] == USERPASS_VERSION
    case CheckIndex => |field| > 0 && field[0] <= LAST_INDEX
  }

  function ErrorOf(check: Check): Byte {
    if check == CheckVersion then VERSION_ERROR else INDEX_NOT_SUPPORTED
  }

  /** Moves on to step `j`, or finishes. */
  function Goto(p: Parser, j: nat): Parser {
    p.(index := j, current := if j >= |p.steps| then DoneRead else PhaseOf(p.steps[j].kind))
  }

  function Feed(p: Parser, b: Byte): Parser {
    if p.current.DoneRead? || p.current.ErrorRead? || p.index >= |p.steps| then p
    else if p.current.AtReadN? then FeedLength(p, b)
    else FeedField(p, b)
  }

  function FeedLength(p: Parser, b: Byte): Parser
    requires p.index < |p.steps|
  {
    var j := p.index + 1;
    if j >= |p.steps| then p.(index := j, current := ErrorRead)
    else
      var sized := p.steps[j].(size := b, remaining := b, result := if b == 0 then [0] else []);
      var q := p.(steps := p.steps[j := sized]);
      if b == 0 then Goto(q, j + 1) else Goto(q, j)
  }

  function FeedField(p: Parser, b: Byte): Parser
    requires p.index < |p.steps|
  {
    var step := p.steps[p.index];
    var left := if step.remaining == 0 then 255 else step.remaining - 1;
    if left > 0 then
      p.(steps := p.steps[p.index := step.(result := step.result + [b], remaining := left)])
    else
      var field := step.result + [b];
      var q := p.(steps := p.steps[p.index := step.(result := field + [0], remaining := 0)]);
      if Passes(step.check, field) then Goto(q, p.index + 1)
      else q.(error := ErrorOf(step.check), current := ErrorRead)
  }

  /** `is_done`: success and failure both stop the consuming loop. */
  predicate Stops(p: Parser) {
    p.current == DoneRead || p.current == ErrorRead
  }

  // ----- Layouts -----

  /** What a message consists of: fields of fixed length, and fields preceded by their length in one byte. */
  datatype Field = Fixed(size: Byte, check: Check) | Prefixed {
    predicate Accepts(v: seq<Byte>) {
      if Prefixed? then |v| <= 255 else |v| == size as int && Passes(check, v)
    }

    function Encode(v: seq<Byte>): seq<Byte>
      requires Accepts(v)
    {
      if Prefixed? then [|v|] + v else v
    }

    /** The steps that read the field. */
    function Steps(): seq<Step> {
      if Prefixed? then [LENGTH, VARIABLE]
      else [Step(LongRead, size, size, [], check)]
    }

    /** The same steps once they have read `v`: the field is NUL-terminated. */
    function Filled(v: seq<Byte>): seq<Step>
      requires Accepts(v)
    {
      if Prefixed? then [LENGTH, Step(LongRead, |v|, 0, v + [0], NoCheck)]
      else [Step(LongRead, size, 0, v + [0], check)]
    }
  }

  const LENGTH := Step(ReadN, 0, 0, [], NoCheck)
  const VARIABLE := Step(LongRead, 0, 0, [], NoCheck)

  const PAIR: seq<Field> := [Prefixed, Prefixed]
  const AUTH_FIELDS: seq<Field> := [Fixed(1, CheckVersion), Prefixed, Prefixed]
  const ADD_USER_FIELDS: seq<Field> := PAIR
  const DELETE_USER_FIELDS: seq<Field> := [Prefixed]
  const INDEX_FIELDS: seq<Field> := [Fixed(1, CheckIndex)]
  const OPTION_FIELDS: seq<Field> := [Fixed(1, NoCheck)]

  predicate Positive(fields: seq<Field>) {
    forall f :: f in fields && f.Fixed? ==> f.size > 0
  }

  function Layout(fields: seq<Field>): seq<Step> {
    if fields == [] then [] else fields[0].Steps() + Layout(fields[1..])
  }

  predicate Accepted(fields: seq<Field>, vals: seq<seq<Byte>>) {
    |vals| == |fields| && forall k :: 0 <= k < |fields| ==> fields[k].Accepts(vals[k])
  }

  function Encode(fields: seq<Field>, vals: seq<seq<Byte>>): seq<Byte>
    requires Accepted(fields, vals)
  {
    if fields == [] then [] else fields[0].Encode(vals[0]) + Encode(fields[1..], vals[1..])
  }

  function Filled(fields: seq<Field>, vals: seq<seq<Byte>>): seq<Step>
    requires Accepted(fields, vals)
  {
    if fields == [] then [] else fields[0].Filled(vals[0]) + Filled(fields[1..], vals[1..])
  }

  /** The parser that has filled the steps `past` and is about to read the given fields. */
  function At(past: seq<Step>, fields: seq<Field>): Parser {
    Goto(Parser(|past|, DoneRead, past + Layout(fields), 0), |past|)
  }

  function Start(fields: seq<Field>): Parser {
    At([], fields)
  }

  // ----- Running a parser -----

  /** In the middle of a field: `step` is the current one. */
  function Mid(past: seq<Step>, step: Step, future: seq<Step>): Parser {
    Parser(|past|, AtLongRead, past + [step] + future, 0)
  }

  predicate Reading(step: Step) {
    step.kind == LongRead && step.remaining > 0
  }

  function Stored(step: Step, bs: seq<Byte>): Step
    requires |bs| <= step.remaining as int
  {
    step.(result := step.result + bs, remaining := step.remaining - |bs|)
  }

  lemma Replace(past: seq<Step>, step: Step, future: seq<Step>, step': Step)
    ensures (past + [step] + future)[|past| := step'] == past + [step'] + future
    ensures (past + [step] + future)[|past|] == step
  {
  }

  lemma {:induction false} ReadPart(past: seq<Step>, step: Step, future: seq<Step>, bs: seq<Byte>)
    requires Reading(step) && |bs| < step.remaining as int
    ensures Takes(Feed, Stops, Mid(past, step, future), bs, Mid(past, Stored(step, bs), future))
    decreases |bs|
  {
    if bs == [] {
      assert step.result + bs == step.result;
    } else {
      var next := Stored(step, [bs[0]]);
      Replace(past, step, future, next);
      assert Feed(Mid(past, step, future), bs[0]) == Mid(past, next, future);
      ReadPart(past, next, future, bs[1..]);
      assert step.result + [bs[0]] + bs[1..] == step.result + bs by {
        assert [bs[0]] + bs[1..] == bs;
      }
    }
  }

  /** The parser after the last byte of the field that `step` reads. */
  function AfterField(past: seq<Step>, step: Step, future: seq<Step>): Parser {
    var q := Mid(past, step.(result := step.result + [0], remaining := 0), future);
    if Passes(step.check, step.result) then Goto(q, |past| + 1)
    else q.(error := ErrorOf(step.check), current := ErrorRead)
  }

  lemma ReadLast(past: seq<Step>, step: Step, future: seq<Step>, last: Byte)
    requires Reading(step) && step.remaining == 1
    ensures Feed(Mid(past, step, future), last) == AfterField(past, Stored(step, [last]), future)
  {
    var next := Stored(step, [last]);
    Replace(past, step, future, next.(result := next.result + [0]));
  }

  lemma ReadWhole(past: seq<Step>, step: Step, future: seq<Step>, bs: seq<Byte>)
    requires Reading(step) && |bs| == step.remaining as int
    ensures Takes(Feed, Stops, Mid(past, step, future), bs, AfterField(past, Stored(step, bs), future))
  {
    var front, last := bs[..|bs| - 1], bs[|bs| - 1];
    var mid := Stored(step, front);
    assert front + [last] == bs;
    assert mid.result + [last] == step.result + bs;
    ReadPart(past, step, future, front);
    ReadLast(past, mid, future, last);
    TakesOne(Feed, Stops, Mid(past, mid, future), last);
    TakesBoth(Feed, Stops, Mid(past, step, future), front, Mid(past, mid, future), [last],
              AfterField(past, Stored(step, bs), future));
  }

  lemma LayoutHead(fields: seq<Field>)
    ensures Layout(fields) == [] <==> fields == []
    ensures Stops(At([], fields)) <==> fields == []
  {
  }

  lemma AfterFieldIsAt(past: seq<Step>, step: Step, fields: seq<Field>)
    requires Passes(step.check, step.result)
    ensures AfterField(past, step, Layout(fields)) == At(past + [step.(result := step.result + [0], remaining := 0)], fields)
  {
  }

  lemma FixedRun(past: seq<Step>, f: Field, fields: seq<Field>, v: seq<Byte>)
    requires f.Fixed? && f.Accepts(v) && f.size > 0
    ensures Takes(Feed, Stops, At(past, [f] + fields), v, At(past + f.Filled(v), fields))
  {
    var step := Step(LongRead, f.size, f.size, [], f.check);
    assert [] + v == v;
    assert ([f] + fields)[1..] == fields;
    assert At(past, [f] + fields) == Mid(past, step, Layout(fields)) by {
      assert past + (f.Steps() + Layout(fields)) == past + [step] + Layout(fields);
    }
    ReadWhole(past, step, Layout(fields), v);
    AfterFieldIsAt(past, Stored(step, v), fields);
  }

  /** The step for a field whose length has just arrived. */
  function Sized(n: Byte): Step {
    Step(LongRead, n, n, if n == 0 then [0] else [], NoCheck)
  }

  lemma LengthRun(past: seq<Step>, fields: seq<Field>, n: Byte)
    ensures var p := Feed(At(past, [Prefixed] + fields), n);
            p == if n == 0 then At(past + Prefixed.Filled([]), fields)
                 else Mid(past + [LENGTH], Sized(n), Layout(fields))
  {
    var future := Layout(fields);
    assert ([Prefixed] + fields)[1..] == fields;
    assert past + (Prefixed.Steps() + future) == past + [LENGTH] + [VARIABLE] + future;
    Replace(past + [LENGTH], VARIABLE, future, Sized(n));
    if n == 0 {
      assert [] + [0] == Sized(n).result;
      assert past + Prefixed.Filled([]) == past + [LENGTH] + [Sized(n)];
    }
  }

  lemma PrefixedRun(past: seq<Step>, fields: seq<Field>, v: seq<Byte>)
    requires |v| <= 255
    ensures Takes(Feed, Stops, At(past, [Prefixed] + fields), [|v|] + v, At(past + Prefixed.Filled(v), fields))
  {
    LengthRun(past, fields, |v|);
    TakesOne(Feed, Stops, At(past, [Prefixed] + fields), |v|);
    if v == [] {
      assert [|v|] + v == [|v|];
    } else {
      var mid := Mid(past + [LENGTH], Sized(|v|), Layout(fields));
      assert [] + v == v;
      ReadWhole(past + [LENGTH], Sized(|v|), Layout(fields), v);
      AfterFieldIsAt(past + [LENGTH], Stored(Sized(|v|), v), fields);
      assert past + [LENGTH] + [Step(LongRead, |v|, 0, v + [0], NoCheck)] == past + Prefixed.Filled(v);
      TakesBoth(Feed, Stops, At(past, [Prefixed] + fields), [|v|], mid, v, At(past + Prefixed.Filled(v), fields));
    }
  }

  /** One field, of either form. */
  lemma FieldRun(past: seq<Step>, f: Field, fields: seq<Field>, v: seq<Byte>)
    requires f.Accepts(v) && (f.Fixed? ==> f.size > 0)
    ensures Takes(Feed, Stops, At(past, [f] + fields), f.Encode(v), At(past + f.Filled(v), fields))
    ensures fields != [] ==> !Stops(At(past + f.Filled(v), fields))
  {
    if f.Fixed? {
      FixedRun(past, f, fields, v);
    } else {
      PrefixedRun(past, fields, v);
    }
    LayoutHead(fields);
  }

  /**
   Completeness for every layout: an accepted message is parsed by exactly its own bytes, and every field ends
   up NUL-terminated in its step.
   */
  lemma {:induction false} EncodedRun(past: seq<Step>, fields: seq<Field>, vals: seq<seq<Byte>>)
    requires fields != [] && Positive(fields) && Accepted(fields, vals)
    ensures Takes(Feed, Stops, At(past, fields), Encode(fields, vals), At(past + Filled(fields, vals), []))
    decreases |fields|
  {
    var f, tail := fields[0], fields[1..];
    var next := past + f.Filled(vals[0]);
    assert fields == [f] + tail;
    FieldRun(past, f, tail, vals[0]);
    if tail == [] {
      assert Encode(fields, vals) == f.Encode(vals[0]);
      assert past + Filled(fields, vals) == next;
    } else {
      EncodedRun(next, tail, vals[1..]);
      TakesBoth(Feed, Stops, At(past, fields), f.Encode(vals[0]), At(next, tail), Encode(tail, vals[1..]),
                At(next + Filled(tail, vals[1..]), []));
      assert next + Filled(tail, vals[1..]) == past + Filled(fields, vals);
    }
  }

  /** The first field of a message that the parser, given `s`, got through. */
  lemma FirstField(past: seq<Step>, f: Field, fields: seq<Field>, s: seq<Byte>) returns (v: seq<Byte>)
    requires f.Fixed? ==> f.size > 0
    requires Consume(Feed, Stops, At(past, [f] + fields), s).0.current == DoneRead
    ensures f.Accepts(v) && f.Encode(v) <= s
  {
    var future := Layout(fields);
    assert ([f] + fields)[1..] == fields;
    if f.Fixed? {
      var step := Step(LongRead, f.size, f.size, [], f.check);
      assert At(past, [f] + fields) == Mid(past, step, future) by {
        assert past + (f.Steps() + future) == past + [step] + future;
      }
      if |s| < f.size as int {
        ReadPart(past, step, future, s);
        assert false;
      }
      v := s[..f.size];
      assert [] + v == v && s == v + s[f.size..];
      ReadWhole(past, step, future, v);
      ConsumeConcat(Feed, Stops, Mid(past, step, future), v, s[f.size..]);
    } else {
      assert s != [];
      var n := s[0];
      assert s == [n] + s[1..];
      LengthRun(past, fields, n);
      if |s| <= n as int {
        ReadPart(past + [LENGTH], Sized(n), future, s[1..]);
        assert false;
      }
      v := s[1..][..n];
    }
  }

  /** A message, one field longer at the front. */
  lemma FieldInFront(f: Field, tail: seq<Field>, v: seq<Byte>, vals: seq<seq<Byte>>)
    requires f.Accepts(v) && Accepted(tail, vals)
    ensures Accepted([f] + tail, [v] + vals)
    ensures Encode([f] + tail, [v] + vals) == f.Encode(v) + Encode(tail, vals)
    ensures Filled([f] + tail, [v] + vals) == f.Filled(v) + Filled(tail, vals)
  {
    assert ([f] + tail)[1..] == tail && ([v] + vals)[1..] == vals;
  }

  /** Behind its first field, the parser reads the rest of the stream with the rest of the layout. */
  lemma FieldPassed(past: seq<Step>, f: Field, tail: seq<Field>, v: seq<Byte>, rest: seq<Byte>)
    requires f.Accepts(v) && (f.Fixed? ==> f.size > 0) && tail != []
    ensures Consume(Feed, Stops, At(past, [f] + tail), f.Encode(v) + rest).0
            == Consume(Feed, Stops, At(past + f.Filled(v), tail), rest).0
  {
    FieldRun(past, f, tail, v);
    ConsumeConcat(Feed, Stops, At(past, [f] + tail), f.Encode(v), rest);
  }

  lemma FirstFieldPassed(past: seq<Step>, f: Field, tail: seq<Field>, s: seq<Byte>) returns (v: seq<Byte>, rest: seq<Byte>)
    requires f.Fixed? ==> f.size > 0
    requires Consume(Feed, Stops, At(past, [f] + tail), s).0.current == DoneRead
    ensures f.Accepts(v) && s == f.Encode(v) + rest
    ensures tail != [] ==> Consume(Feed, Stops, At(past + f.Filled(v), tail), rest).0.current == DoneRead
  {
    v := FirstField(past, f, tail, s);
    rest := s[|f.Encode(v)|..];
    if tail != [] {
      FieldPassed(past, f, tail, v, rest);
    }
  }

  /** Soundness for every layout: a parser that finishes has been given an accepted message. */
  lemma {:induction false} FinishedRun(past: seq<Step>, fields: seq<Field>, s: seq<Byte>) returns (vals: seq<seq<Byte>>)
    requires fields != [] && Positive(fields)
    requires Consume(Feed, Stops, At(past, fields), s).0.current == DoneRead
    ensures Accepted(fields, vals) && Encode(fields, vals) <= s
    decreases |fields|
  {
    var f, tail := fields[0], fields[1..];
    assert fields == [f] + tail && f in fields;
    var v, rest := FirstFieldPassed(past, f, tail, s);
    var more := [];
    if tail != [] {
      more := FinishedRun(past + f.Filled(v), tail, rest);
    }
    vals := [v] + more;
    MessageInFront(f, tail, v, more, rest);
  }

  lemma MessageInFront(f: Field, tail: seq<Field>, v: seq<Byte>, vals: seq<seq<Byte>>, rest: seq<Byte>)
    requires f.Accepts(v) && Accepted(tail, vals) && Encode(tail, vals) <= rest
    ensures Accepted([f] + tail, [v] + vals) && Encode([f] + tail, [v] + vals) <= f.Encode(v) + rest
  {
    FieldInFront(f, tail, v, vals);
  }

  /**
   The parser refines the grammar of its layout: it finishes exactly on the streams that start with an accepted
   message.
   */
  lemma DoneIffMessage(fields: seq<Field>, s: seq<Byte>)
    requires fields != [] && Positive(fields)
    ensures Consume(Feed, Stops, Start(fields), s).0.current == DoneRead
            <==> exists vals :: Accepted(fields, vals) && Encode(fields, vals) <= s
  {
    if Consume(Feed, Stops, Start(fields), s).0.current == DoneRead {
      var vals := FinishedRun([], fields, s);
    }
    forall vals | Accepted(fields, vals) && Encode(fields, vals) <= s
      ensures Consume(Feed, Stops, Start(fields), s).0.current == DoneRead
    {
      MessageTaken(fields, vals, s);
    }
  }

  lemma MessageTaken(fields: seq<Field>, vals: seq<seq<Byte>>, s: seq<Byte>)
    requires fields != [] && Positive(fields) && Accepted(fields, vals) && Encode(fields, vals) <= s
    ensures Consume(Feed, Stops, Start(fields), s) == (At(Filled(fields, vals), []), |Encode(fields, vals)|)
  {
    var e := Encode(fields, vals);
    assert s == e + s[|e|..];
    EncodedRun([], fields, vals);
    assert [] + Filled(fields, vals) == Filled(fields, vals);
    assert e != [] by {
      assert fields[0] in fields;
    }
    ConsumeConcat(Feed, Stops, Start(fields), e, s[|e|..]);
  }

  /** A finished parser has taken a message, and holds its fields. */
  lemma FinishedMessage(fields: seq<Field>, s: seq<Byte>) returns (vals: seq<seq<Byte>>)
    requires fields != [] && Positive(fields)
    requires Consume(Feed, Stops, Start(fields), s).0.current == DoneRead
    ensures Accepted(fields, vals) && Encode(fields, vals) <= s
    ensures Consume(Feed, Stops, Start(fields), s) == (At(Filled(fields, vals), []), |Encode(fields, vals)|)
  {
    vals := FinishedRun([], fields, s);
    MessageTaken(fields, vals, s);
  }

  /** However a message arrives, its stage takes exactly its bytes and leaves the rest in the buffer. */
  lemma MessageTakenExactly(fields: seq<Field>, vals: seq<seq<Byte>>, chunks: seq<seq<Byte>>)
    requires fields != [] && Positive(fields) && Accepted(fields, vals) && Encode(fields, vals) <= Flatten(chunks)
    ensures ConsumeChunks(Feed, Stops, Start(fields), chunks)
            == (At(Filled(fields, vals), []), |Encode(fields, vals)|)
  {
    ChunkingIrrelevant(Feed, Stops, Start(fields), chunks);
    MessageTaken(fields, vals, Flatten(chunks));
  }

  // ----- The credentials message (RFC 1929 section 2) -----

  function EncodeCredentials(user: seq<Byte>, pass: seq<Byte>): seq<Byte>
    requires |user| <= 255 && |pass| <= 255
  {
    [USERPASS_VERSION, |user|] + user + [|pass|] + pass
  }

  const VERSION_READ := Step(LongRead, 1, 0, [USERPASS_VERSION, 0], CheckVersion)

  /** A message of two fields that are preceded by their lengths. */
  lemma PairIsFields(user: seq<Byte>, pass: seq<Byte>)
    requires |user| <= 255 && |pass| <= 255
    ensures Accepted(PAIR, [user, pass])
    ensures Encode(PAIR, [user, pass]) == [|user|] + user + [|pass|] + pass
    ensures Filled(PAIR, [user, pass]) ==
            [LENGTH, Step(LongRead, |user|, 0, user + [0], NoCheck), LENGTH, Step(LongRead, |pass|, 0, pass + [0], NoCheck)]
  {
    FieldInFront(Prefixed, [], pass, []);
    FieldInFront(Prefixed, [Prefixed], user, [pass]);
    assert PAIR == [Prefixed] + [Prefixed] && [user] + [pass] == [user, pass];
    assert [Prefixed] + [] == [Prefixed] && [pass] + [] == [pass];
  }

  lemma CredentialsAreFields(user: seq<Byte>, pass: seq<Byte>)
    requires |user| <= 255 && |pass| <= 255
    ensures Accepted(AUTH_FIELDS, [[USERPASS_VERSION], user, pass])
    ensures Encode(AUTH_FIELDS, [[USERPASS_VERSION], user, pass]) == EncodeCredentials(user, pass)
    ensures Filled(AUTH_FIELDS, [[USERPASS_VERSION], user, pass]) ==
            [Step(LongRead, 1, 0, [USERPASS_VERSION, 0], CheckVersion),
             LENGTH, Step(LongRead, |user|, 0, user + [0], NoCheck),
             LENGTH, Step(LongRead, |pass|, 0, pass + [0], NoCheck)]
  {
    PairIsFields(user, pass);
    var f := Fixed(1, CheckVersion);
    FieldInFront(f, PAIR, [USERPASS_VERSION], [user, pass]);
    assert [f] + PAIR == AUTH_FIELDS && [[USERPASS_VERSION]] + [user, pass] == [[USERPASS_VERSION], user, pass];
    VersionFilled();
    VersionInFront([|user|] + user + [|pass|] + pass, user, pass);
  }

  lemma VersionFilled()
    ensures Fixed(1, CheckVersion).Filled([USERPASS_VERSION]) == [VERSION_READ]
  {
    assert [USERPASS_VERSION] + [0] == [USERPASS_VERSION, 0];
  }

  lemma VersionInFront(m: seq<Byte>, user: seq<Byte>, pass: seq<Byte>)
    requires |user| <= 255 && |pass| <= 255 && m == [|user|] + user + [|pass|] + pass
    ensures [USERPASS_VERSION] + m == EncodeCredentials(user, pass)
  {
  }

  /** Reading fields that only announce their lengths cannot fail. */
  lemma {:induction false} PrefixedNeverFails(past: seq<Step>, fields: seq<Field>, s: seq<Byte>)
    requires fields != [] && forall f :: f in fields ==> f == Prefixed
    ensures Consume(Feed, Stops, At(past, fields), s).0.current != ErrorRead
    decreases |fields|
  {
    if s != [] {
      var n, tail := s[0], fields[1..];
      assert fields[0] in fields && fields == [Prefixed] + tail;
      LengthRun(past, tail, n);
      assert s == [n] + s[1..];
      if |s| <= n as int {
        ReadPart(past + [LENGTH], Sized(n), Layout(tail), s[1..]);
      } else {
        var v, rest := s[1..][..n], s[1..][n..];
        assert s == Prefixed.Encode(v) + rest;
        if tail != [] {
          FieldPassed(past, Prefixed, tail, v, rest);
          assert forall f :: f in tail ==> f in fields;
          PrefixedNeverFails(past + Prefixed.Filled(v), tail, rest);
        } else {
          PrefixedRun(past, tail, v);
          ConsumeConcat(Feed, Stops, At(past, fields), Prefixed.Encode(v), rest);
        }
      }
    }
  }

  /** The version byte decides whether the credentials are read at all. */
  lemma VersionFirst(s: seq<Byte>)
    requires s != []
    ensures if s[0] == USERPASS_VERSION then
              Consume(Feed, Stops, Start(AUTH_FIELDS), s).0 == Consume(Feed, Stops, At([VERSION_READ], PAIR), s[1..]).0
            else
              var (p, n) := Consume(Feed, Stops, Start(AUTH_FIELDS), s);
              p.current == ErrorRead && n == 1 && |p.steps| == 5 && p.steps[2] == VARIABLE && p.steps[4] == VARIABLE
  {
    assert AUTH_FIELDS == [Fixed(1, CheckVersion)] + PAIR && s == [s[0]] + s[1..];
    if s[0] == USERPASS_VERSION {
      VersionFilled();
      assert [] + [VERSION_READ] == [VERSION_READ];
      FieldPassed([], Fixed(1, CheckVersion), PAIR, [s[0]], s[1..]);
    } else {
      var start := Start(AUTH_FIELDS);
      assert PAIR[1..] == [Prefixed];
      assert Layout(PAIR) == [LENGTH, VARIABLE, LENGTH, VARIABLE];
      assert start.steps == [Step(LongRead, 1, 1, [], CheckVersion), LENGTH, VARIABLE, LENGTH, VARIABLE];
      assert Stops(Feed(start, s[0]));
    }
  }

  /**
   When the parser has stopped, the two strings that `auth_process` looks up have been stored if and only if the
   message started with the right version.
   */
  lemma CredentialsSetIffVersion(s: seq<Byte>)
    ensures var (p, n) := Consume(Feed, Stops, Start(AUTH_FIELDS), s);
            Stops(p) ==>
              && s != [] && |p.steps| == 5
              && (p.current == DoneRead <==> s[0] == USERPASS_VERSION)
              && (p.steps[2].result != [] <==> s[0] == USERPASS_VERSION)
              && (p.steps[4].result != [] <==> s[0] == USERPASS_VERSION)
  {
    if s != [] {
      VersionFirst(s);
      if s[0] == USERPASS_VERSION && Stops(Consume(Feed, Stops, Start(AUTH_FIELDS), s).0) {
        PrefixedNeverFails([VERSION_READ], PAIR, s[1..]);
        var user, pass := FinishedCredentials(s);
      }
    }
  }

  lemma CredentialsTaken(user: seq<Byte>, pass: seq<Byte>, s: seq<Byte>)
    requires |user| <= 255 && |pass| <= 255 && EncodeCredentials(user, pass) <= s
    ensures var (p, n) := Consume(Feed, Stops, Start(AUTH_FIELDS), s);
            && p.current == DoneRead && n == 3 + |user| + |pass|
            && |p.steps| == 5 && p.steps[2].result == user + [0] && p.steps[4].result == pass + [0]
  {
    CredentialsAreFields(user, pass);
    MessageTaken(AUTH_FIELDS, [[USERPASS_VERSION], user, pass], s);
  }

  /** Where the consuming loop ends on a credentials message, said of the bytes it is given. */
  lemma CredentialsStopIff(s: seq<Byte>)
    ensures var p := Consume(Feed, Stops, Start(AUTH_FIELDS), s).0;
            && (p.current == DoneRead <==>
                  exists u: seq<Byte>, v: seq<Byte> :: |u| <= 255 && |v| <= 255 && EncodeCredentials(u, v) <= s)
            && (p.current == ErrorRead <==> s != [] && s[0] != 1)
  {
    var p := Consume(Feed, Stops, Start(AUTH_FIELDS), s).0;
    if p.current == DoneRead {
      var user, pass := FinishedCredentials(s);
    }
    forall u: seq<Byte>, v: seq<Byte> | |u| <= 255 && |v| <= 255 && EncodeCredentials(u, v) <= s
      ensures p.current == DoneRead
    {
      CredentialsTaken(u, v, s);
    }
    CredentialsSetIffVersion(s);
    if s != [] {
      VersionFirst(s);
    }
  }

  /** The management request starts with one byte that names it; anything above the last one is refused. */
  lemma IndexIsChecked(s: seq<Byte>)
    ensures var (p, n) := Consume(Feed, Stops, Start(INDEX_FIELDS), s);
            && (s == [] ==> !Stops(p))
            && |p.steps| == 1
            && (s != [] ==> n == 1 && p.steps[0].result == [s[0], 0])
            && (p.current == DoneRead <==> s != [] && s[0] <= LAST_INDEX)
            && (p.current == ErrorRead <==> s != [] && s[0] > LAST_INDEX)
            && (p.current == ErrorRead ==> p.error == INDEX_NOT_SUPPORTED)
  {
    var start := Start(INDEX_FIELDS);
    assert start == Parser(0, AtLongRead, [Step(LongRead, 1, 1, [], CheckIndex)], 0);
    if s != [] {
      assert [] + [s[0]] + [0] == [s[0], 0];
      assert Stops(Feed(start, s[0]));
    }
  }

  /** The pair of C strings that the parser leaves behind are those of the message it took. */
  lemma FinishedCredentials(s: seq<Byte>) returns (user: seq<Byte>, pass: seq<Byte>)
    requires Consume(Feed, Stops, Start(AUTH_FIELDS), s).0.current == DoneRead
    ensures |user| <= 255 && |pass| <= 255 && EncodeCredentials(user, pass) <= s
    ensures var (p, n) := Consume(Feed, Stops, Start(AUTH_FIELDS), s);
            && n == 3 + |user| + |pass|
            && |p.steps| == 5 && p.steps[2].result == user + [0] && p.steps[4].result == pass + [0]
  {
    var vals := FinishedRun([], AUTH_FIELDS, s);
    assert AUTH_FIELDS[0].Accepts(vals[0]) && AUTH_FIELDS[1].Accepts(vals[1]) && AUTH_FIELDS[2].Accepts(vals[2]);
    user, pass := vals[1], vals[2];
    assert vals[0] == [USERPASS_VERSION];
    assert vals == [[USERPASS_VERSION], user, pass];
    CredentialsAreFields(user, pass);
    CredentialsTaken(user, pass, s);
  }

  // ----- The parser as the stages hold it -----

  class FieldParser {
    var index: nat
    var current: Phase
    var error: Byte
    const steps: array<Step>

    ghost function View(): Parser
      reads this, steps
    {
      Parser(index, current, steps[..], error)
    }

    constructor (layout: seq<Step>)
      ensures View() == Goto(Parser(0, DoneRead, layout, 0), 0) && fresh(steps)
    {
      steps := new Step[|layout|](i requires 0 <= i < |layout| => layout[i]);
      index, error := 0, 0;
      current := if layout == [] then DoneRead else PhaseOf(layout[0].kind);
      new;
      assert steps[..] == layout;
    }

    /** Leaves step `j - 1` behind. */
    method Enter(j: nat)
      modifies this`index, this`current
      ensures View() == Goto(old(View()), j)
    {
      index := j;
      if index >= steps.Length {
        current := DoneRead;
      } else {
        current := PhaseOf(steps[index].kind);
      }
    }

    method FeedByte(b: Byte) returns (st: Phase)
      modifies this, steps
      ensures View() == Feed(old(View()), b) && st == current
    {
      if current == AtReadN && index < steps.Length {
        index := index + 1;
        if index >= steps.Length {
          current := ErrorRead;
        } else {
          steps[index] := steps[index].(size := b, remaining := b, result := if b == 0 then [0] else []);
          assert steps[..] == old(steps[..])[index := steps[index]];
          Enter(if b == 0 then index + 1 else index);
        }
      } else if current == AtLongRead && index < steps.Length {
        var step := steps[index];
        var field := step.result + [b];
        var left := if step.remaining == 0 then 255 else step.remaining - 1;
        steps[index] := step.(result := if left == 0 then field + [0] else field, remaining := left);
        assert steps[..] == old(steps[..])[index := steps[index]];
        if left == 0 {
          if Passes(step.check, field) {
            Enter(index + 1);
          } else {
            error := ErrorOf(step.check);
            current := ErrorRead;
          }
        }
      }
      st := current;
    }

    /** One turn of the consuming loop. */
    method TakeByte(b: Buffer) returns (st: Phase)
      requires b.Valid() && b.View().CanRead()
      modifies this, steps, b, b.data
      ensures b.Valid() && st == current
      ensures View() == Feed(old(View()), old(b.View()).bytes[0])
      ensures b.View() == old(b.View()).Advance(1)
    {
      ghost var p := View();
      var byte := b.ReadByte();
      assert View() == p;
      st := FeedByte(byte);
    }

    /** `consume`. */
    method ConsumeFrom(b: Buffer) returns (st: Phase)
      requires b.Valid()
      modifies this, steps, b, b.data
      ensures b.Valid() && st == current
      ensures var (p, n) := Consume(Feed, Stops, old(View()), old(b.View()).bytes);
              View() == p && b.View() == old(b.View()).Advance(n)
    {
      var finished := false;
      ghost var start, was, k := View(), b.View(), 0;
      DrainingStarts(Feed, Stops, start, was);
      var more := b.CanRead();
      while more && !finished
        invariant b.Valid() && more == b.View().CanRead()
        invariant Draining(Feed, Stops, start, was, View(), b.View(), k, finished)
        decreases |was.bytes| - k
      {
        DrainingStep(Feed, Stops, start, was, View(), b.View(), k);
        st := TakeByte(b);
        finished := st == DoneRead || st == ErrorRead;
        k := k + 1;
        more := b.CanRead();
      }
      DrainingEnds(Feed, Stops, start, was, View(), b.View(), k, finished);
      st := current;
    }
  }
}
