/**
 The password dissector: watches a relayed stream for a POP3 login, "user NAME" answered by "+OK" and
 followed by "pass WORD", with lines ended by LF or CR LF.
 */
module DissectorModule {

  import opened Base
  import opened Feeding

  /** "user " and "+OK\r\npass ". */
  const USER_WORD: seq<Byte> := [0x75, 0x73, 0x65, 0x72, 0x20]
  const PASS_WORD: seq<Byte> := [0x2B, 0x4F, 0x4B, 0x0D, 0x0A, 0x70, 0x61, 0x73, 0x73, 0x20]
  const CR: Byte := 0x0D
  const LF: Byte := 0x0A

  datatype Mode = UserSearch | UserRead | PassSearch | PassRead

  /**
   `matched` counts the bytes of the searched word, `user` and `pass` are the stored characters, and `last`
   says that a CR has been read. `found` lists the reported pairs.
   */
  datatype Dissector = Dissector(
    mode: Mode, matched: nat, last: bool, user: seq<Byte>, pass: seq<Byte>, found: seq<(seq<Byte>, seq<Byte>)>)

  const INITIAL := Dissector(UserSearch, 0, false, [], [], [])

  const MAX_NAME := 254

  predicate IsAscii(b: Byte) {
    b <= 127
  }

  /** Starts searching again, with `b` as the first byte of the search. */
  function Restart(d: Dissector, b: Byte): Dissector {
    Dissector(UserSearch, if b == USER_WORD[0] then 1 else 0, false, [], [], d.found)
  }

  datatype Line = Rejected | Pending(text: seq<Byte>, cr: bool) | Complete

  /** What a byte does to a line that is being collected. */
  function Collect(text: seq<Byte>, cr: bool, b: Byte): Line {
    if |text| >= 255 then Rejected
    else if cr && b != LF then Rejected
    else if b == CR then Pending(text, true)
    else if b == LF then Complete
    else if IsAscii(b) then Pending(text + [b], cr)
    else Rejected
  }

  function Feed(d: Dissector, b: Byte): Dissector {
    match d.mode
    case UserSearch =>
      if d.matched < 5 && USER_WORD[d.matched] == b then
        if d.matched + 1 == 5 then d.(mode := UserRead, matched := 0) else d.(matched := d.matched + 1)
      else Restart(d, b)
    case UserRead =>
      (match Collect(d.user, d.last, b)
       case Rejected => Restart(d, b)
       case Pending(text, cr) => d.(user := text, last := cr)
       case Complete => d.(mode := PassSearch, last := false))
    case PassSearch =>
      if d.matched < 10 && PASS_WORD[d.matched] == b then
        if d.matched + 1 == 10 then d.(mode := PassRead, matched := 0) else d.(matched := d.matched + 1)
      else Restart(d, b)
    case PassRead =>
      (match Collect(d.pass, d.last, b)
       case Rejected => Restart(d, b)
       case Pending(text, cr) => d.(pass := text, last := cr)
       case Complete => Restart(d, b).(found := d.found + [(d.user, d.pass)]))
  }

  /** `dissec_consume` never stops early, so feeding is all there is. */
  function Dissect(s: seq<Byte>): Dissector {
    FeedAll(Feed, INITIAL, s)
  }

  // ----- The searched text -----

  predicate IsText(t: seq<Byte>) {
    |t| <= MAX_NAME && forall b :: b in t ==> IsAscii(b) && b != CR && b != LF
  }

  function Eol(cr: bool): seq<Byte> {
    if cr then [CR, LF] else [LF]
  }

  function UserLine(user: seq<Byte>, cr: bool): seq<Byte> {
    USER_WORD + user + Eol(cr)
  }

  /** A complete login, with either line ending on each of its two lines. */
  function Login(user: seq<Byte>, cr1: bool, pass: seq<Byte>, cr2: bool): seq<Byte> {
    UserLine(user, cr1) + PASS_WORD + pass + Eol(cr2)
  }

  predicate EndsWith(s: seq<Byte>, t: seq<Byte>) {
    |t| <= |s| && s[|s| - |t|..] == t
  }

  /** The longest suffix of `s` that is a prefix of "user " has length `m`, which is less than 5. */
  ghost predicate LongestPartial(s: seq<Byte>, m: nat) {
    && m < 5
    && EndsWith(s, USER_WORD[..m])
    && forall k :: m < k <= 5 ==> !EndsWith(s, USER_WORD[..k])
  }

  /** Where the current search began: at the byte that ended the previous attempt. */
  function SearchStart(s: seq<Byte>): (k: nat)
    ensures k <= |s|
    decreases |s|
  {
    if s == [] then 0
    else
      var before := s[..|s| - 1];
      if Dissect(before).mode != UserSearch && Dissect(s).mode == UserSearch then |s| - 1 else SearchStart(before)
  }

  predicate Contains(s: seq<Byte>, t: seq<Byte>) {
    exists k :: 0 <= k <= |s| && EndsWith(s[..k], t)
  }

  lemma EndsWithSnoc(s: seq<Byte>, b: Byte, t: seq<Byte>, c: Byte)
    ensures EndsWith(s + [b], t + [c]) <==> EndsWith(s, t) && b == c
  {
    if |t| <= |s| {
      assert (s + [b])[|s| - |t|..] == s[|s| - |t|..] + [b];
      if EndsWith(s + [b], t + [c]) {
        assert (s[|s| - |t|..] + [b])[..|t|] == (t + [c])[..|t|];
      }
    }
  }

  lemma PrefixSnoc(k: nat)
    requires k < 5
    ensures USER_WORD[..k + 1] == USER_WORD[..k] + [USER_WORD[k]]
  {
  }

  /** The letters of "user " are distinct, so its prefixes overlap nowhere. */
  lemma OnlyPartial(w: seq<Byte>, m: nat, k: nat)
    requires m <= 5 && k <= 5 && EndsWith(w, USER_WORD[..m]) && EndsWith(w, USER_WORD[..k])
    ensures k == 0 || m == 0 || k == m
  {
    if k > 0 && m > 0 {
      assert w[|w| - k..][k - 1] == w[|w| - 1] == w[|w| - m..][m - 1];
    }
  }

  /** Which prefixes of "user " a stream ends with after one more byte. */
  lemma PartialStep(w: seq<Byte>, m: nat, b: Byte, k: nat)
    requires LongestPartial(w, m) && 1 <= k <= 5
    ensures EndsWith(w + [b], USER_WORD[..k]) <==> b == USER_WORD[k - 1] && (k == 1 || k == m + 1)
  {
    PrefixSnoc(k - 1);
    EndsWithSnoc(w, b, USER_WORD[..k - 1], USER_WORD[k - 1]);
    if EndsWith(w, USER_WORD[..k - 1]) && k > 1 {
      OnlyPartial(w, m, k - 1);
    }
    assert USER_WORD[..0] == [];
  }

  function NextMatched(m: nat, b: Byte): nat
    requires m < 5
  {
    if b == USER_WORD[m] then m + 1 else if b == USER_WORD[0] then 1 else 0
  }

  /** The restart rule of the search is exact. */
  lemma SearchStep(w: seq<Byte>, m: nat, b: Byte)
    requires LongestPartial(w, m)
    ensures EndsWith(w + [b], USER_WORD) <==> NextMatched(m, b) == 5
    ensures NextMatched(m, b) < 5 ==> LongestPartial(w + [b], NextMatched(m, b))
  {
    forall k: nat | 1 <= k <= 5
      ensures EndsWith(w + [b], USER_WORD[..k]) <==> b == USER_WORD[k - 1] && (k == 1 || k == m + 1)
    {
      PartialStep(w, m, b, k);
    }
    assert USER_WORD[..5] == USER_WORD;
    assert USER_WORD[..0] == [] && EndsWith(w + [b], []);
  }

  lemma DissectSnoc(s: seq<Byte>, b: Byte)
    ensures Dissect(s + [b]) == Feed(Dissect(s), b)
  {
    FeedAllSnoc(Feed, INITIAL, s, b);
  }

  /** `w`, read since the search began, ends with exactly `m` bytes of "user " and does not contain the word. */
  ghost predicate ExactSearch(w: seq<Byte>, m: nat) {
    LongestPartial(w, m) && !Contains(w, USER_WORD)
  }

  lemma SearchStartSnoc(t: seq<Byte>, b: Byte)
    ensures SearchStart(t + [b]) ==
            if Dissect(t).mode != UserSearch && Dissect(t + [b]).mode == UserSearch then |t| else SearchStart(t)
  {
    assert (t + [b])[..|t|] == t;
  }

  /**
   While searching, the matched count is the length of the longest suffix read since the search began that is
   a prefix of "user ", and "user " has not occurred since then: the restart rule misses nothing.
   */
  lemma {:induction false} SearchIsExact(s: seq<Byte>)
    requires Dissect(s).mode == UserSearch
    ensures ExactSearch(s[SearchStart(s)..], Dissect(s).matched)
    decreases |s|
  {
    if s == [] {
    } else {
      var t, b := s[..|s| - 1], s[|s| - 1];
      assert s == t + [b];
      DissectSnoc(t, b);
      SearchStartSnoc(t, b);
      if Dissect(t).mode == UserSearch {
        SearchIsExact(t);
        assert s[SearchStart(s)..] == t[SearchStart(t)..] + [b];
        SearchContinues(t[SearchStart(t)..], Dissect(t), b);
      } else {
        assert s[SearchStart(s)..] == [b];
        SearchRestarts(Dissect(t), b);
      }
    }
  }

  lemma FreshSearch(b: Byte)
    ensures ExactSearch([b], if b == USER_WORD[0] then 1 else 0)
  {
    assert USER_WORD[..0] == [] && [] + [b] == [b];
    SearchStep([], 0, b);
    NoOccurrenceStep([], b);
  }

  lemma SearchRestarts(d: Dissector, b: Byte)
    requires d.mode != UserSearch && Feed(d, b).mode == UserSearch
    ensures ExactSearch([b], Feed(d, b).matched)
  {
    FreshSearch(b);
  }

  lemma SearchContinues(v: seq<Byte>, d: Dissector, b: Byte)
    requires d.mode == UserSearch && ExactSearch(v, d.matched)
    ensures Feed(d, b).mode == UserSearch ==> ExactSearch(v + [b], Feed(d, b).matched)
    ensures Feed(d, b).mode == UserSearch || Feed(d, b).mode == UserRead
    ensures Feed(d, b).mode == UserRead ==> EndsWith(v + [b], USER_WORD)
  {
    SearchStep(v, d.matched, b);
    if Feed(d, b).mode == UserSearch {
      assert Feed(d, b).matched == NextMatched(d.matched, b);
      NoOccurrenceStep(v, b);
    }
  }

  lemma NoOccurrenceStep(v: seq<Byte>, b: Byte)
    requires !Contains(v, USER_WORD) && !EndsWith(v + [b], USER_WORD)
    ensures !Contains(v + [b], USER_WORD)
  {
    forall k | 0 <= k <= |v + [b]|
      ensures !EndsWith((v + [b])[..k], USER_WORD)
    {
      if k <= |v| {
        assert (v + [b])[..k] == v[..k];
      } else {
        assert (v + [b])[..k] == v + [b];
      }
    }
  }

  // ----- Soundness -----

  predicate IsCollected(t: seq<Byte>) {
    |t| <= 255 && forall b :: b in t ==> IsAscii(b) && b != CR && b != LF
  }

  function Tail(cr: bool): seq<Byte> {
    if cr then [CR] else []
  }

  /** What the stream read so far ends with, in each mode that collects something. */
  ghost predicate Explains(d: Dissector, s: seq<Byte>) {
    match d.mode
    case UserSearch => d.matched < 5 && d.user == [] && d.pass == [] && !d.last
    case UserRead => d.matched == 0 && d.pass == [] && IsCollected(d.user) && EndsWith(s, USER_WORD + d.user + Tail(d.last))
    case PassSearch =>
      && IsText(d.user) && d.matched < 10 && d.pass == [] && !d.last
      && exists cr :: EndsWith(s, UserLine(d.user, cr) + PASS_WORD[..d.matched])
    case PassRead =>
      && d.matched == 0 && IsText(d.user) && IsCollected(d.pass)
      && exists cr :: EndsWith(s, UserLine(d.user, cr) + PASS_WORD + d.pass + Tail(d.last))
  }

  lemma CollectStep(prefix: seq<Byte>, text: seq<Byte>, cr: bool, s: seq<Byte>, b: Byte)
    requires IsCollected(text) && EndsWith(s, prefix + text + Tail(cr))
    ensures match Collect(text, cr, b)
            case Rejected => true
            case Pending(text', cr') => IsCollected(text') && EndsWith(s + [b], prefix + text' + Tail(cr'))
            case Complete => IsText(text) && EndsWith(s + [b], prefix + text + Eol(cr))
  {
    EndsWithSnoc(s, b, prefix + text + Tail(cr), b);
    match Collect(text, cr, b)
    case Rejected =>
    case Pending(text', cr') =>
      if b == CR {
        assert prefix + text' + Tail(cr') == prefix + text + Tail(cr) + [b];
      } else {
        assert prefix + text' + Tail(cr') == prefix + text + Tail(cr) + [b];
      }
    case Complete =>
      assert prefix + text + Eol(cr) == prefix + text + Tail(cr) + [b];
  }

  lemma {:induction false} Explained(s: seq<Byte>)
    ensures Explains(Dissect(s), s)
    decreases |s|
  {
    if s != [] {
      var t, b := s[..|s| - 1], s[|s| - 1];
      assert s == t + [b];
      Explained(t);
      DissectSnoc(t, b);
      ExplainsStep(Dissect(t), t, b);
      if Dissect(t).mode == UserSearch && Dissect(s).mode == UserRead {
        SearchIsExact(t);
        SearchContinues(t[SearchStart(t)..], Dissect(t), b);
        EnteringUserRead(t, SearchStart(t), b);
      }
    }
  }

  lemma EnteringUserRead(t: seq<Byte>, start: nat, b: Byte)
    requires start <= |t| && EndsWith(t[start..] + [b], USER_WORD)
    ensures EndsWith(t + [b], USER_WORD + [] + Tail(false))
  {
    assert USER_WORD + [] + Tail(false) == USER_WORD;
    var w := t[start..] + [b];
    assert t + [b] == t[..start] + w;
    assert (t + [b])[|t + [b]| - 5..] == w[|w| - 5..];
  }

  lemma UserReadStep(d: Dissector, s: seq<Byte>, b: Byte)
    requires d.mode == UserRead && Explains(d, s)
    ensures Explains(Feed(d, b), s + [b])
  {
    CollectStep(USER_WORD, d.user, d.last, s, b);
    if Collect(d.user, d.last, b).Complete? {
      assert UserLine(d.user, d.last) + PASS_WORD[..0] == USER_WORD + d.user + Eol(d.last);
    }
  }

  lemma PassSearchStep(d: Dissector, s: seq<Byte>, b: Byte)
    requires d.mode == PassSearch && Explains(d, s)
    ensures Explains(Feed(d, b), s + [b])
  {
    var cr :| EndsWith(s, UserLine(d.user, cr) + PASS_WORD[..d.matched]);
    var line := UserLine(d.user, cr);
    if PASS_WORD[d.matched] == b {
      PassWordStep(s, line, d.matched, b);
      if d.matched == 9 {
        assert Feed(d, b) == d.(mode := PassRead, matched := 0);
        assert line + PASS_WORD + d.pass + Tail(d.last) == line + PASS_WORD[..10];
      } else {
        assert Feed(d, b) == d.(matched := d.matched + 1);
      }
    } else {
      assert Feed(d, b) == Restart(d, b);
    }
  }

  lemma PassWordStep(s: seq<Byte>, line: seq<Byte>, m: nat, b: Byte)
    requires m < 10 && PASS_WORD[m] == b && EndsWith(s, line + PASS_WORD[..m])
    ensures EndsWith(s + [b], line + PASS_WORD[..m + 1])
  {
    EndsWithSnoc(s, b, line + PASS_WORD[..m], b);
    assert line + PASS_WORD[..m] + [b] == line + PASS_WORD[..m + 1];
  }

  /** When a password line is completed, the stream ends with the login that is reported. */
  lemma PassReadStep(d: Dissector, s: seq<Byte>, b: Byte)
    requires d.mode == PassRead && Explains(d, s)
    ensures Explains(Feed(d, b), s + [b])
    ensures Collect(d.pass, d.last, b).Complete? ==>
              IsText(d.user) && IsText(d.pass) && exists cr1 :: EndsWith(s + [b], Login(d.user, cr1, d.pass, d.last))
  {
    var cr :| EndsWith(s, UserLine(d.user, cr) + PASS_WORD + d.pass + Tail(d.last));
    CollectStep(UserLine(d.user, cr) + PASS_WORD, d.pass, d.last, s, b);
    if Collect(d.pass, d.last, b).Complete? {
      assert EndsWith(s + [b], Login(d.user, cr, d.pass, d.last));
    }
  }

  lemma ExplainsStep(d: Dissector, s: seq<Byte>, b: Byte)
    requires Explains(d, s)
    ensures d.mode != UserSearch || Feed(d, b).mode != UserRead ==> Explains(Feed(d, b), s + [b])
  {
    match d.mode
    case UserSearch =>
    case UserRead => UserReadStep(d, s, b);
    case PassSearch => PassSearchStep(d, s, b);
    case PassRead => PassReadStep(d, s, b);
  }

  /**
   Soundness: a report is made only when the stream has just ended with a whole login, and it names the user
   and the password of that login, ASCII texts of at most 254 characters.
   */
  lemma ReportIsLogin(s: seq<Byte>, b: Byte)
    ensures var before, after := Dissect(s), Dissect(s + [b]);
            after.found == before.found ||
            (exists user, cr1, pass, cr2 ::
               && after.found == before.found + [(user, pass)]
               && IsText(user) && IsText(pass)
               && EndsWith(s + [b], Login(user, cr1, pass, cr2)))
  {
    Explained(s);
    DissectSnoc(s, b);
    var d := Dissect(s);
    if d.mode == PassRead && Collect(d.pass, d.last, b).Complete? {
      PassReadStep(d, s, b);
      var cr1 :| EndsWith(s + [b], Login(d.user, cr1, d.pass, d.last));
    }
  }

  // ----- Completeness -----

  lemma {:induction false} SearchFinds(d: Dissector)
    requires d.mode == UserSearch && d.matched < 5 && d.user == [] && d.pass == [] && !d.last
    ensures FeedAll(Feed, d, USER_WORD) == d.(mode := UserRead, matched := 0)
  {
    var d1 := Feed(d, USER_WORD[0]);
    assert d1 == d.(matched := 1);
    var d4 := d.(matched := 4);
    FeedPrefix(d1, USER_WORD, 1, 4, d4);
    assert USER_WORD == [USER_WORD[0]] + USER_WORD[1..4] + [USER_WORD[4]];
    FeedAllSnoc(Feed, d, [USER_WORD[0]] + USER_WORD[1..4], USER_WORD[4]);
    FeedAllConcat(Feed, d, [USER_WORD[0]], USER_WORD[1..4]);
    FeedOne(d, USER_WORD[0]);
  }

  lemma FeedOne(d: Dissector, b: Byte)
    ensures FeedAll(Feed, d, [b]) == Feed(d, b)
  {
    assert [b] == [] + [b];
    FeedAllSnoc(Feed, d, [], b);
  }

  /** Feeding the searched word from position `i` up to `j`, short of its end. */
  lemma {:induction false} FeedPrefix(d: Dissector, word: seq<Byte>, i: nat, j: nat, e: Dissector)
    requires (d.mode == UserSearch && word == USER_WORD) || (d.mode == PassSearch && word == PASS_WORD)
    requires d.matched == i <= j < |word| && e == d.(matched := j)
    ensures FeedAll(Feed, d, word[i..j]) == e
    decreases j - i
  {
    if i < j {
      assert word[i..j][1..] == word[i + 1..j];
      FeedPrefix(d.(matched := i + 1), word, i + 1, j, e);
    }
  }

  lemma PassWordFound(d: Dissector)
    requires d.mode == PassSearch && d.matched == 0
    ensures FeedAll(Feed, d, PASS_WORD) == d.(mode := PassRead)
  {
    FeedPrefix(d, PASS_WORD, 0, 9, d.(matched := 9));
    assert PASS_WORD == PASS_WORD[0..9] + [PASS_WORD[9]];
    FeedAllSnoc(Feed, d, PASS_WORD[0..9], PASS_WORD[9]);
  }

  /** The characters of a text are collected one after the other. */
  lemma {:induction false} TextCollected(d: Dissector, text: seq<Byte>)
    requires !d.last && IsCollected(text)
    requires d.mode == UserRead || d.mode == PassRead
    requires |(if d.mode == UserRead then d.user else d.pass)| + |text| <= 255
    ensures FeedAll(Feed, d, text) ==
            if d.mode == UserRead then d.(user := d.user + text) else d.(pass := d.pass + text)
    decreases |text|
  {
    if text == [] {
      assert d.user + [] == d.user && d.pass + [] == d.pass;
    } else {
      var c, rest := text[0], text[1..];
      assert c in text && forall b :: b in rest ==> b in text;
      var e := Feed(d, c);
      assert e == if d.mode == UserRead then d.(user := d.user + [c]) else d.(pass := d.pass + [c]);
      TextCollected(e, rest);
      assert d.user + [c] + rest == d.user + text && d.pass + [c] + rest == d.pass + text by {
        assert [c] + rest == text;
      }
    }
  }

  lemma UserLineEnds(d: Dissector, cr: bool)
    requires d.mode == UserRead && !d.last && |d.user| <= MAX_NAME
    ensures FeedAll(Feed, d, Eol(cr)) == d.(mode := PassSearch)
  {
    var ended := d.(last := cr);
    FeedOne(ended, LF);
    if cr {
      assert Eol(cr) == [CR] + [LF];
      FeedAllConcat(Feed, d, [CR], [LF]);
      FeedOne(d, CR);
    }
  }

  lemma PassLineEnds(d: Dissector, cr: bool)
    requires d.mode == PassRead && !d.last && |d.pass| <= MAX_NAME
    ensures FeedAll(Feed, d, Eol(cr)) == INITIAL.(found := d.found + [(d.user, d.pass)])
  {
    var ended := d.(last := cr);
    FeedOne(ended, LF);
    if cr {
      assert Eol(cr) == [CR] + [LF];
      FeedAllConcat(Feed, d, [CR], [LF]);
      FeedOne(d, CR);
    }
  }

  /**
   Completeness: whatever has been read, if the parser is searching then a login that follows is reported, and
   the parser is left searching from scratch.
   */
  lemma LoginIsReported(s: seq<Byte>, user: seq<Byte>, cr1: bool, pass: seq<Byte>, cr2: bool)
    requires Dissect(s).mode == UserSearch && IsText(user) && IsText(pass)
    ensures Dissect(s + Login(user, cr1, pass, cr2)) == INITIAL.(found := Dissect(s).found + [(user, pass)])
  {
    Explained(s);
    var d := Dissect(s);
    FeedAllConcat(Feed, INITIAL, s, Login(user, cr1, pass, cr2));
    FeedAllConcat(Feed, d, UserLine(user, cr1) + PASS_WORD + pass, Eol(cr2));
    FeedAllConcat(Feed, d, UserLine(user, cr1) + PASS_WORD, pass);
    FeedAllConcat(Feed, d, UserLine(user, cr1), PASS_WORD);
    UserLineTaken(d, user, cr1);
    var d2 := d.(mode := PassSearch, matched := 0, user := user);
    PassWordFound(d2);
    var d3 := d2.(mode := PassRead);
    TextCollected(d3, pass);
    assert d3.pass + pass == pass;
    PassLineEnds(d3.(pass := pass), cr2);
  }

  lemma UserLineTaken(d: Dissector, user: seq<Byte>, cr: bool)
    requires d.mode == UserSearch && d.matched < 5 && d.user == [] && d.pass == [] && !d.last && IsText(user)
    ensures FeedAll(Feed, d, UserLine(user, cr)) == d.(mode := PassSearch, matched := 0, user := user)
  {
    FeedAllConcat(Feed, d, USER_WORD + user, Eol(cr));
    FeedAllConcat(Feed, d, USER_WORD, user);
    SearchFinds(d);
    var d1 := d.(mode := UserRead, matched := 0);
    TextCollected(d1, user);
    assert d1.user + user == user;
    UserLineEnds(d1.(user := user), cr);
  }

  /** The relay hands the dissector one chunk per read; only their concatenation matters. */
  lemma {:induction false} ChunksIrrelevant(d: Dissector, chunks: seq<seq<Byte>>)
    ensures FeedAll(Feed, d, Flatten(chunks)) == FeedChunks(d, chunks)
    decreases |chunks|
  {
    if chunks != [] {
      FeedAllConcat(Feed, d, chunks[0], Flatten(chunks[1..]));
      ChunksIrrelevant(FeedAll(Feed, d, chunks[0]), chunks[1..]);
    }
  }

  function FeedChunks(d: Dissector, chunks: seq<seq<Byte>>): Dissector
    decreases |chunks|
  {
    if chunks == [] then d else FeedChunks(FeedAll(Feed, d, chunks[0]), chunks[1..])
  }

  const BUFFER_SIZE := 5

  /** `a` holds `n` characters and grows when it is full. */
  predicate Fits(a: array<Byte>, n: nat)
  {
    n <= a.Length && a.Length % BUFFER_SIZE == 0
  }

  /** The parser as a connection holds it, with its two growing text buffers. */
  class DissecParser {
    var current: Mode
    var currentIndex: nat
    var last: bool
    var username: array<Byte>
    var password: array<Byte>
    ghost var userLength: nat
    ghost var found: seq<(seq<Byte>, seq<Byte>)>

    ghost predicate Valid()
      reads this
    {
      && username != password
      && username.Length % BUFFER_SIZE == 0 && password.Length % BUFFER_SIZE == 0
      && (current == UserRead ==> Fits(username, currentIndex))
      && (current == PassSearch || current == PassRead ==> userLength <= username.Length)
      && (current == PassRead ==> Fits(password, currentIndex))
      && (current == UserSearch ==> currentIndex < |USER_WORD|)
      && (current == PassSearch ==> currentIndex < |PASS_WORD|)
    }

    ghost function View(): Dissector
      requires Valid()
      reads this, username, password
    {
      Dissector(
        current,
        if current == UserSearch || current == PassSearch then currentIndex else 0,
        last,
        if current == UserSearch then [] else if current == UserRead then username[..currentIndex] else username[..userLength],
        if current == PassRead then password[..currentIndex] else [],
        found)
    }

    constructor ()
      ensures Valid() && View() == INITIAL && fresh(username) && fresh(password)
    {
      current, currentIndex, last := UserSearch, 0, false;
      username, password := new Byte[0], new Byte[0];
      userLength, found := 0, [];
    }

    /** Room for one more character: the buffer grows by five when it is full. */
    method CheckSize(buffer: array<Byte>, size: nat) returns (grown: array<Byte>)
      requires Fits(buffer, size)
      ensures Fits(grown, size) && size < grown.Length && grown[..size] == buffer[..size]
      ensures grown == buffer || fresh(grown)
    {
      if size % BUFFER_SIZE == 0 {
        grown := new Byte[size + BUFFER_SIZE];
        forall i | 0 <= i < size {
          grown[i] := buffer[i];
        }
      } else {
        grown := buffer;
      }
    }

    /** `user_read_reset` and `pass_read_reset`, which differ only in what they release. */
    method Reset(b: Byte)
      requires Valid()
      modifies this
      ensures Valid() && View() == Restart(old(View()), b)
      ensures username == old(username) && password == old(password)
    {
      currentIndex := 0;
      last := false;
      if USER_WORD[currentIndex] == b {
        currentIndex := currentIndex + 1;
      }
      current := UserSearch;
    }

    method UserWordSearch(b: Byte)
      requires Valid() && current == UserSearch
      modifies this
      ensures Valid() && View() == Feed(old(View()), b)
      ensures username == old(username) && password == old(password)
    {
      if USER_WORD[currentIndex] == b {
        currentIndex := currentIndex + 1;
        if currentIndex == |USER_WORD| {
          currentIndex := 0;
          current := UserRead;
        }
      } else {
        Reset(b);
      }
    }

    method PassWordSearch(b: Byte)
      requires Valid() && current == PassSearch
      modifies this
      ensures Valid() && View() == Feed(old(View()), b)
      ensures username == old(username) && password == old(password)
    {
      if PASS_WORD[currentIndex] == b {
        currentIndex := currentIndex + 1;
        if currentIndex == |PASS_WORD| {
          currentIndex := 0;
          current := PassRead;
        }
      } else {
        Reset(b);
      }
    }

    method UserReadByte(b: Byte)
      requires Valid() && current == UserRead
      modifies this, username
      ensures Valid() && View() == Feed(old(View()), b)
      ensures username == old(username) || fresh(username)
      ensures password == old(password)
    {
      if currentIndex >= 255 || (last && b != LF) {
        Reset(b);
      } else if b == CR {
        last := true;
      } else if b == LF {
        username := CheckSize(username, currentIndex);
        username[currentIndex] := 0;
        userLength := currentIndex;
        currentIndex := 0;
        last := false;
        current := PassSearch;
      } else if IsAscii(b) {
        username := CheckSize(username, currentIndex);
        username[currentIndex] := b;
        currentIndex := currentIndex + 1;
      } else {
        Reset(b);
      }
    }

    method PassReadByte(b: Byte)
      requires Valid() && current == PassRead
      modifies this, password
      ensures Valid() && View() == Feed(old(View()), b)
      ensures username == old(username)
      ensures password == old(password) || fresh(password)
    {
      if currentIndex >= 255 || (last && b != LF) {
        Reset(b);
      } else if b == CR {
        last := true;
      } else if b == LF {
        ghost var report := (username[..userLength], password[..currentIndex]);
        password := CheckSize(password, currentIndex);
        password[currentIndex] := 0;
        Reset(b);
        found := found + [report];
      } else if IsAscii(b) {
        password := CheckSize(password, currentIndex);
        password[currentIndex] := b;
        currentIndex := currentIndex + 1;
      } else {
        Reset(b);
      }
    }

    method FeedByte(b: Byte)
      requires Valid()
      modifies this, username, password
      ensures Valid() && View() == Feed(old(View()), b)
      ensures username == old(username) || fresh(username)
      ensures password == old(password) || fresh(password)
    {
      match current {
        case UserSearch => UserWordSearch(b);
        case UserRead => UserReadByte(b);
        case PassSearch => PassWordSearch(b);
        case PassRead => PassReadByte(b);
      }
    }

    /** `dissec_consume`. */
    method ConsumeAll(bytes: seq<Byte>)
      requires Valid()
      modifies this, username, password
      ensures Valid() && View() == FeedAll(Feed, old(View()), bytes)
      ensures username == old(username) || fresh(username)
      ensures password == old(password) || fresh(password)
    {
      ghost var start := View();
      assert bytes[0..] == bytes;
      for i := 0 to |bytes|
        invariant Valid() && FeedAll(Feed, View(), bytes[i..]) == FeedAll(Feed, start, bytes)
        invariant username == old(username) || fresh(username)
        invariant password == old(password) || fresh(password)
      {
        assert bytes[i..][1..] == bytes[i + 1..];
        FeedByte(bytes[i]);
      }
    }
  }
}
