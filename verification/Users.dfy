/**
 The user table: a fixed array of name and password pairs, updated in place by the management server and
 searched by the authentication stage.
 */
module UsersModule {

  import opened Base

  const MAX_USERS := 255

  datatype User = User(name: seq<Byte>, pass: seq<Byte>)

  // ----- C strings -----

  predicate NulFree(s: seq<Byte>) {
    0 !in s
  }

  /** The C string at the start of a byte array: everything before the first NUL. */
  function CString(s: seq<Byte>): (t: seq<Byte>)
    ensures NulFree(t) && t <= s
  {
    if s == [] || s[0] == 0 then [] else [s[0]] + CString(s[1..])
  }

  /** A NUL-terminated NUL-free text reads back as itself. */
  lemma {:induction false} CStringOfTerminated(t: seq<Byte>, rest: seq<Byte>)
    requires NulFree(t)
    ensures CString(t + [0] + rest) == t
    decreases |t|
  {
    var s := t + [0] + rest;
    if t != [] {
      assert s[1..] == t[1..] + [0] + rest;
      CStringOfTerminated(t[1..], rest);
    }
  }

  /** The terminator that a parser stores behind a field changes nothing about its text. */
  lemma {:induction false} CStringOfStored(v: seq<Byte>)
    ensures CString(v + [0]) == CString(v)
    decreases |v|
  {
    if v != [] && v[0] != 0 {
      assert (v + [0])[1..] == v[1..] + [0];
      CStringOfStored(v[1..]);
    }
  }

  // ----- The table as a sequence -----

  predicate IsTable(t: seq<User>) {
    |t| <= MAX_USERS && forall u :: u in t ==> NulFree(u.name) && NulFree(u.pass)
  }

  function Add(t: seq<User>, u: User): seq<User> {
    if |t| >= MAX_USERS then t else t + [u]
  }

  /** The position of the first user of that name, or the length of the table. */
  function FirstNamed(t: seq<User>, name: seq<Byte>): (k: nat)
    ensures k <= |t|
    ensures forall j :: 0 <= j < k ==> t[j].name != name
    ensures k < |t| ==> t[k].name == name
  {
    if t == [] then 0 else if t[0].name == name then 0 else 1 + FirstNamed(t[1..], name)
  }

  function Delete(t: seq<User>, name: seq<Byte>): seq<User> {
    var k := FirstNamed(t, name);
    if k < |t| then t[..k] + t[k + 1..] else t
  }

  /** The position of the first entry equal to the pair, or the length of the table. */
  function FirstMatch(t: seq<User>, u: User): (k: nat)
    ensures k <= |t|
    ensures forall j :: 0 <= j < k ==> t[j] != u
    ensures k < |t| ==> t[k] == u
  {
    if t == [] then 0 else if t[0] == u then 0 else 1 + FirstMatch(t[1..], u)
  }

  predicate Granted(t: seq<User>, u: User) {
    u in t
  }

  lemma GrantedIffMatched(t: seq<User>, u: User)
    ensures Granted(t, u) <==> FirstMatch(t, u) < |t|
  {
    if u in t {
      assert FirstMatch(t, u) < |t|;
    }
  }

  // ----- Runs -----

  datatype TableOp = AddUser(user: User) | DeleteUser(name: seq<Byte>)

  function ChangeTable(t: seq<User>, op: TableOp): seq<User> {
    match op
    case AddUser(u) => Add(t, u)
    case DeleteUser(name) => Delete(t, name)
  }

  function ChangeAll(t: seq<User>, ops: seq<TableOp>): seq<User>
    decreases |ops|
  {
    if ops == [] then t else ChangeAll(ChangeTable(t, ops[0]), ops[1..])
  }

  function CountPair(t: seq<User>, u: User): nat {
    multiset(t)[u]
  }

  /** Deleting removes one entry, the first of that name, and keeps the others in order. */
  lemma DeleteRemovesOne(t: seq<User>, name: seq<Byte>)
    ensures var k := FirstNamed(t, name);
            if k == |t| then Delete(t, name) == t && forall u :: u in t ==> u.name != name
            else
              && multiset(t) == multiset(Delete(t, name)) + multiset{t[k]}
              && t[k].name == name
              && (forall j :: 0 <= j < k ==> Delete(t, name)[j] == t[j])
              && (forall j :: k <= j < |t| - 1 ==> Delete(t, name)[j] == t[j + 1])
  {
    var k := FirstNamed(t, name);
    if k < |t| {
      RemoveOne(t, k);
    }
  }

  lemma RemoveOne(t: seq<User>, k: nat)
    requires k < |t|
    ensures multiset(t) == multiset(t[..k] + t[k + 1..]) + multiset{t[k]}
  {
    assert t == t[..k] + [t[k]] + t[k + 1..];
  }

  lemma {:induction false} FirstNamedAppend(t: seq<User>, u: User)
    requires FirstNamed(t, u.name) == |t|
    ensures FirstNamed(t + [u], u.name) == |t|
    decreases |t|
  {
    if t != [] {
      assert (t + [u])[1..] == t[1..] + [u];
      FirstNamedAppend(t[1..], u);
    }
  }

  /** Deleting undoes adding, for a name that was not in a table with room. */
  lemma DeleteUndoesAdd(t: seq<User>, u: User)
    requires |t| < MAX_USERS && FirstNamed(t, u.name) == |t|
    ensures Delete(Add(t, u), u.name) == t
  {
    FirstNamedAppend(t, u);
  }

  /** Adding grants the pair if and only if it was granted already or there is room. */
  lemma AddGrants(t: seq<User>, u: User)
    ensures Granted(Add(t, u), u) <==> Granted(t, u) || |t| < MAX_USERS
  {
  }

  /** Deleting a name revokes a pair if and only if its only entry is the first one of that name. */
  lemma DeleteRevokes(t: seq<User>, u: User)
    ensures Granted(Delete(t, u.name), u) <==>
            Granted(t, u) && (t[FirstNamed(t, u.name)] != u || CountPair(t, u) > 1)
  {
    DeleteRemovesOne(t, u.name);
    if u in t {
      assert FirstNamed(t, u.name) < |t|;
    }
    assert u in Delete(t, u.name) <==> multiset(Delete(t, u.name))[u] > 0;
    assert u in t <==> multiset(t)[u] > 0;
  }

  /** Names other than the one deleted keep every one of their entries. */
  lemma DeleteSpares(t: seq<User>, name: seq<Byte>, u: User)
    requires u.name != name
    ensures CountPair(Delete(t, name), u) == CountPair(t, u)
  {
    DeleteRemovesOne(t, name);
  }

  /** Over any run of additions of NUL-free pairs and deletions, the table stays within its array. */
  lemma {:induction false} ChangesKeepTable(t: seq<User>, ops: seq<TableOp>)
    requires IsTable(t)
    requires forall op :: op in ops && op.AddUser? ==> NulFree(op.user.name) && NulFree(op.user.pass)
    ensures IsTable(ChangeAll(t, ops))
    decreases |ops|
  {
    if ops != [] {
      assert ops[0] in ops;
      ChangesKeepTable(ChangeTable(t, ops[0]), ops[1..]);
    }
  }

  function Deletions(ops: seq<TableOp>, name: seq<Byte>): nat {
    if ops == [] then 0 else (if ops[0] == DeleteUser(name) then 1 else 0) + Deletions(ops[1..], name)
  }

  /**
   Over any run, a pair survives as long as the deletions of its name are fewer than its entries: whoever was
   granted stays granted.
   */
  lemma {:induction false} GrantSurvives(t: seq<User>, ops: seq<TableOp>, u: User)
    ensures CountPair(ChangeAll(t, ops), u) + Deletions(ops, u.name) >= CountPair(t, u)
    ensures CountPair(t, u) > Deletions(ops, u.name) ==> Granted(ChangeAll(t, ops), u)
    decreases |ops|
  {
    if ops != [] {
      if ops[0].DeleteUser? {
        DeleteRemovesOne(t, ops[0].name);
      }
      GrantSurvives(ChangeTable(t, ops[0]), ops[1..], u);
    }
  }

  // ----- The table in place -----

  /** A cell whose strings have been freed. */
  const FREED := User([], [])

  /** The cells from `count` on mean nothing. */
  class UserTable {
    const cells: array<User>
    var count: nat

    ghost predicate Valid()
      reads this, cells
    {
      cells.Length == MAX_USERS && count <= MAX_USERS
    }

    ghost function Contents(): seq<User>
      requires Valid()
      reads this, cells
    {
      cells[..count]
    }

    constructor ()
      ensures Valid() && Contents() == [] && fresh(cells)
    {
      cells := new User[MAX_USERS](_ => FREED);
      count := 0;
    }

    /** `addUser`: both arguments are copied as C strings. */
    method AddUser(username: seq<Byte>, password: seq<Byte>)
      requires Valid()
      modifies this, cells
      ensures Valid() && Contents() == Add(old(Contents()), User(CString(username), CString(password)))
    {
      if count >= MAX_USERS {
        return;
      }
      cells[count] := User(CString(username), CString(password));
      count := count + 1;
      assert cells[..count] == old(cells[..count]) + [cells[count - 1]];
    }

    /** `deleteUser`: one pass that finds the first user of that name and shifts the later ones down. */
    method DeleteUser(username: seq<Byte>)
      requires Valid()
      modifies this, cells
      ensures Valid() && Contents() == Delete(old(Contents()), CString(username))
    {
      ghost var was := Contents();
      ghost var k := FirstNamed(was, CString(username));
      var name := CString(username);
      var deleted := false;
      for i := 0 to count
        invariant count == |was|
        invariant deleted <==> k < i
        invariant forall j :: 0 <= j < |was| && (j < k || j >= i) ==> cells[j] == was[j]
        invariant forall j :: k <= j < i - 1 ==> cells[j] == was[j + 1]
      {
        if deleted {
          cells[i - 1] := cells[i];
        }
        if !deleted && cells[i].name == name {
          cells[i] := FREED;
          deleted := true;
        }
      }
      if deleted {
        count := count - 1;
        assert cells[..count] == was[..k] + was[k + 1..];
      }
    }

    /** `checkCredentials`: 0x00 and the index of the first entry for the pair, or 0x01. */
    method CheckCredentials(username: seq<Byte>, password: seq<Byte>) returns (status: Byte, index: int)
      requires Valid()
      ensures var pair := User(CString(username), CString(password));
              && (status == 0 <==> Granted(Contents(), pair))
              && (status == 0 || status == 1)
              && (status == 0 ==> index == FirstMatch(Contents(), pair))
    {
      ghost var pair := User(CString(username), CString(password));
      GrantedIffMatched(Contents(), pair);
      index := -1;
      for i := 0 to count
        invariant FirstMatch(Contents(), pair) >= i
      {
        if CString(username) == cells[i].name {
          if CString(password) == cells[i].pass {
            assert Contents()[i] == pair;
            return 0, i;
          }
        }
        assert Contents()[i] != pair;
      }
      status := 1;
    }
  }
}
