/**
 * The users of src/server/user_table.c: ten slots searched in order, and what
 * they mean, a finite map from names to passwords.
 */
module UserTable {
  import opened Bytes

  const MAX_USERS: nat := 10
  const MAX_CRED_LEN: nat := 255

  datatype User = User(name: bytes, pass: bytes)

  type Slots = seq<Option<User>>

  /** The first used slot with that name, or the number of slots. */
  function Find(t: Slots, name: bytes): (i: nat)
    ensures i <= |t|
    ensures i < |t| ==> t[i].Some? && t[i].value.name == name
    ensures forall k :: 0 <= k < i && t[k].Some? ==> t[k].value.name != name
  {
    if t == [] then 0 else if t[0].Some? && t[0].value.name == name then 0 else 1 + Find(t[1..], name)
  }

  function FirstFree(t: Slots): (i: nat)
    ensures i <= |t|
    ensures i < |t| ==> t[i].None?
    ensures forall k :: 0 <= k < i ==> t[k].Some?
  {
    if t == [] || t[0].None? then 0 else 1 + FirstFree(t[1..])
  }

  /** Names in slot order, as `user_table_list` visits them. */
  function Names(t: Slots): (ns: seq<bytes>)
    ensures |ns| <= |t|
  {
    if t == [] then [] else (if t[0].Some? then [t[0].value.name] else []) + Names(t[1..])
  }

  predicate Acceptable(s: bytes) {
    0 < |s| <= MAX_CRED_LEN
  }

  /** `user_table_add` */
  function Add(t: Slots, name: bytes, pass: bytes): (r: (Slots, bool)) {
    if Acceptable(name) && Acceptable(pass) && Find(t, name) == |t| && |Names(t)| < MAX_USERS && FirstFree(t) < |t|
    then (t[FirstFree(t) := Some(User(name, pass))], true)
    else (t, false)
  }

  /** `user_table_remove` */
  function Remove(t: Slots, name: bytes): (Slots, bool) {
    if Find(t, name) == |t| then (t, false) else (t[Find(t, name) := None], true)
  }

  /** `user_table_lookup` */
  predicate Lookup(t: Slots, name: bytes, pass: bytes) {
    Find(t, name) < |t| && t[Find(t, name)].value.pass == pass
  }

  ghost predicate NoTwins(t: Slots) {
    forall i, j :: 0 <= i < j < |t| && t[i].Some? && t[j].Some? ==> t[i].value.name != t[j].value.name
  }

  ghost predicate Valid(t: Slots) {
    && |t| == MAX_USERS
    && NoTwins(t)
    && (forall i :: 0 <= i < |t| && t[i].Some? ==> Acceptable(t[i].value.name) && IsCString(t[i].value.name))
  }

  // What the slots mean.

  ghost function NameSet(t: Slots): set<bytes> {
    set i | 0 <= i < |t| && t[i].Some? :: t[i].value.name
  }

  ghost function Users(t: Slots): map<bytes, bytes> {
    map n | n in NameSet(t) :: t[Find(t, n)].value.pass
  }

  ghost predicate Distinct(ns: seq<bytes>) {
    forall i, j :: 0 <= i < j < |ns| ==> ns[i] != ns[j]
  }

  lemma {:induction false} DistinctCount(ns: seq<bytes>)
    requires Distinct(ns)
    ensures |set n | n in ns| == |ns|
  {
    if ns != [] {
      DistinctCount(ns[1..]);
      assert (set n | n in ns) == {ns[0]} + set n | n in ns[1..];
    }
  }

  lemma UsersAt(t: Slots, n: bytes)
    ensures n in Users(t) <==> Find(t, n) < |t|
    ensures n in Users(t) ==> Users(t)[n] == t[Find(t, n)].value.pass
  {
  }

  lemma FindIs(t: Slots, name: bytes, i: nat)
    requires i <= |t| && (forall k :: 0 <= k < i && t[k].Some? ==> t[k].value.name != name)
    requires i < |t| ==> t[i].Some? && t[i].value.name == name
    ensures Find(t, name) == i
  {
  }

  lemma {:induction false} InNames(t: Slots, n: bytes)
    ensures n in Names(t) <==> Find(t, n) < |t|
  {
    if t != [] { InNames(t[1..], n); }
  }

  lemma {:induction false} NamesDistinct(t: Slots)
    requires NoTwins(t)
    ensures Distinct(Names(t))
  {
    if t != [] {
      assert NoTwins(t[1..]) by { assert forall i :: 0 <= i < |t[1..]| ==> t[1..][i] == t[i + 1]; }
      NamesDistinct(t[1..]);
      if t[0].Some? {
        InNames(t[1..], t[0].value.name);
        assert Names(t) == [t[0].value.name] + Names(t[1..]);
      }
    }
  }

  lemma {:induction false} FreeSlot(t: Slots)
    ensures |Names(t)| < |t| <==> FirstFree(t) < |t|
  {
    if t != [] { FreeSlot(t[1..]); }
  }

  /** Listing visits every active user exactly once. */
  lemma ListsEveryUserOnce(t: Slots)
    requires Valid(t)
    ensures Distinct(Names(t)) && (forall n :: n in Names(t) <==> n in Users(t)) && |Names(t)| == |Users(t)|
  {
    hide Users, Find, Names;
    NamesDistinct(t);
    DistinctCount(Names(t));
    forall n ensures n in Names(t) <==> n in Users(t) {
      InNames(t, n);
      UsersAt(t, n);
    }
    assert (set n | n in Names(t)) == Users(t).Keys;
  }

  /** Writing a slot changes what is found only for the names it held and holds. */
  lemma FindElsewhere(t: Slots, k: nat, u: Option<User>, n: bytes)
    requires k < |t| && (u.Some? ==> u.value.name != n) && (t[k].Some? ==> t[k].value.name != n)
    ensures Find(t[k := u], n) == Find(t, n)
  {
    FindIs(t[k := u], n, Find(t, n));
  }

  /** Adding fails exactly for bad lengths, a name taken or a full table, and otherwise adds just that user. */
  lemma AddLaw(t: Slots, name: bytes, pass: bytes)
    requires Valid(t) && IsCString(name)
    ensures var (t', ok) := Add(t, name, pass);
            && Valid(t')
            && (ok <==> 1 <= |name| <= 255 && 1 <= |pass| <= 255 && name !in Users(t) && |Users(t)| < 10)
            && (if ok then Users(t') == Users(t)[name := pass] else t' == t)
  {
    hide Users, Find, FirstFree, Names;
    var (t', ok) := Add(t, name, pass);
    ListsEveryUserOnce(t);
    FreeSlot(t);
    UsersAt(t, name);
    if ok {
      var k := FirstFree(t);
      FindIs(t', name, k);
      forall n ensures n in Users(t') <==> n in Users(t) || n == name
               ensures n in Users(t') ==> Users(t')[n] == Users(t)[name := pass][n] {
        UsersAt(t, n);
        UsersAt(t', n);
        if n != name { FindElsewhere(t, k, t'[k], n); }
      }
      assert Users(t') == Users(t)[name := pass];
    }
  }

  /** Removing fails exactly for an unknown name, and otherwise removes just that user. */
  lemma RemoveLaw(t: Slots, name: bytes)
    requires Valid(t)
    ensures var (t', ok) := Remove(t, name);
            && Valid(t')
            && (ok <==> name in Users(t))
            && Users(t') == Users(t) - {name} && (!ok ==> t' == t)
  {
    hide Users, Find, Acceptable;
    var (t', ok) := Remove(t, name);
    UsersAt(t, name);
    var k := Find(t, name);
    if ok {
      FindIs(t', name, |t|);
      forall n ensures n in Users(t') <==> n in Users(t) && n != name
               ensures n in Users(t') ==> Users(t')[n] == Users(t)[n] {
        UsersAt(t, n);
        UsersAt(t', n);
        if n != name { FindElsewhere(t, k, None, n); }
      }
    }
    assert Users(t') == Users(t) - {name};
  }

  /** Credentials match exactly when the map says so. */
  lemma LookupLaw(t: Slots, name: bytes, pass: bytes)
    ensures Lookup(t, name, pass) <==> name in Users(t) && Users(t)[name] == pass
  {
    UsersAt(t, name);
  }

  // The program.

  datatype Entry = Entry(name: Block, pass: Block, active: bool)

  function Slot(e: Entry): Option<User> {
    if e.active then Some(User(CStr(e.name), CStr(e.pass))) else None
  }

  function SlotsOf(es: seq<Entry>): Slots {
    seq(|es|, i requires 0 <= i < |es| => Slot(es[i]))
  }

  lemma FirstFreeIs(t: Slots, i: nat)
    requires i <= |t| && (forall k :: 0 <= k < i ==> t[k].Some?) && (i < |t| ==> t[i].None?)
    ensures FirstFree(t) == i
  {
  }

  lemma {:induction false} NamesCount(t: Slots, k: nat, u: Option<User>)
    requires k < |t|
    ensures |Names(t[k := u])| - (if u.Some? then 1 else 0) == |Names(t)| - (if t[k].Some? then 1 else 0)
  {
    if k == 0 {
      assert t[k := u][1..] == t[1..];
    } else {
      assert t[k := u][1..] == t[1..][k - 1 := u];
      NamesCount(t[1..], k - 1, u);
    }
  }

  class Table {
    const entries: array<Entry>
    var count: nat

    ghost function View(): Slots
      reads entries
    {
      SlotsOf(entries[..])
    }

    ghost predicate Ok()
      reads this, entries
    {
      entries.Length == MAX_USERS && Valid(View()) && count == |Names(View())|
    }

    /** `user_table_init` */
    constructor ()
      ensures Ok() && fresh(entries) && Users(View()) == map[]
    {
      entries := new Entry[MAX_USERS](i => Entry(BLANK, BLANK, false));
      count := 0;
      new;
      assert forall i :: 0 <= i < MAX_USERS ==> View()[i] == None;
      assert Users(View()).Keys == {};
      ListsEveryUserOnce(View());
    }

    method FindByName(name: bytes) returns (i: nat)
      requires entries.Length == MAX_USERS
      ensures i == Find(View(), name)
    {
      i := 0;
      while i < MAX_USERS
        invariant i <= MAX_USERS
        invariant forall k :: 0 <= k < i && View()[k].Some? ==> View()[k].value.name != name
      {
        assert View()[i] == Slot(entries[i]);
        if entries[i].active && CStr(entries[i].name) == name {
          break;
        }
        i := i + 1;
      }
      FindIs(View(), name, i);
    }

    method SetSlot(i: nat, e: Entry)
      requires i < entries.Length
      modifies entries
      ensures View() == old(View())[i := Slot(e)]
    {
      entries[i] := e;
    }

    method Fill(i: nat, name: bytes, pass: bytes)
      requires Ok() && i < MAX_USERS && View()[i].None?
      requires IsCString(name) && Acceptable(name) && IsCString(pass) && Acceptable(pass)
      modifies this`count, entries
      ensures View() == old(View())[i := Some(User(name, pass))] && count == |Names(View())|
    {
      hide Find, FirstFree, Names, Valid, CStr;
      StoredString(name);
      StoredString(pass);
      NamesCount(View(), i, Some(User(name, pass)));
      SetSlot(i, Entry(Stored(name), Stored(pass), true));
      count := count + 1;
    }

    /** `user_table_add`, whose final `return false` is never reached. */
    method TryAdd(name: Option<bytes>, pass: Option<bytes>) returns (ok: bool)
      requires Ok() && (name.Some? ==> IsCString(name.value)) && (pass.Some? ==> IsCString(pass.value))
      modifies this`count, entries
      ensures Ok()
      ensures if name.None? || pass.None? then !ok && View() == old(View())
              else (View(), ok) == Add(old(View()), name.value, pass.value)
    {
      if name.None? || pass.None? {
        return false;
      }
      if !Acceptable(name.value) || !Acceptable(pass.value) {
        return false;
      }
      var at := FindByName(name.value);
      if at < MAX_USERS || count >= MAX_USERS {
        return false;
      }
      hide Find, FirstFree, Names, Acceptable, Valid, Users, CStr;
      ghost var t := View();
      FreeSlot(t);
      AddLaw(t, name.value, pass.value);
      var i := 0;
      while i < MAX_USERS
        invariant i <= MAX_USERS && Ok() && View() == t
        invariant forall k :: 0 <= k < i ==> t[k].Some?
      {
        assert t[i] == Slot(entries[i]);
        if !entries[i].active {
          FirstFreeIs(t, i);
          Fill(i, name.value, pass.value);
          return true;
        }
        i := i + 1;
      }
      FirstFreeIs(t, MAX_USERS);
      assert false;
    }

    /** `user_table_remove` */
    method TryRemove(name: bytes) returns (ok: bool)
      requires Ok()
      modifies this`count, entries
      ensures Ok() && (View(), ok) == Remove(old(View()), name)
    {
      var i := FindByName(name);
      if i == MAX_USERS {
        return false;
      }
      RemoveLaw(View(), name);
      NamesCount(View(), i, None);
      SetSlot(i, entries[i].(active := false));
      count := count - 1;
      ok := true;
    }

    /** `user_table_lookup` */
    method Check(name: bytes, pass: bytes) returns (ok: bool)
      requires entries.Length == MAX_USERS
      ensures ok == Lookup(View(), name, pass)
    {
      var i := FindByName(name);
      if i == MAX_USERS {
        return false;
      }
      ok := CStr(entries[i].pass) == pass;
    }
  }
}
