/**
  The signaling hub: every user's open tabs, in slices that are filtered in place (signaling_hub.go).

  A slice is an array with a used length. append writes behind the used part while there is room, and
  Unregister keeps the tabs that stay in the front of the same array.
*/
module SignalingHub {
  import opened Seqs

  type User = string

  /** A parsed JSON value. */
  datatype Json = Null | Flag(b: bool) | Number(n: int) | Text(t: string) | List(items: seq<Json>)
                | Object(fields: map<string, Json>)

  type Payload = map<string, Json>

  // ---------- the hub as a value ----------

  function Tabs<T>(hub: map<User, seq<T>>, user: User): seq<T> {
    if user in hub then hub[user] else []
  }

  function Registered<T>(hub: map<User, seq<T>>, user: User, tab: T): map<User, seq<T>> {
    hub[user := Tabs(hub, user) + [tab]]
  }

  /** A user whose last tab leaves loses the entry. */
  function Unregistered<T(==)>(hub: map<User, seq<T>>, user: User, tab: T): map<User, seq<T>> {
    var rest := Without(Tabs(hub, user), tab);
    if rest == [] then hub - {user} else hub[user := rest]
  }

  lemma TabsAfter<T>(hub: map<User, seq<T>>, user: User, tab: T, other: User)
    ensures Tabs(Registered(hub, user, tab), other) == if other == user then Tabs(hub, user) + [tab] else Tabs(hub, other)
    ensures Tabs(Unregistered(hub, user, tab), other)
         == if other == user then Without(Tabs(hub, user), tab) else Tabs(hub, other)
  {
  }

  /** A tab that comes and goes leaves no trace, whoever else came in between or stays. */
  lemma UnregisterUndoesRegister<T>(hub: map<User, seq<T>>, user: User, tab: T)
    requires tab !in Tabs(hub, user) && (user in hub ==> hub[user] != [])
    ensures Unregistered(Registered(hub, user, tab), user, tab) == hub
  {
    var s := Tabs(hub, user);
    WithoutAbsent(s, tab);
    assert (s + [tab])[..|s|] == s;
    assert Tabs(Registered(hub, user, tab), user) == s + [tab];
    assert Without(s + [tab], tab) == s;
  }

  // ---------- the hub object ----------

  /** One open connection, with everything written to it. */
  class SignalingSession {
    var written: seq<Payload>

    constructor ()
      ensures written == []
    {
      written := [];
    }
  }

  datatype Slice = Slice(arr: array<SignalingSession>, len: nat)

  ghost function Elems(s: Slice): seq<SignalingSession>
    requires s.len <= s.arr.Length
    reads s.arr
  {
    s.arr[..s.len]
  }

  class Hub {
    var byUser: map<User, Slice>
    /** The slices' contents. */
    ghost var tabs: map<User, seq<SignalingSession>>

    ghost function Arrays(): set<object>
      reads this
    {
      set u | u in byUser :: byUser[u].arr
    }

    /** Slices fit their arrays, are not empty and share no array; no tab is listed twice for a user. */
    ghost predicate Valid()
      reads this, Arrays()
    {
      tabs.Keys == byUser.Keys && forall u | u in byUser :: Fits(u, byUser[u])
    }

    ghost predicate Fits(user: User, list: Slice)
      reads this, list.arr
    {
      && 0 < list.len <= list.arr.Length
      && user in tabs && tabs[user] == Elems(list) && Distinct(tabs[user])
      && forall u | u in byUser && u != user :: byUser[u].arr != list.arr
    }

    constructor ()
      ensures Valid() && tabs == map[]
    {
      byUser, tabs := map[], map[];
    }

    /** room is the spare capacity the runtime picks when append has to move the slice. */
    method Append(list: Slice, tab: SignalingSession, room: nat) returns (out: Slice)
      requires list.len <= list.arr.Length
      modifies list.arr
      ensures out.arr == list.arr || fresh(out.arr)
      ensures out.len == list.len + 1 <= out.arr.Length
      ensures Elems(out) == old(Elems(list)) + [tab]
    {
      if list.len < list.arr.Length {
        list.arr[list.len] := tab;
        return Slice(list.arr, list.len + 1);
      }
      var from := list.arr;
      var moved := new SignalingSession[list.len + 1 + room]
                     (i reads from => if 0 <= i < from.Length then from[i] else tab);
      out := Slice(moved, list.len + 1);
    }

    method Assign(user: User, list: Slice)
      requires tabs.Keys == byUser.Keys + {user} && Fits(user, list)
      requires forall u | u in byUser && u != user :: Fits(u, byUser[u])
      modifies this`byUser
      ensures Valid()
    {
      byUser := byUser[user := list];
    }

    method Remove(user: User)
      requires tabs.Keys == byUser.Keys - {user}
      requires forall u | u in byUser && u != user :: Fits(u, byUser[u])
      modifies this`byUser
      ensures Valid()
    {
      byUser := byUser - {user};
    }

    method Register(user: User, room: nat) returns (tab: SignalingSession)
      requires Valid()
      modifies this, if user in byUser then {byUser[user].arr} else {}
      ensures Valid() && fresh(tab) && tab.written == []
      ensures tabs == Registered(old(tabs), user, tab)
    {
      tab := new SignalingSession();
      if user in byUser {
        var list := Append(byUser[user], tab, room);
        Lengthen(user, list, tab);
      } else {
        var t := tab;
        var arr := new SignalingSession[1 + room](_ => t);
        Lengthen(user, Slice(arr, 1), tab);
      }
    }

    method Lengthen(user: User, list: Slice, tab: SignalingSession)
      requires tabs.Keys == byUser.Keys && 0 < list.len <= list.arr.Length
      requires tab !in Tabs(tabs, user) && Distinct(Tabs(tabs, user)) && Elems(list) == Tabs(tabs, user) + [tab]
      requires forall u | u in byUser && u != user :: Fits(u, byUser[u]) && byUser[u].arr != list.arr
      modifies this
      ensures Valid() && tabs == Registered(old(tabs), user, tab)
    {
      DistinctGrows(Tabs(tabs, user), tab);
      tabs := Registered(tabs, user, tab);
      Assign(user, list);
    }

    /** The filter writes into the array it reads, never ahead of where it reads. */
    method Filter(list: Slice, tab: SignalingSession) returns (kept: nat)
      requires list.len <= list.arr.Length
      modifies list.arr
      ensures kept <= list.len
      ensures Elems(Slice(list.arr, kept)) == Without(old(Elems(list)), tab)
    {
      ghost var was, out := Elems(list), [];
      kept := 0;
      for i := 0 to list.len
        invariant kept == |out| <= i && out == Without(was[..i], tab)
        invariant forall k | 0 <= k < kept :: list.arr[k] == out[k]
        invariant forall k | i <= k < list.len :: list.arr[k] == was[k]
      {
        var x := list.arr[i];
        WithoutNext(was, i, tab);
        if x != tab {
          list.arr[kept] := x;
          kept := kept + 1;
          out := out + [x];
        }
      }
      assert was[..list.len] == was;
      assert Elems(Slice(list.arr, kept)) == out;
    }

    method Unregister(user: User, tab: SignalingSession)
      requires Valid()
      modifies this, if user in byUser then {byUser[user].arr} else {}
      ensures Valid()
      ensures tabs == Unregistered(old(tabs), user, tab)
    {
      if user !in byUser {
        assert tabs - {user} == tabs;
        return;
      }
      var kept := Filter(byUser[user], tab);
      Shorten(user, kept, tab);
    }

    /** The filtered slice, or nothing if no tab is left. */
    method Shorten(user: User, kept: nat, tab: SignalingSession)
      requires user in byUser && tabs.Keys == byUser.Keys && kept <= byUser[user].arr.Length
      requires Distinct(tabs[user]) && Elems(Slice(byUser[user].arr, kept)) == Without(tabs[user], tab)
      requires forall u | u in byUser && u != user :: Fits(u, byUser[u]) && byUser[u].arr != byUser[user].arr
      modifies this
      ensures Valid() && tabs == Unregistered(old(tabs), user, tab)
    {
      WithoutIsDistinct(tabs[user], tab);
      tabs := Unregistered(tabs, user, tab);
      if kept == 0 {
        Remove(user);
      } else {
        Assign(user, Slice(byUser[user].arr, kept));
      }
    }

    /** Every open tab of the user is written to once, and nobody else is. */
    method SendToUser(user: User, data: Payload)
      requires Valid()
      modifies set tab | tab in Tabs(tabs, user)
      ensures forall tab | tab in Tabs(old(tabs), user) :: tab.written == old(tab.written) + [data]
    {
      if user !in byUser {
        return;
      }
      var list := byUser[user];
      for i := 0 to list.len
        invariant forall j | 0 <= j < list.len ::
                    list.arr[j].written == if j < i then old(list.arr[j].written) + [data] else old(list.arr[j].written)
      {
        var tab := list.arr[i];
        tab.written := tab.written + [data];
      }
    }
  }
}
