/** The friendship table: one row per unordered pair, stored as (LEAST, GREATEST). */
module Friends {
  type User = string
  type Rows = set<(User, User)>

  /** The order LEAST and GREATEST use on identifiers. */
  predicate Less(a: User, b: User) {
    b != [] && (a == [] || a[0] < b[0] || (a[0] == b[0] && Less(a[1..], b[1..])))
  }

  lemma {:induction false} LessIsTotal(a: User, b: User)
    ensures !(Less(a, b) && Less(b, a))
    ensures a == b || Less(a, b) || Less(b, a)
  {
    if a != [] && b != [] {
      LessIsTotal(a[1..], b[1..]);
      assert a == [a[0]] + a[1..] && b == [b[0]] + b[1..];
    }
  }

  function Pair(a: User, b: User): (User, User) {
    if Less(b, a) then (b, a) else (a, b)
  }

  /** Membership test of both services: nobody is a friend of themselves. */
  predicate AreFriends(rows: Rows, a: User, b: User) {
    a != b && Pair(a, b) in rows
  }

  function AddFriendship(rows: Rows, a: User, b: User): Rows {
    rows + {Pair(a, b)}
  }

  lemma FriendshipIsSymmetric(rows: Rows, a: User, b: User)
    ensures AreFriends(rows, a, b) <==> AreFriends(rows, b, a)
  {
    LessIsTotal(a, b);
  }

  /** Adding one friendship makes exactly that pair friends, in both directions, and keeps all others. */
  lemma AddFriendshipAddsOnePair(rows: Rows, a: User, b: User, x: User, y: User)
    requires a != b
    ensures AreFriends(AddFriendship(rows, a, b), x, y)
       <==> AreFriends(rows, x, y) || (x, y) == (a, b) || (x, y) == (b, a)
  {
    LessIsTotal(a, b);
    LessIsTotal(x, y);
  }

  /** The table's own constraint: rows name the lesser user first. */
  predicate Canonical(rows: Rows) {
    forall r | r in rows :: Less(r.0, r.1)
  }

  /** ListFriends: the other column of every row that names the user in either column. */
  function FriendList(rows: Rows, u: User): set<User> {
    set r | r in rows && (r.0 == u || r.1 == u) :: if r.0 == u then r.1 else r.0
  }

  lemma AddFriendshipStaysCanonical(rows: Rows, a: User, b: User)
    requires Canonical(rows) && a != b
    ensures Canonical(AddFriendship(rows, a, b))
  {
    LessIsTotal(a, b);
  }

  /** The list query and the pair lookup agree on who is a friend. */
  lemma FriendListIsAreFriends(rows: Rows, u: User, v: User)
    requires Canonical(rows)
    ensures v in FriendList(rows, u) <==> AreFriends(rows, u, v)
  {
    LessIsTotal(u, v);
    if v in FriendList(rows, u) {
      var r :| r in rows && (r.0 == u || r.1 == u) && v == if r.0 == u then r.1 else r.0;
      assert r == (u, v) || r == (v, u);
    }
    if AreFriends(rows, u, v) {
      var r := Pair(u, v);
      assert r in rows && (r.0 == u || r.1 == u) && v == if r.0 == u then r.1 else r.0;
    }
  }
}
