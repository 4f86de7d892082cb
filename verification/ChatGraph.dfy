/** Chats gated by friendship: the only writers of friendships, chats and chat members. */
module ChatGraph {
  import opened Common
  import opened Friends
  import opened Seqs

  type Id = string

  datatype Kind = Direct | Group
  datatype Role = Owner | Member

  datatype Chat = Chat(kind: Kind, members: map<User, Role>)

  datatype Db = Db(users: set<User>, friends: Rows, chats: map<Id, Chat>)

  // ---------- statements ----------

  function MemberSet(creator: User, others: seq<User>): set<User> {
    {creator} + set o | o in others && o != ""
  }

  /** CreateChat: all members in one transaction, the creator as owner; None when it is refused or rolled back. */
  function CreateChat(db: Db, id: Id, kind: Kind, creator: User, others: seq<User>): Option<Db> {
    var members := MemberSet(creator, others);
    if (kind == Direct && |members| != 2) || id in db.chats || !(members <= db.users) then None
    else Some(db.(chats := db.chats[id := Chat(kind, map u | u in members :: if u == creator then Owner else Member)]))
  }

  /** findDirectChatID, as the database may answer it. */
  predicate IsDirectOf(db: Db, id: Id, a: User, b: User) {
    id in db.chats && db.chats[id].kind == Direct && |db.chats[id].members| == 2
    && a in db.chats[id].members && b in db.chats[id].members
  }

  predicate IsMember(db: Db, id: Id, u: User) {
    id in db.chats && u in db.chats[id].members
  }

  /** INSERT ... 'member' ON CONFLICT DO NOTHING. */
  function InsertMember(db: Db, id: Id, u: User): Db {
    if id !in db.chats || u !in db.users || u in db.chats[id].members then db
    else db.(chats := db.chats[id := db.chats[id].(members := db.chats[id].members[u := Member])])
  }

  function InsertFriendship(db: Db, a: User, b: User): Db {
    if a !in db.users || b !in db.users || a == b then db else db.(friends := AddFriendship(db.friends, a, b))
  }

  // ---------- handlers, one statement at a time ----------

  datatype Task =
    | Creating(uid: User, kind: Kind, ids: seq<User>, checked: nat)
    | CreatingNow(uid: User, kind: Kind, ids: seq<User>)
    | Ensuring(uid: User, other: User)
    | Finding(uid: User, other: User)
    | Adding(uid: User, chat: Id, user: User)
    | AddingAs(uid: User, chat: Id, user: User)
    | AddingTo(uid: User, chat: Id, user: User)
    | AddingNow(uid: User, chat: Id, user: User)
    | Befriending(uid: User, other: User)
    | BefriendingNow(uid: User, other: User)
    | Done(ok: bool)

  /** The states in which a request enters. */
  predicate IsStart(t: Task) {
    match t
    case Creating(uid, _, _, checked) => uid != "" && checked == 0
    case Ensuring(uid, other) => uid != "" && other != ""
    case Adding(uid, _, user) => uid != "" && user != ""
    case Befriending(uid, other) => uid != "" && other != ""
    case _ => false
  }

  /** One statement; id is a fresh identifier, found what findDirectChatID may return. */
  function Step(db: Db, t: Task, id: Id, found: Option<Id>): (Db, Task) {
    match t
    case Creating(uid, Group, ids, i) =>
      if i >= |ids| then (db, CreatingNow(uid, Group, ids))
      else if ids[i] == "" || ids[i] == uid || AreFriends(db.friends, uid, ids[i])
      then (db, Creating(uid, Group, ids, i + 1))
      else (db, Done(false))
    case Creating(uid, Direct, ids, _) =>
      (db, if |ids| == 1 && AreFriends(db.friends, uid, ids[0]) then CreatingNow(uid, Direct, ids) else Done(false))
    case CreatingNow(uid, kind, ids) =>
      (match CreateChat(db, id, kind, uid, ids) case None => (db, Done(false)) case Some(d) => (d, Done(true)))
    case Ensuring(uid, other) =>
      (db, if AreFriends(db.friends, uid, other) then Finding(uid, other) else Done(false))
    case Finding(uid, other) =>
      if uid == other then (db, Done(false))
      else if found.Some? && IsDirectOf(db, found.value, uid, other) then (db, Done(true))
      else (db, CreatingNow(uid, Direct, [other]))
    case Adding(uid, chat, user) =>
      (db, if user == uid || AreFriends(db.friends, uid, user) then AddingAs(uid, chat, user) else Done(false))
    case AddingAs(uid, chat, user) => (db, if IsMember(db, chat, uid) then AddingTo(uid, chat, user) else Done(false))
    case AddingTo(uid, chat, user) =>
      (db, if chat !in db.chats || db.chats[chat].kind == Direct then Done(false) else AddingNow(uid, chat, user))
    case AddingNow(uid, chat, user) => (InsertMember(db, chat, user), Done(user in db.users))
    case Befriending(uid, other) =>
      (db, if uid == other || other !in db.users then Done(false) else BefriendingNow(uid, other))
    case BefriendingNow(uid, other) => (InsertFriendship(db, uid, other), Done(uid in db.users && other in db.users))
    case Done(_) => (db, t)
  }

  datatype Sys = Sys(db: Db, tasks: seq<Task>)

  datatype Action =
    | Register(user: User)
    | Begin(t: Task)
    | Advance(k: nat, id: Id, found: Option<Id>)

  const EMPTY := Sys(Db({}, {}, map[]), [])

  function Apply(s: Sys, a: Action): Sys {
    match a
    case Register(user) => if user == "" then s else s.(db := s.db.(users := s.db.users + {user}))
    case Begin(t) => if IsStart(t) then s.(tasks := s.tasks + [t]) else s
    case Advance(k, id, found) =>
      if k >= |s.tasks| then s
      else
        var x := Step(s.db, s.tasks[k], id, found);
        s.(db := x.0, tasks := s.tasks[k := x.1])
  }

  function Run(actions: seq<Action>): Sys {
    if actions == [] then EMPTY else Apply(Run(actions[..|actions| - 1]), actions[|actions| - 1])
  }

  // ---------- connectivity ----------

  /** A walk along friendships that stays among these users. */
  predicate Path(friends: Rows, among: set<User>, p: seq<User>) {
    p != [] && (forall u | u in p :: u in among) && forall i | 0 <= i < |p| - 1 :: AreFriends(friends, p[i], p[i + 1])
  }

  ghost predicate Linked(friends: Rows, among: set<User>, a: User, b: User) {
    exists p :: Path(friends, among, p) && p[0] == a && p[|p| - 1] == b
  }

  ghost predicate Connected(friends: Rows, among: set<User>) {
    forall a, b | a in among && b in among :: Linked(friends, among, a, b)
  }

  predicate OneOwner(members: map<User, Role>) {
    exists u :: u in members && members[u] == Owner && forall v | v in members && members[v] == Owner :: v == u
  }

  predicate IsPairOfFriends(friends: Rows, among: set<User>) {
    exists a, b :: a in among && b in among && among == {a, b} && AreFriends(friends, a, b)
  }

  ghost predicate ChatOk(friends: Rows, c: Chat) {
    && Connected(friends, c.members.Keys)
    && OneOwner(c.members)
    && (c.kind == Direct ==> IsPairOfFriends(friends, c.members.Keys))
  }

  lemma LinkGrows(friends: Rows, more: Rows, among: set<User>, wider: set<User>, a: User, b: User)
    requires friends <= more && among <= wider && Linked(friends, among, a, b)
    ensures Linked(more, wider, a, b)
  {
    var p :| Path(friends, among, p) && p[0] == a && p[|p| - 1] == b;
    assert Path(more, wider, p);
  }

  lemma ChatStaysOk(friends: Rows, more: Rows, c: Chat)
    requires friends <= more && ChatOk(friends, c)
    ensures ChatOk(more, c)
  {
    var among := c.members.Keys;
    forall a, b | a in among && b in among ensures Linked(more, among, a, b) {
      LinkGrows(friends, more, among, among, a, b);
    }
    if c.kind == Direct {
      var a, b :| a in among && b in among && among == {a, b} && AreFriends(friends, a, b);
      assert AreFriends(more, a, b);
    }
  }

  /** Users who are all friends of one of them are connected through that one. */
  lemma StarIsConnected(friends: Rows, among: set<User>, hub: User)
    requires hub in among && forall u | u in among :: u == hub || AreFriends(friends, hub, u)
    ensures Connected(friends, among)
  {
    forall a, b | a in among && b in among ensures Linked(friends, among, a, b) {
      FriendshipIsSymmetric(friends, hub, a);
      var p := if a == b then [a] else if a == hub then [hub, b] else if b == hub then [a, hub] else [a, hub, b];
      assert Path(friends, among, p);
    }
  }

  lemma LinkExtended(friends: Rows, among: set<User>, a: User, inside: User, u: User)
    requires Linked(friends, among, a, inside) && AreFriends(friends, inside, u)
    ensures Linked(friends, among + {u}, a, u)
  {
    var p :| Path(friends, among, p) && p[0] == a && p[|p| - 1] == inside;
    var q := p + [u];
    forall i | 0 <= i < |q| - 1 ensures AreFriends(friends, q[i], q[i + 1]) {
      assert i + 1 < |p| ==> q[i + 1] == p[i + 1];
    }
    assert Path(friends, among + {u}, q);
  }

  lemma LinkPrefixed(friends: Rows, among: set<User>, u: User, inside: User, b: User)
    requires Linked(friends, among, inside, b) && AreFriends(friends, u, inside)
    ensures Linked(friends, among + {u}, u, b)
  {
    var p :| Path(friends, among, p) && p[0] == inside && p[|p| - 1] == b;
    var q := [u] + p;
    forall i | 0 <= i < |q| - 1 ensures AreFriends(friends, q[i], q[i + 1]) {
      assert i > 0 ==> q[i] == p[i - 1];
    }
    assert Path(friends, among + {u}, q);
  }

  lemma LinkToSelf(friends: Rows, among: set<User>, u: User)
    requires u in among
    ensures Linked(friends, among, u, u)
  {
    assert Path(friends, among, [u]);
  }

  /** A friend of somebody inside joins without disconnecting anybody. */
  lemma FriendJoins(friends: Rows, among: set<User>, inside: User, u: User)
    requires Connected(friends, among) && inside in among && AreFriends(friends, inside, u)
    ensures Connected(friends, among + {u})
  {
    var wider := among + {u};
    FriendshipIsSymmetric(friends, inside, u);
    LinkToSelf(friends, wider, u);
    forall a, b | a in wider && b in wider ensures Linked(friends, wider, a, b) {
      if a in among && b in among {
        LinkGrows(friends, friends, among, wider, a, b);
      } else if a in among {
        LinkExtended(friends, among, a, inside, u);
      } else if b in among {
        LinkPrefixed(friends, among, u, inside, b);
      }
    }
  }

  // ---------- invariants ----------

  /** What the checks behind a handler have established; nothing is ever removed, so it stays true. */
  predicate Knows(db: Db, t: Task) {
    match t
    case Creating(uid, Group, ids, i) =>
      i <= |ids| && forall j | 0 <= j < i :: ids[j] == "" || ids[j] == uid || AreFriends(db.friends, uid, ids[j])
    case CreatingNow(uid, kind, ids) =>
      && (forall j | 0 <= j < |ids| :: ids[j] == "" || ids[j] == uid || AreFriends(db.friends, uid, ids[j]))
      && (kind == Direct ==> |ids| == 1 && AreFriends(db.friends, uid, ids[0]))
    case Finding(uid, other) => AreFriends(db.friends, uid, other)
    case AddingAs(uid, _, user) => user == uid || AreFriends(db.friends, uid, user)
    case AddingTo(uid, chat, user) => (user == uid || AreFriends(db.friends, uid, user)) && IsMember(db, chat, uid)
    case AddingNow(uid, chat, user) =>
      (user == uid || AreFriends(db.friends, uid, user)) && IsMember(db, chat, uid) && db.chats[chat].kind == Group
    case _ => true
  }

  ghost predicate DbOk(db: Db) {
    (forall id | id in db.chats :: ChatOk(db.friends, db.chats[id])) && "" !in db.users
  }

  ghost predicate Sound(s: Sys) {
    DbOk(s.db) && forall t | t in s.tasks :: Knows(s.db, t)
  }

  ghost predicate Grows(a: Db, b: Db) {
    && a.friends <= b.friends
    && forall id | id in a.chats ::
         && id in b.chats && b.chats[id].kind == a.chats[id].kind
         && a.chats[id].members.Keys <= b.chats[id].members.Keys
  }

  lemma NewChatOk(db: Db, id: Id, kind: Kind, uid: User, ids: seq<User>)
    requires Knows(db, CreatingNow(uid, kind, ids)) && CreateChat(db, id, kind, uid, ids).Some? && uid != ""
    ensures ChatOk(db.friends, CreateChat(db, id, kind, uid, ids).value.chats[id])
  {
    var among := MemberSet(uid, ids);
    var d := CreateChat(db, id, kind, uid, ids).value;
    StarIsConnected(db.friends, among, uid);
    assert d.chats[id].members.Keys == among;
    assert d.chats[id].members[uid] == Owner;
    if kind == Direct {
      assert ids == [ids[0]];
      assert among == if ids[0] == "" then {uid} else {uid, ids[0]};
      assert |{uid}| == 1;
    }
  }

  lemma CreatedOk(db: Db, id: Id, kind: Kind, uid: User, ids: seq<User>)
    requires DbOk(db) && Knows(db, CreatingNow(uid, kind, ids)) && CreateChat(db, id, kind, uid, ids).Some?
    ensures DbOk(CreateChat(db, id, kind, uid, ids).value)
  {
    NewChatOk(db, id, kind, uid, ids);
  }

  lemma InsertedOk(db: Db, uid: User, chat: Id, user: User)
    requires DbOk(db) && Knows(db, AddingNow(uid, chat, user))
    ensures DbOk(InsertMember(db, chat, user)) && Grows(db, InsertMember(db, chat, user))
  {
    var c := db.chats[chat];
    assert ChatOk(db.friends, c);
    if user != uid && user in db.users && user !in c.members {
      FriendJoins(db.friends, c.members.Keys, uid, user);
      NewMemberKeepsOwner(c.members, user);
      var more := c.members[user := Member];
      assert more.Keys == c.members.Keys + {user};
      assert ChatOk(db.friends, c.(members := more));
      forall i | i in InsertMember(db, chat, user).chats
        ensures ChatOk(db.friends, InsertMember(db, chat, user).chats[i])
      {
        assert i == chat || ChatOk(db.friends, db.chats[i]);
      }
    }
  }

  lemma NewMemberKeepsOwner(members: map<User, Role>, u: User)
    requires OneOwner(members) && u !in members
    ensures OneOwner(members[u := Member])
  {
    var o :| o in members && members[o] == Owner && forall v | v in members && members[v] == Owner :: v == o;
    assert members[u := Member][o] == Owner;
  }

  lemma BefriendedOk(db: Db, uid: User, other: User)
    requires DbOk(db)
    ensures DbOk(InsertFriendship(db, uid, other)) && Grows(db, InsertFriendship(db, uid, other))
  {
    var d := InsertFriendship(db, uid, other);
    forall i | i in d.chats ensures ChatOk(d.friends, d.chats[i]) {
      ChatStaysOk(db.friends, d.friends, db.chats[i]);
    }
  }

  /** The statements that only read: what they find out is true. */
  lemma ReadingSound(db: Db, t: Task, id: Id, found: Option<Id>)
    requires Knows(db, t) && !t.CreatingNow? && !t.AddingNow? && !t.BefriendingNow?
    ensures var x := Step(db, t, id, found); x.0 == db && Knows(db, x.1)
  {
  }

  lemma StepSound(db: Db, t: Task, id: Id, found: Option<Id>)
    requires DbOk(db) && Knows(db, t)
    ensures var x := Step(db, t, id, found); DbOk(x.0) && Grows(db, x.0) && Knows(x.0, x.1)
  {
    match t {
      case CreatingNow(uid, kind, ids) =>
        if CreateChat(db, id, kind, uid, ids).Some? {
          CreatedOk(db, id, kind, uid, ids);
        }
      case AddingNow(uid, chat, user) => InsertedOk(db, uid, chat, user);
      case BefriendingNow(uid, other) => BefriendedOk(db, uid, other);
      case _ => ReadingSound(db, t, id, found);
    }
  }

  lemma KnowledgeStays(a: Db, b: Db, t: Task)
    requires Grows(a, b) && Knows(a, t)
    ensures Knows(b, t)
  {
  }

  lemma {:induction false} RunSound(actions: seq<Action>)
    ensures Sound(Run(actions))
  {
    if actions != [] {
      var s, a := Run(actions[..|actions| - 1]), actions[|actions| - 1];
      RunSound(actions[..|actions| - 1]);
      match a {
        case Advance(k, id, found) =>
          if k < |s.tasks| {
            var x := Step(s.db, s.tasks[k], id, found);
            StepSound(s.db, s.tasks[k], id, found);
            forall t | t in s.tasks ensures Knows(x.0, t) {
              KnowledgeStays(s.db, x.0, t);
            }
            assert forall t | t in s.tasks[k := x.1] :: t == x.1 || t in s.tasks;
          }
        case Register(user) =>
          forall t | t in s.tasks ensures Knows(Apply(s, a).db, t) {
            KnowledgeStays(s.db, Apply(s, a).db, t);
          }
        case _ =>
      }
    }
  }

  // ---------- results ----------

  /**
    Friendship connectivity, however the requests interleave: from any member of a chat one reaches any other
    by walking along friendships between members.
  */
  lemma ChatsAreConnected(actions: seq<Action>, id: Id, a: User, b: User)
    requires id in Run(actions).db.chats
    requires a in Run(actions).db.chats[id].members && b in Run(actions).db.chats[id].members
    ensures exists p :: Path(Run(actions).db.friends, Run(actions).db.chats[id].members.Keys, p)
                        && p[0] == a && p[|p| - 1] == b
  {
    RunSound(actions);
    var s := Run(actions);
    assert ChatOk(s.db.friends, s.db.chats[id]);
    assert Linked(s.db.friends, s.db.chats[id].members.Keys, a, b);
  }

  /** A direct chat has exactly two members, and they are friends. */
  lemma DirectChatsArePairsOfFriends(actions: seq<Action>, id: Id)
    requires id in Run(actions).db.chats && Run(actions).db.chats[id].kind == Direct
    ensures exists a, b :: a != b && Run(actions).db.chats[id].members.Keys == {a, b}
                           && AreFriends(Run(actions).db.friends, a, b)
  {
    RunSound(actions);
    var s := Run(actions);
    var among := s.db.chats[id].members.Keys;
    assert ChatOk(s.db.friends, s.db.chats[id]);
    var a, b :| a in among && b in among && among == {a, b} && AreFriends(s.db.friends, a, b);
    assert a != b;
  }

  /** Every chat has exactly one owner. */
  lemma ChatsHaveOneOwner(actions: seq<Action>, id: Id)
    requires id in Run(actions).db.chats
    ensures var m := Run(actions).db.chats[id].members;
            exists u :: u in m && m[u] == Owner && forall v | v in m && m[v] == Owner :: v == u
  {
    RunSound(actions);
    assert ChatOk(Run(actions).db.friends, Run(actions).db.chats[id]);
  }

  // ---------- the handlers as whole calls ----------

  function Rank(t: Task): nat {
    match t
    case Creating(_, _, ids, i) => 4 + if i <= |ids| then |ids| - i else 0
    case Adding(_, _, _) => 4
    case AddingAs(_, _, _) => 3
    case AddingTo(_, _, _) => 2
    case Ensuring(_, _) => 3
    case Finding(_, _) => 2
    case Befriending(_, _) => 2
    case Done(_) => 0
    case _ => 1
  }

  lemma CreatingRanks(db: Db, uid: User, kind: Kind, ids: seq<User>, i: nat, id: Id, found: Option<Id>)
    ensures Rank(Step(db, Creating(uid, kind, ids, i), id, found).1) < Rank(Creating(uid, kind, ids, i))
  {
  }

  lemma StepRanks(db: Db, t: Task, id: Id, found: Option<Id>)
    requires !t.Done?
    ensures Rank(Step(db, t, id, found).1) < Rank(t)
  {
    if t.Creating? {
      CreatingRanks(db, t.uid, t.kind, t.ids, t.checked, id, found);
    }
  }

  /** The handler run to its end with nothing else going on. */
  function RunAlone(db: Db, t: Task, id: Id, found: Option<Id>): (Db, bool)
    decreases Rank(t)
  {
    if t.Done? then (db, t.ok)
    else
      var x := Step(db, t, id, found);
      StepRanks(db, t, id, found);
      RunAlone(x.0, x.1, id, found)
  }

  lemma Unfold(db: Db, t: Task, id: Id, found: Option<Id>)
    requires !t.Done?
    ensures RunAlone(db, t, id, found) == RunAlone(Step(db, t, id, found).0, Step(db, t, id, found).1, id, found)
  {
  }

  /** Whom one may name when creating a chat. */
  predicate MayInvite(friends: Rows, uid: User, kind: Kind, ids: seq<User>) {
    match kind
    case Group => forall i | 0 <= i < |ids| :: ids[i] == "" || ids[i] == uid || AreFriends(friends, uid, ids[i])
    case Direct => |ids| == 1 && AreFriends(friends, uid, ids[0])
  }

  function OrRefused(db: Db, made: Option<Db>): (Db, bool) {
    if made.Some? then (made.value, true) else (db, false)
  }

  /** A chat with its creator as owner and the others named as members, blanks passed over. */
  predicate HasNamed(c: Chat, kind: Kind, creator: User, others: seq<User>) {
    && c.kind == kind && creator in c.members && c.members[creator] == Owner
    && (forall u | u in others && u != "" && u != creator :: u in c.members && c.members[u] == Member)
    && (forall u | u in c.members :: u == creator || (u in others && u != ""))
  }

  /** The insertions succeed for a fresh identifier and registered users, two of them if the chat is direct. */
  lemma CreateChatMeans(db: Db, id: Id, kind: Kind, creator: User, others: seq<User>)
    ensures var made := CreateChat(db, id, kind, creator, others);
            && (made.Some? <==> && id !in db.chats && creator in db.users
                                && (forall u | u in others && u != "" :: u in db.users)
                                && (kind == Direct ==> |MemberSet(creator, others)| == 2))
            && (made.Some? ==> && id in made.value.chats && HasNamed(made.value.chats[id], kind, creator, others)
                               && made.value == db.(chats := db.chats[id := made.value.chats[id]]))
  {
    var members := MemberSet(creator, others);
    assert creator in members;
    assert members <= db.users <==> creator in db.users && forall u | u in others && u != "" :: u in db.users by {
      if creator in db.users && forall u | u in others && u != "" :: u in db.users {
        assert members <= db.users;
      }
      if members <= db.users {
        forall u | u in others && u != "" ensures u in db.users {
          assert u in members;
        }
      }
    }
  }

  lemma {:induction false} GroupOutcome(db: Db, uid: User, ids: seq<User>, i: nat, id: Id, found: Option<Id>)
    requires i <= |ids|
    ensures RunAlone(db, Creating(uid, Group, ids, i), id, found) ==
            if MayInvite(db.friends, uid, Group, ids[i..]) then OrRefused(db, CreateChat(db, id, Group, uid, ids)) else (db, false)
    decreases |ids| - i
  {
    Unfold(db, Creating(uid, Group, ids, i), id, found);
    if i == |ids| {
      Unfold(db, CreatingNow(uid, Group, ids), id, found);
    } else {
      GroupOutcome(db, uid, ids, i + 1, id, found);
      assert ids[i..][0] == ids[i] && ids[i..][1..] == ids[i + 1..];
      assert forall j | 0 < j < |ids[i..]| :: ids[i..][j] == ids[i + 1..][j - 1];
    }
  }

  lemma CreatingDecides(db: Db, uid: User, kind: Kind, ids: seq<User>, id: Id, found: Option<Id>)
    ensures RunAlone(db, Creating(uid, kind, ids, 0), id, found) ==
            if MayInvite(db.friends, uid, kind, ids) then OrRefused(db, CreateChat(db, id, kind, uid, ids)) else (db, false)
  {
    assert ids[0..] == ids;
    if kind == Group {
      GroupOutcome(db, uid, ids, 0, id, found);
    } else {
      Unfold(db, Creating(uid, kind, ids, 0), id, found);
      Unfold(db, CreatingNow(uid, kind, ids), id, found);
    }
  }

  lemma OneOther(uid: User, ids: seq<User>)
    requires |ids| == 1
    ensures MemberSet(uid, ids) == if ids[0] == "" then {uid} else {uid, ids[0]}
    ensures |MemberSet(uid, ids)| == 2 <==> ids[0] != "" && ids[0] != uid
  {
    assert ids == [ids[0]];
    assert |{uid}| == 1;
  }

  /**
    Creating a chat succeeds exactly if everybody named is registered and may be invited: for a group a friend,
    oneself or a blank, for a direct chat exactly one friend. It then adds this chat alone, and otherwise nothing.
  */
  lemma CreateOutcome(db: Db, uid: User, kind: Kind, ids: seq<User>, id: Id, found: Option<Id>)
    ensures var x := RunAlone(db, Creating(uid, kind, ids, 0), id, found);
            && (x.1 <==> && id !in db.chats && uid in db.users && (forall u | u in ids && u != "" :: u in db.users)
                         && match kind
                            case Group => forall u | u in ids :: u == "" || u == uid || AreFriends(db.friends, uid, u)
                            case Direct => |ids| == 1 && ids[0] != "" && AreFriends(db.friends, uid, ids[0]))
            && (!x.1 ==> x.0 == db)
            && (x.1 ==> && id in x.0.chats && HasNamed(x.0.chats[id], kind, uid, ids)
                        && x.0 == db.(chats := db.chats[id := x.0.chats[id]]))
  {
    CreatingDecides(db, uid, kind, ids, id, found);
    CreateChatMeans(db, id, kind, uid, ids);
    if kind == Direct && |ids| == 1 {
      OneOther(uid, ids);
    }
  }

  /** Adding a member succeeds exactly for a member of a group who adds a registered friend, or names themselves. */
  lemma AddMemberOutcome(db: Db, uid: User, chat: Id, user: User, id: Id, found: Option<Id>)
    ensures var x := RunAlone(db, Adding(uid, chat, user), id, found);
            && (x.1 <==> && (user == uid || AreFriends(db.friends, uid, user)) && user in db.users
                         && chat in db.chats && uid in db.chats[chat].members && db.chats[chat].kind == Group)
            && (!x.1 || user in db.chats[chat].members ==> x.0 == db)
            && (x.1 && user !in db.chats[chat].members ==>
                  var c := db.chats[chat];
                  x.0 == db.(chats := db.chats[chat := Chat(Group, c.members[user := Member])]))
  {
    Unfold(db, Adding(uid, chat, user), id, found);
    Unfold(db, AddingAs(uid, chat, user), id, found);
    Unfold(db, AddingTo(uid, chat, user), id, found);
    Unfold(db, AddingNow(uid, chat, user), id, found);
  }

  /**
    Befriending succeeds exactly if the two differ and both are registered. Then exactly they are friends on
    top of who was before, in both directions; nothing else changes, and otherwise nothing at all.
  */
  lemma BefriendOutcome(db: Db, uid: User, other: User, id: Id, found: Option<Id>, x: User, y: User)
    ensures var r := RunAlone(db, Befriending(uid, other), id, found);
            && (r.1 <==> uid != other && uid in db.users && other in db.users)
            && r.0 == db.(friends := r.0.friends)
            && (AreFriends(r.0.friends, x, y) <==>
                  AreFriends(db.friends, x, y) || (r.1 && ((x, y) == (uid, other) || (x, y) == (other, uid))))
  {
    Unfold(db, Befriending(uid, other), id, found);
    Unfold(db, BefriendingNow(uid, other), id, found);
    if uid != other {
      AddFriendshipAddsOnePair(db.friends, uid, other, x, y);
    }
  }

  /**
    Asking for the direct chat with a friend: one that the database finds is returned; else exactly that chat is
    added, if both are registered and the identifier is fresh. Nobody gets one with a stranger.
  */
  lemma EnsureOutcome(db: Db, uid: User, other: User, id: Id, found: Option<Id>)
    ensures var x := RunAlone(db, Ensuring(uid, other), id, found);
            var exists' := found.Some? && IsDirectOf(db, found.value, uid, other);
            var creates := id !in db.chats && uid in db.users && other in db.users && other != "";
            && (x.1 <==> AreFriends(db.friends, uid, other) && (exists' || creates))
            && x.0 == if x.1 && !exists' then db.(chats := db.chats[id := Chat(Direct, map[uid := Owner, other := Member])])
                      else db
  {
    Unfold(db, Ensuring(uid, other), id, found);
    Unfold(db, Finding(uid, other), id, found);
    Unfold(db, CreatingNow(uid, Direct, [other]), id, found);
    OneOther(uid, [other]);
    CreateChatMeans(db, id, Direct, uid, [other]);
    var made := CreateChat(db, id, Direct, uid, [other]);
    if made.Some? {
      assert made.value.chats[id].members == map[uid := Owner, other := Member];
    }
  }

  // ---------- runs that get somewhere ----------

  lemma RunPlus(actions: seq<Action>, a: Action)
    ensures Run(actions + [a]) == Apply(Run(actions), a)
  {
    assert (actions + [a])[..|actions|] == actions;
  }

  /** One statement of a handler, which leaves what its whole call does as it was. */
  lemma HandlerSteps(actions: seq<Action>, k: nat, id: Id, found: Option<Id>)
    requires k < |Run(actions).tasks| && !Run(actions).tasks[k].Done?
    ensures var s := Run(actions); var x := Step(s.db, s.tasks[k], id, found);
            && Run(actions + [Advance(k, id, found)]) == Sys(x.0, s.tasks[k := x.1])
            && Rank(x.1) < Rank(s.tasks[k])
            && RunAlone(s.db, s.tasks[k], id, found) == RunAlone(x.0, x.1, id, found)
  {
    var s := Run(actions);
    RunPlus(actions, Advance(k, id, found));
    Unfold(s.db, s.tasks[k], id, found);
    StepRanks(s.db, s.tasks[k], id, found);
  }

  /** Handler k has come to its end with this result; the others are where they were. */
  predicate Ended(s: Sys, v: Sys, k: nat, r: (Db, bool)) {
    k < |s.tasks| && v == Sys(r.0, s.tasks[k := Done(r.1)])
  }

  lemma EndedThen(s: Sys, m: Sys, v: Sys, k: nat, r: (Db, bool))
    requires k < |s.tasks| == |m.tasks| && m.tasks == s.tasks[k := m.tasks[k]] && Ended(m, v, k, r)
    ensures Ended(s, v, k, r)
  {
  }

  lemma EndedAtOnce(s: Sys, k: nat)
    requires k < |s.tasks| && s.tasks[k].Done?
    ensures Ended(s, s, k, (s.db, s.tasks[k].ok))
  {
    assert s.tasks[k := s.tasks[k]] == s.tasks;
  }

  /** From any reachable state, a handler that is let run does what the whole call does. */
  lemma {:induction false} HandlerAlone(actions: seq<Action>, k: nat, id: Id, found: Option<Id>) returns (n: nat)
    requires k < |Run(actions).tasks|
    ensures var s := Run(actions);
            Ended(s, Run(actions + Repeat(Advance(k, id, found), n)), k, RunAlone(s.db, s.tasks[k], id, found))
    decreases Rank(Run(actions).tasks[k])
  {
    var s, a := Run(actions), Advance(k, id, found);
    if s.tasks[k].Done? {
      n := 0;
      NoMore(actions, a);
      EndedAtOnce(s, k);
    } else {
      HandlerSteps(actions, k, id, found);
      var m := HandlerAlone(actions + [a], k, id, found);
      OnceMore(actions, a, m);
      n := m + 1;
      EndedThen(s, Run(actions + [a]), Run(actions + Repeat(a, n)), k, RunAlone(s.db, s.tasks[k], id, found));
    }
  }

  /** A request that arrives and is let run. */
  lemma Served(actions: seq<Action>, t: Task, id: Id, found: Option<Id>) returns (more: seq<Action>)
    requires IsStart(t)
    ensures actions <= more
    ensures Run(more).db == RunAlone(Run(actions).db, t, id, found).0
  {
    var k := |Run(actions).tasks|;
    RunPlus(actions, Begin(t));
    var n := HandlerAlone(actions + [Begin(t)], k, id, found);
    more := actions + [Begin(t)] + Repeat(Advance(k, id, found), n);
    Regrouped(actions, [Begin(t)], Repeat(Advance(k, id, found), n));
  }

  lemma Registers(actions: seq<Action>, a: User, b: User) returns (more: seq<Action>)
    requires a != "" && b != ""
    ensures actions <= more && Run(more).db == Run(actions).db.(users := Run(actions).db.users + {a} + {b})
  {
    RunPlus(actions, Register(a));
    RunPlus(actions + [Register(a)], Register(b));
    more := actions + [Register(a)] + [Register(b)];
  }

  /**
    Any two users can become friends and get a direct chat: from every reachable state, the empty one among
    them, the run goes on to one in which they are friends and the chat with the fresh identifier is theirs.
  */
  lemma FriendsGetDirectChat(actions: seq<Action>, a: User, b: User, id: Id) returns (more: seq<Action>)
    requires a != "" && b != "" && a != b && id !in Run(actions).db.chats
    ensures actions <= more && AreFriends(Run(more).db.friends, a, b)
    ensures id in Run(more).db.chats && Run(more).db.chats[id] == Chat(Direct, map[a := Owner, b := Member])
  {
    var m1 := Registers(actions, a, b);
    BefriendOutcome(Run(m1).db, a, b, id, None, a, b);
    var m2 := Served(m1, Befriending(a, b), id, None);
    EnsureOutcome(Run(m2).db, a, b, id, None);
    more := Served(m2, Ensuring(a, b), id, None);
  }

  class ChatService {
    var users: set<User>
    var friends: Rows
    var chats: map<Id, Chat>

    ghost function View(): Db
      reads this
    {
      Db(users, friends, chats)
    }

    constructor ()
      ensures View() == EMPTY.db
    {
      users, friends, chats := {}, {}, map[];
    }

    /** Collects the members, then inserts them row by row; nothing is kept unless every insert succeeds. */
    method NewChat(kind: Kind, creator: User, others: seq<User>, id: Id) returns (ok: bool)
      modifies this`chats
      ensures ok <==> CreateChat(old(View()), id, kind, creator, others).Some?
      ensures View() == if ok then CreateChat(old(View()), id, kind, creator, others).value else old(View())
    {
      var members := CollectMembers(creator, others);
      if kind == Direct && |members| != 2 {
        return false;
      }
      if id in chats {
        return false;
      }
      var rows := InsertMembers(creator, members);
      if rows.None? {
        return false;
      }
      chats := chats[id := Chat(kind, rows.value)];
      return true;
    }

    method CollectMembers(creator: User, others: seq<User>) returns (members: set<User>)
      ensures members == MemberSet(creator, others)
    {
      members := {creator};
      for i := 0 to |others|
        invariant members == MemberSet(creator, others[..i])
      {
        assert others[..i + 1] == others[..i] + [others[i]];
        if others[i] != "" {
          members := members + {others[i]};
        }
      }
      assert others[..|others|] == others;
    }

    /** The insertions of the transaction, in the order in which the map yields the members. */
    method InsertMembers(creator: User, members: set<User>) returns (rows: Option<map<User, Role>>)
      ensures rows.None? <==> !(members <= users)
      ensures rows.Some? ==> rows.value == map u | u in members :: if u == creator then Owner else Member
    {
      var out: map<User, Role> := map[];
      var rest := members;
      while rest != {}
        invariant rest <= members && out.Keys == members - rest && out.Keys <= users
        invariant forall u | u in out :: out[u] == if u == creator then Owner else Member
        decreases rest
      {
        var u :| u in rest;
        if u !in users {
          return None;
        }
        out := out[u := if u == creator then Owner else Member];
        rest := rest - {u};
      }
      return Some(out);
    }

    method HandleCreate(uid: User, kind: Kind, ids: seq<User>, id: Id) returns (ok: bool)
      modifies this`chats
      ensures (View(), ok) == RunAlone(old(View()), Creating(uid, kind, ids, 0), id, None)
    {
      ghost var db := View();
      if kind == Group {
        for i := 0 to |ids|
          invariant View() == db
          invariant RunAlone(db, Creating(uid, kind, ids, 0), id, None) == RunAlone(db, Creating(uid, kind, ids, i), id, None)
        {
          Unfold(db, Creating(uid, kind, ids, i), id, None);
          if ids[i] == "" || ids[i] == uid {
            continue;
          }
          if !AreFriends(friends, uid, ids[i]) {
            return false;
          }
        }
        Unfold(db, Creating(uid, kind, ids, |ids|), id, None);
      } else {
        Unfold(db, Creating(uid, kind, ids, 0), id, None);
        if |ids| != 1 {
          return false;
        }
        if !AreFriends(friends, uid, ids[0]) {
          return false;
        }
      }
      Unfold(db, CreatingNow(uid, kind, ids), id, None);
      ok := NewChat(kind, uid, ids, id);
    }

    method FindDirect(a: User, b: User) returns (found: Option<Id>)
      ensures found.Some? ==> IsDirectOf(View(), found.value, a, b)
      ensures found.None? ==> forall id :: !IsDirectOf(View(), id, a, b)
    {
      var rest := chats.Keys;
      while rest != {}
        invariant forall id | id in chats && id !in rest :: !IsDirectOf(View(), id, a, b)
        decreases rest
      {
        var id :| id in rest;
        if chats[id].kind == Direct && |chats[id].members| == 2 && a in chats[id].members && b in chats[id].members {
          return Some(id);
        }
        rest := rest - {id};
      }
      return None;
    }

    /** Get or create: an existing direct chat of the two is returned, whichever the database finds first. */
    method HandleEnsureDirect(uid: User, other: User, id: Id) returns (ok: bool, found: Option<Id>)
      modifies this`chats
      ensures (View(), ok) == RunAlone(old(View()), Ensuring(uid, other), id, found)
      ensures found.Some? ==> View() == old(View()) && IsDirectOf(View(), found.value, uid, other)
      ensures found.None? && ok ==> forall i :: !IsDirectOf(old(View()), i, uid, other)
    {
      ghost var db := View();
      Unfold(db, Ensuring(uid, other), id, None);
      if !AreFriends(friends, uid, other) {
        return false, None;
      }
      found := FindDirect(uid, other);
      Unfold(db, Ensuring(uid, other), id, found);
      Unfold(db, Finding(uid, other), id, found);
      if found.Some? {
        return true, found;
      }
      Unfold(db, CreatingNow(uid, Direct, [other]), id, found);
      ok := NewChat(Direct, uid, [other], id);
    }

    method HandleAddMember(uid: User, chat: Id, user: User) returns (ok: bool)
      modifies this`chats
      ensures (View(), ok) == RunAlone(old(View()), Adding(uid, chat, user), "", None)
      ensures ok ==> chat in chats && user in chats[chat].members
      ensures ok <==> && (user == uid || AreFriends(friends, uid, user)) && user in users
                      && chat in old(chats) && uid in old(chats)[chat].members && old(chats)[chat].kind == Group
    {
      ghost var db := View();
      Unfold(db, Adding(uid, chat, user), "", None);
      Unfold(db, AddingAs(uid, chat, user), "", None);
      Unfold(db, AddingTo(uid, chat, user), "", None);
      Unfold(db, AddingNow(uid, chat, user), "", None);
      if user != uid {
        if !AreFriends(friends, uid, user) {
          return false;
        }
      }
      if chat !in chats || uid !in chats[chat].members {
        return false;
      }
      if chats[chat].kind == Direct {
        return false;
      }
      if user !in users {
        return false;
      }
      if user !in chats[chat].members {
        chats := chats[chat := chats[chat].(members := chats[chat].members[user := Member])];
      }
      return true;
    }

    method HandleAddFriend(uid: User, other: User) returns (ok: bool)
      modifies this`friends
      ensures (View(), ok) == RunAlone(old(View()), Befriending(uid, other), "", None)
      ensures ok <==> uid != other && uid in users && other in users
      ensures friends == if ok then old(friends) + {Pair(uid, other)} else old(friends)
    {
      Unfold(View(), Befriending(uid, other), "", None);
      Unfold(View(), BefriendingNow(uid, other), "", None);
      if uid == other || other !in users {
        return false;
      }
      if uid !in users {
        return false;
      }
      friends := friends + {Pair(uid, other)};
      return true;
    }
  }
}
