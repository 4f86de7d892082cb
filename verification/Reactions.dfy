/** The reaction table, its event log, and the view a client folds out of the events. */
module Reactions {
  import opened Common
  import opened Runes
  import opened Store
  import Seqs

  /** A published change: chat.reaction.updated. */
  datatype Event = Event(key: Key, add: bool)

  // ---------- the table ----------

  function KeyOf(r: Reaction): Key {
    Key(r.message, r.user, r.emoji)
  }

  predicate Has(rows: seq<Reaction>, k: Key) {
    exists i :: 0 <= i < |rows| && KeyOf(rows[i]) == k
  }

  ghost predicate Distinct(rows: seq<Reaction>) {
    forall i, j | 0 <= i < j < |rows| :: KeyOf(rows[i]) != KeyOf(rows[j])
  }

  /** INSERT ... ON CONFLICT DO NOTHING. */
  function Add(rows: seq<Reaction>, r: Reaction): seq<Reaction> {
    if Has(rows, KeyOf(r)) then rows else rows + [r]
  }

  /** DELETE by primary key. */
  function Remove(rows: seq<Reaction>, k: Key): (out: seq<Reaction>)
    ensures forall r :: r in out <==> r in rows && KeyOf(r) != k
    ensures |out| <= |rows|
  {
    if rows == [] then []
    else
      var rest := Remove(rows[..|rows| - 1], k);
      if KeyOf(rows[|rows| - 1]) == k then rest else rest + [rows[|rows| - 1]]
  }

  function Change(rows: seq<Reaction>, e: Event, at: Time): seq<Reaction> {
    if e.add then Add(rows, Reaction(e.key.message, e.key.user, e.key.emoji, at)) else Remove(rows, e.key)
  }

  /** A change is published exactly when it altered the table. */
  predicate Alters(rows: seq<Reaction>, e: Event) {
    e.add != Has(rows, e.key)
  }

  lemma {:induction false} RemoveKeepsDistinct(rows: seq<Reaction>, k: Key)
    requires Distinct(rows)
    ensures Distinct(Remove(rows, k)) && !Has(Remove(rows, k), k)
  {
    if rows != [] {
      RemoveKeepsDistinct(rows[..|rows| - 1], k);
    }
  }

  lemma ChangeMeansEvent(rows: seq<Reaction>, e: Event, at: Time, k: Key)
    requires Distinct(rows)
    ensures Distinct(Change(rows, e, at))
    ensures Has(Change(rows, e, at), k) <==> if k == e.key then e.add else Has(rows, k)
  {
    var out := Change(rows, e, at);
    if e.add {
      var r := Reaction(e.key.message, e.key.user, e.key.emoji, at);
      if !Has(rows, e.key) {
        assert out[|rows|] == r && out[..|rows|] == rows;
        if Has(rows, k) {
          var i :| 0 <= i < |rows| && KeyOf(rows[i]) == k;
          assert KeyOf(out[i]) == k;
        }
      }
    } else {
      RemoveKeepsDistinct(rows, e.key);
      if Has(rows, k) && k != e.key {
        var i :| 0 <= i < |rows| && KeyOf(rows[i]) == k;
        assert rows[i] in out;
      }
      if Has(out, k) {
        var i :| 0 <= i < |out| && KeyOf(out[i]) == k;
        assert out[i] in rows;
      }
    }
  }

  // ---------- handlers run one at a time ----------

  /** A reaction request as it reaches the table, with the time the database gives a new row. */
  datatype Request = Request(e: Event, at: Time)

  datatype State = State(rows: seq<Reaction>, log: seq<Event>)

  function Serve(s: State, q: Request): State {
    State(Change(s.rows, q.e, q.at), if Alters(s.rows, q.e) then s.log + [q.e] else s.log)
  }

  function Served(qs: seq<Request>): State {
    if qs == [] then State([], []) else Serve(Served(qs[..|qs| - 1]), qs[|qs| - 1])
  }

  // ---------- what an event log means for one key ----------

  function Last(log: seq<Event>, k: Key): Option<bool> {
    if log == [] then None
    else if log[|log| - 1].key == k then Some(log[|log| - 1].add)
    else Last(log[..|log| - 1], k)
  }

  lemma {:induction false} LastOfConcat(a: seq<Event>, b: seq<Event>, k: Key)
    ensures Last(a + b, k) == if Last(b, k).Some? then Last(b, k) else Last(a, k)
  {
    if b == [] {
      assert a + b == a;
    } else {
      assert (a + b)[..|a + b| - 1] == a + b[..|b| - 1];
      LastOfConcat(a, b[..|b| - 1], k);
    }
  }

  /** The table holds a key exactly when the last published change of that key added it. */
  lemma {:induction false} TableFollowsLog(qs: seq<Request>, k: Key)
    ensures Distinct(Served(qs).rows)
    ensures Has(Served(qs).rows, k) <==> Last(Served(qs).log, k) == Some(true)
  {
    if qs != [] {
      var s, q := Served(qs[..|qs| - 1]), qs[|qs| - 1];
      TableFollowsLog(qs[..|qs| - 1], k);
      ChangeMeansEvent(s.rows, q.e, q.at, k);
      var t := Serve(s, q);
      if t.log != s.log {
        assert t.log[..|t.log| - 1] == s.log;
      }
    }
  }

  lemma {:induction false} LogGrows(qs: seq<Request>, n: nat)
    requires n <= |qs|
    ensures Served(qs[..n]).log <= Served(qs).log
  {
    if n < |qs| {
      var most := qs[..|qs| - 1];
      assert most[..n] == qs[..n];
      LogGrows(most, n);
    } else {
      assert qs[..n] == qs;
    }
  }

  // ---------- the client ----------

  datatype Bucket = Bucket(emoji: Bytes, users: seq<Id>)

  function Find(bs: seq<Bucket>, emoji: Bytes): (b: Option<Bucket>)
    ensures b.Some? ==> b.value in bs && b.value.emoji == emoji
  {
    if bs == [] then None else if bs[0].emoji == emoji then Some(bs[0]) else Find(bs[1..], emoji)
  }

  function DropBucket(bs: seq<Bucket>, emoji: Bytes): seq<Bucket> {
    if bs == [] then [] else (if bs[0].emoji == emoji then [] else [bs[0]]) + DropBucket(bs[1..], emoji)
  }

  function SetUsers(bs: seq<Bucket>, emoji: Bytes, us: seq<Id>): seq<Bucket> {
    if bs == [] then []
    else [if bs[0].emoji == emoji then bs[0].(users := us) else bs[0]] + SetUsers(bs[1..], emoji, us)
  }

  /** mergeReactionEvent on one message's buckets. */
  function Merge(bs: seq<Bucket>, user: Id, emoji: Bytes, add: bool): seq<Bucket> {
    var b := Find(bs, emoji);
    if !add then
      if b.None? then bs
      else
        var left := Seqs.Without(b.value.users, user);
        if left == [] then DropBucket(bs, emoji) else SetUsers(bs, emoji, left)
    else if b.None? then bs + [Bucket(emoji, [user])]
    else if user !in b.value.users then SetUsers(bs, emoji, b.value.users + [user])
    else bs
  }

  /** One bucket per emoji, no empty bucket, no user twice in a bucket. */
  predicate Tidy(bs: seq<Bucket>) {
    bs == [] || (Find(bs[1..], bs[0].emoji).None? && bs[0].users != [] && Seqs.Distinct(bs[0].users) && Tidy(bs[1..]))
  }

  function Users(bs: seq<Bucket>, emoji: Bytes): seq<Id> {
    match Find(bs, emoji) case None => [] case Some(b) => b.users
  }

  lemma {:induction false} TidyMeans(bs: seq<Bucket>)
    requires Tidy(bs)
    ensures forall i, j | 0 <= i < j < |bs| :: bs[i].emoji != bs[j].emoji
    ensures forall i | 0 <= i < |bs| :: bs[i].users != [] && Seqs.Distinct(bs[i].users)
  {
    if bs != [] {
      TidyMeans(bs[1..]);
      FindComplete(bs[1..], bs[0].emoji);
      assert forall j | 0 < j < |bs| :: bs[j] == bs[1..][j - 1];
    }
  }

  lemma {:induction false} FindComplete(bs: seq<Bucket>, e: Bytes)
    ensures Find(bs, e).None? <==> forall i | 0 <= i < |bs| :: bs[i].emoji != e
  {
    if bs != [] {
      FindComplete(bs[1..], e);
      assert forall i | 0 < i < |bs| :: bs[i] == bs[1..][i - 1];
      assert Find(bs, e).None? ==> bs[0].emoji != e;
    }
  }

  lemma {:induction false} TidyBucket(bs: seq<Bucket>, e: Bytes)
    requires Tidy(bs)
    ensures Seqs.Distinct(Users(bs, e)) && (Find(bs, e).Some? ==> Users(bs, e) != [])
  {
    if bs != [] {
      TidyBucket(bs[1..], e);
    }
  }

  lemma {:induction false} SetUsersEffect(bs: seq<Bucket>, emoji: Bytes, us: seq<Id>, e: Bytes)
    ensures Find(SetUsers(bs, emoji, us), e) ==
            if e == emoji && Find(bs, e).Some? then Some(Find(bs, e).value.(users := us)) else Find(bs, e)
  {
    if bs != [] {
      SetUsersEffect(bs[1..], emoji, us, e);
    }
  }

  lemma {:induction false} SetUsersTidy(bs: seq<Bucket>, emoji: Bytes, us: seq<Id>)
    requires Tidy(bs) && us != [] && Seqs.Distinct(us)
    ensures Tidy(SetUsers(bs, emoji, us))
  {
    if bs != [] {
      SetUsersTidy(bs[1..], emoji, us);
      SetUsersEffect(bs[1..], emoji, us, bs[0].emoji);
    }
  }

  lemma {:induction false} DropBucketEffect(bs: seq<Bucket>, emoji: Bytes, e: Bytes)
    ensures Find(DropBucket(bs, emoji), e) == if e == emoji then None else Find(bs, e)
  {
    if bs != [] {
      DropBucketEffect(bs[1..], emoji, e);
      if bs[0].emoji != emoji {
        assert DropBucket(bs, emoji)[1..] == DropBucket(bs[1..], emoji);
      } else {
        assert DropBucket(bs, emoji) == DropBucket(bs[1..], emoji);
      }
    }
  }

  lemma {:induction false} DropBucketTidy(bs: seq<Bucket>, emoji: Bytes)
    requires Tidy(bs)
    ensures Tidy(DropBucket(bs, emoji))
  {
    if bs != [] {
      DropBucketTidy(bs[1..], emoji);
      DropBucketEffect(bs[1..], emoji, bs[0].emoji);
      if bs[0].emoji != emoji {
        assert DropBucket(bs, emoji)[1..] == DropBucket(bs[1..], emoji);
      } else {
        assert DropBucket(bs, emoji) == DropBucket(bs[1..], emoji);
      }
    }
  }

  lemma {:induction false} FindInAppended(bs: seq<Bucket>, b: Bucket, e: Bytes)
    ensures Find(bs + [b], e) == if Find(bs, e).Some? then Find(bs, e) else if b.emoji == e then Some(b) else None
  {
    if bs == [] {
      assert bs + [b] == [b];
    } else {
      assert (bs + [b])[1..] == bs[1..] + [b];
      FindInAppended(bs[1..], b, e);
    }
  }

  lemma {:induction false} AppendTidy(bs: seq<Bucket>, b: Bucket)
    requires Tidy(bs) && Find(bs, b.emoji).None? && b.users != [] && Seqs.Distinct(b.users)
    ensures Tidy(bs + [b])
  {
    if bs == [] {
      assert bs + [b] == [b];
    } else {
      assert (bs + [b])[1..] == bs[1..] + [b];
      FindInAppended(bs[1..], b, bs[0].emoji);
      AppendTidy(bs[1..], b);
    }
  }

  /** Whatever event is merged, a tidy list stays tidy. */
  lemma MergeTidy(bs: seq<Bucket>, user: Id, emoji: Bytes, add: bool)
    requires Tidy(bs)
    ensures Tidy(Merge(bs, user, emoji, add))
  {
    var us := Users(bs, emoji);
    TidyBucket(bs, emoji);
    Seqs.WithoutIsDistinct(us, user);
    if Find(bs, emoji).None? {
      AppendTidy(bs, Bucket(emoji, [user]));
    } else if !add {
      DropBucketTidy(bs, emoji);
      if Seqs.Without(us, user) != [] {
        SetUsersTidy(bs, emoji, Seqs.Without(us, user));
      }
    } else if user !in us {
      Seqs.DistinctGrows(us, user);
      SetUsersTidy(bs, emoji, us + [user]);
    }
  }

  /** One user's change, seen under any emoji: it appends or takes out just that user under that emoji. */
  lemma MergeEffect(bs: seq<Bucket>, user: Id, emoji: Bytes, add: bool, e: Bytes)
    ensures Users(Merge(bs, user, emoji, add), e) ==
            if e != emoji then Users(bs, e)
            else if !add then Seqs.Without(Users(bs, e), user)
            else if user in Users(bs, e) then Users(bs, e)
            else Users(bs, e) + [user]
  {
    var us := Users(bs, emoji);
    if Find(bs, emoji).None? {
      FindInAppended(bs, Bucket(emoji, [user]), e);
    } else if !add {
      DropBucketEffect(bs, emoji, e);
      SetUsersEffect(bs, emoji, Seqs.Without(us, user), e);
    } else {
      SetUsersEffect(bs, emoji, us + [user], e);
    }
  }

  /** A loaded message; only its reactions matter here. */
  datatype Item = Item(id: Id, reactions: seq<Bucket>)

  function FindItem(items: seq<Item>, id: Id): Option<Item> {
    if items == [] then None else if items[0].id == id then Some(items[0]) else FindItem(items[1..], id)
  }

  function SetReactions(items: seq<Item>, id: Id, bs: seq<Bucket>): seq<Item> {
    if items == [] then []
    else [if items[0].id == id then items[0].(reactions := bs) else items[0]] + SetReactions(items[1..], id, bs)
  }

  /** mergeReactionEvent on the whole list. */
  function MergeEvent(items: seq<Item>, e: Event): seq<Item> {
    if e.key.message == "" || e.key.user == "" || e.key.emoji == [] then items
    else
      match FindItem(items, e.key.message)
      case None => items
      case Some(m) => SetReactions(items, e.key.message, Merge(m.reactions, e.key.user, e.key.emoji, e.add))
  }

  function Fold(items: seq<Item>, log: seq<Event>): seq<Item> {
    if log == [] then items else MergeEvent(Fold(items, log[..|log| - 1]), log[|log| - 1])
  }

  lemma {:induction false} SetReactionsEffect(items: seq<Item>, id: Id, bs: seq<Bucket>, x: Id)
    requires FindItem(items, id).Some?
    ensures FindItem(SetReactions(items, id, bs), x) ==
            if x == id then Some(FindItem(items, id).value.(reactions := bs)) else FindItem(items, x)
  {
    if items[0].id != id {
      SetReactionsEffect(items[1..], id, bs, x);
    } else if x != id {
      OtherItem(items[1..], id, bs, x);
    }
  }

  lemma {:induction false} OtherItem(items: seq<Item>, id: Id, bs: seq<Bucket>, x: Id)
    requires x != id
    ensures FindItem(SetReactions(items, id, bs), x) == FindItem(items, x)
  {
    if items != [] {
      OtherItem(items[1..], id, bs, x);
    }
  }

  /** The users a client shows under an emoji of a message. */
  function Shown(items: seq<Item>, id: Id, emoji: Bytes): seq<Id> {
    match FindItem(items, id) case None => [] case Some(m) => Users(m.reactions, emoji)
  }

  predicate Loaded(items: seq<Item>, id: Id) {
    FindItem(items, id).Some?
  }

  predicate TidyAt(items: seq<Item>, id: Id) {
    Loaded(items, id) && Tidy(FindItem(items, id).value.reactions)
  }

  predicate Named(e: Event) {
    e.key.message != "" && e.key.user != "" && e.key.emoji != []
  }

  lemma MergeEventEffect(items: seq<Item>, e: Event, id: Id, emoji: Bytes)
    requires TidyAt(items, id) && Named(e)
    ensures TidyAt(MergeEvent(items, e), id)
    ensures Shown(MergeEvent(items, e), id, emoji) ==
            var before := Shown(items, id, emoji);
            if e.key.message != id || e.key.emoji != emoji then before
            else if !e.add then Seqs.Without(before, e.key.user)
            else if e.key.user in before then before
            else before + [e.key.user]
  {
    var m := FindItem(items, e.key.message);
    if m.Some? {
      SetReactionsEffect(items, e.key.message, Merge(m.value.reactions, e.key.user, e.key.emoji, e.add), id);
      if e.key.message == id {
        MergeTidy(m.value.reactions, e.key.user, e.key.emoji, e.add);
        MergeEffect(m.value.reactions, e.key.user, e.key.emoji, e.add, emoji);
      }
    }
  }

  /** The client holds a reaction exactly when the last folded change of it added it, or it was there before. */
  lemma {:induction false} FoldFollowsLog(items: seq<Item>, log: seq<Event>, k: Key)
    requires TidyAt(items, k.message) && forall e | e in log :: Named(e)
    ensures TidyAt(Fold(items, log), k.message)
    ensures k.user in Shown(Fold(items, log), k.message, k.emoji)
       <==> if Last(log, k).Some? then Last(log, k).value else k.user in Shown(items, k.message, k.emoji)
  {
    if log != [] {
      FoldFollowsLog(items, log[..|log| - 1], k);
      var before, e := Fold(items, log[..|log| - 1]), log[|log| - 1];
      MergeEventEffect(before, e, k.message, k.emoji);
      Seqs.WithoutHas(Shown(before, k.message, k.emoji), e.key.user, k.user);
      assert e.key == Key(e.key.message, e.key.user, e.key.emoji);
    }
  }

  /** A client that loaded its list from the table in state s shows each loaded message as the table has it. */
  ghost predicate Snapshot(items: seq<Item>, rows: seq<Reaction>, id: Id) {
    TidyAt(items, id) && forall e :: Shown(items, id, e) == UsersOf(rows, id, e)
  }

  /** The users of a (message, emoji) group in row order, which is created_at order. */
  function UsersOf(rows: seq<Reaction>, id: Id, emoji: Bytes): (us: seq<Id>)
    ensures forall u :: u in us <==> exists i :: 0 <= i < |rows| && KeyOf(rows[i]) == Key(id, u, emoji)
  {
    if rows == [] then []
    else
      var r := rows[|rows| - 1];
      var us := UsersOf(rows[..|rows| - 1], id, emoji);
      assert forall i | 0 <= i < |rows| - 1 :: rows[..|rows| - 1][i] == rows[i];
      if r.message == id && r.emoji == emoji then us + [r.user] else us
  }

  /**
    Convergence with overlap: load a snapshot after n requests, then fold every event from any position of
    the log that is not later than the snapshot, up to the end. Whatever was folded twice, the client shows
    a reaction exactly when the table has it.
  */
  lemma ReactionsConverge(qs: seq<Request>, n: nat, from: nat, items: seq<Item>, k: Key)
    requires n <= |qs| && from <= |Served(qs[..n]).log| <= |Served(qs).log|
    requires Snapshot(items, Served(qs[..n]).rows, k.message)
    requires forall q | q in qs :: Named(q.e)
    ensures TidyAt(Fold(items, Served(qs).log[from..]), k.message)
    ensures k.user in Shown(Fold(items, Served(qs).log[from..]), k.message, k.emoji) <==> Has(Served(qs).rows, k)
  {
    var early, all := Served(qs[..n]).log, Served(qs).log;
    LogGrows(qs, n);
    LogIsNamed(qs);
    TableFollowsLog(qs[..n], k);
    TableFollowsLog(qs, k);
    FoldFollowsLog(items, all[from..], k);
    assert Shown(items, k.message, k.emoji) == UsersOf(Served(qs[..n]).rows, k.message, k.emoji);
    OverlapIsHarmless(early, all, from, k);
  }

  /** Replaying from an earlier position changes nothing: the last change decides, wherever it is. */
  lemma OverlapIsHarmless(early: seq<Event>, all: seq<Event>, from: nat, k: Key)
    requires from <= |early| && early <= all
    ensures Last(all, k) == if Last(all[from..], k).Some? then Last(all[from..], k) else Last(early, k)
  {
    LastOfSplit(all, |early|, k);
    LastOfSplit(early, from, k);
    LastOfSplit(all[from..], |early| - from, k);
    assert all[..|early|] == early && all[from..][..|early| - from] == early[from..];
    assert all[from..][|early| - from..] == all[|early|..];
  }

  lemma LastOfSplit(log: seq<Event>, n: nat, k: Key)
    requires n <= |log|
    ensures Last(log, k) == if Last(log[n..], k).Some? then Last(log[n..], k) else Last(log[..n], k)
  {
    LastOfConcat(log[..n], log[n..], k);
    assert log[..n] + log[n..] == log;
  }

  lemma {:induction false} LogIsNamed(qs: seq<Request>)
    requires forall q | q in qs :: Named(q.e)
    ensures forall e | e in Served(qs).log :: Named(e)
  {
    if qs != [] {
      LogIsNamed(qs[..|qs| - 1]);
    }
  }

  // ---------- order ----------

  ghost predicate InTimeOrder(rows: seq<Reaction>) {
    forall i, j | 0 <= i < j < |rows| :: rows[i].at < rows[j].at
  }

  /** Each request is given a later time than the ones before it. */
  ghost predicate Ticking(qs: seq<Request>) {
    forall i, j | 0 <= i < j < |qs| :: qs[i].at < qs[j].at
  }

  lemma {:induction false} RemoveInTimeOrder(rows: seq<Reaction>, k: Key)
    requires InTimeOrder(rows)
    ensures InTimeOrder(Remove(rows, k))
  {
    if rows != [] {
      RemoveInTimeOrder(rows[..|rows| - 1], k);
      assert forall r | r in Remove(rows[..|rows| - 1], k) :: r.at < rows[|rows| - 1].at;
    }
  }

  /** Rows stay in created_at order, so listing a group by created_at is listing it in row order. */
  lemma {:induction false} TableInTimeOrder(qs: seq<Request>)
    requires Ticking(qs)
    ensures InTimeOrder(Served(qs).rows)
    ensures forall r | r in Served(qs).rows :: qs != [] && r.at <= qs[|qs| - 1].at
  {
    if qs != [] {
      var s, q := Served(qs[..|qs| - 1]), qs[|qs| - 1];
      TableInTimeOrder(qs[..|qs| - 1]);
      if !q.e.add {
        RemoveInTimeOrder(s.rows, q.e.key);
      }
    }
  }

  lemma {:induction false} UsersOfRemoved(rows: seq<Reaction>, k: Key, id: Id, e: Bytes)
    ensures UsersOf(Remove(rows, k), id, e) ==
            if k.message == id && k.emoji == e then Seqs.Without(UsersOf(rows, id, e), k.user) else UsersOf(rows, id, e)
  {
    if rows != [] {
      var r, most := rows[|rows| - 1], rows[..|rows| - 1];
      UsersOfRemoved(most, k, id, e);
      var rest := Remove(most, k);
      assert (rest + [r])[..|rest|] == rest;
      Seqs.WithoutAppended(UsersOf(most, id, e), r.user, k.user);
    }
  }

  /** What one request does to the listing of a group. */
  lemma UsersOfChanged(rows: seq<Reaction>, q: Request, id: Id, e: Bytes)
    ensures UsersOf(Change(rows, q.e, q.at), id, e) ==
            var before := UsersOf(rows, id, e);
            if !Alters(rows, q.e) || q.e.key.message != id || q.e.key.emoji != e then before
            else if q.e.add then before + [q.e.key.user]
            else Seqs.Without(before, q.e.key.user)
  {
    if q.e.add {
      var r := Reaction(q.e.key.message, q.e.key.user, q.e.key.emoji, q.at);
      assert (rows + [r])[..|rows|] == rows;
    } else {
      UsersOfRemoved(rows, q.e.key, id, e);
      if !Has(rows, q.e.key) && q.e.key.message == id && q.e.key.emoji == e {
        Seqs.WithoutAbsent(UsersOf(rows, id, e), q.e.key.user);
      }
    }
  }

  lemma FoldStep(items: seq<Item>, log: seq<Event>, a: nat, e: Event)
    requires a <= |log|
    ensures Fold(items, (log + [e])[a..]) == MergeEvent(Fold(items, log[a..]), e)
  {
    assert (log + [e])[a..] == log[a..] + [e];
    assert (log[a..] + [e])[..|log[a..]|] == log[a..];
  }

  /** A client and the table that list the same users still do after a change that altered the table. */
  lemma SameListsAfter(items: seq<Item>, rows: seq<Reaction>, q: Request, id: Id, e: Bytes)
    requires TidyAt(items, id) && Named(q.e) && Alters(rows, q.e) && Shown(items, id, e) == UsersOf(rows, id, e)
    ensures TidyAt(MergeEvent(items, q.e), id)
    ensures Shown(MergeEvent(items, q.e), id, e) == UsersOf(Change(rows, q.e, q.at), id, e)
  {
    MergeEventEffect(items, q.e, id, e);
    UsersOfChanged(rows, q, id, e);
  }

  /**
    Refinement without overlap: when the events after the snapshot are folded, each exactly once, the client
    lists the users of every emoji of a loaded message in the very order in which the table lists them.
  */
  lemma {:induction false} ClientListsLikeTable(qs: seq<Request>, n: nat, items: seq<Item>, id: Id, e: Bytes)
    requires n <= |qs| && |Served(qs[..n]).log| <= |Served(qs).log|
    requires Snapshot(items, Served(qs[..n]).rows, id)
    requires forall q | q in qs :: Named(q.e)
    ensures TidyAt(Fold(items, Served(qs).log[|Served(qs[..n]).log|..]), id)
    ensures Shown(Fold(items, Served(qs).log[|Served(qs[..n]).log|..]), id, e) == UsersOf(Served(qs).rows, id, e)
  {
    if n == |qs| {
      assert qs[..n] == qs;
      assert Served(qs).log[|Served(qs).log|..] == [];
    } else {
      var most, q := qs[..|qs| - 1], qs[|qs| - 1];
      assert most[..n] == qs[..n];
      LogGrows(most, n);
      ClientListsLikeTable(most, n, items, id, e);
      var a, log := |Served(qs[..n]).log|, Served(most).log;
      if Alters(Served(most).rows, q.e) {
        FoldStep(items, log, a, q.e);
        SameListsAfter(Fold(items, log[a..]), Served(most).rows, q, id, e);
      } else {
        UsersOfChanged(Served(most).rows, q, id, e);
      }
    }
  }

  /**
    Handlers that overlap can break convergence: the rows are written add first and remove second, the
    changes are published the other way round, and a client ends up showing a reaction nobody has.
  */
  lemma SwappedPublicationsDiverge(k: Key, at: Time)
    requires Named(Event(k, true))
    ensures !Has(Change(Change([], Event(k, true), at), Event(k, false), at), k)
    ensures k.user in Shown(Fold([Item(k.message, [])], [Event(k, false), Event(k, true)]), k.message, k.emoji)
  {
    ChangeMeansEvent([], Event(k, true), at, k);
    ChangeMeansEvent(Change([], Event(k, true), at), Event(k, false), at, k);
    var log := [Event(k, false), Event(k, true)];
    assert Last(log, k) == Some(true);
    FoldFollowsLog([Item(k.message, [])], log, k);
  }

  // ---------- the snapshot query ----------

  function Join(us: seq<Id>): string {
    if us == [] then "" else if |us| == 1 then us[0] else us[0] + "," + Join(us[1..])
  }

  /** Splitting at commas; the last piece is what follows the last comma. */
  function Pieces(s: string): (ps: seq<string>)
    ensures |ps| > 0
  {
    if s == "" then [""]
    else
      var ps := Pieces(s[1..]);
      if s[0] == ',' then [""] + ps else [[s[0]] + ps[0]] + ps[1..]
  }

  lemma {:induction false} PiecesOfOne(u: Id)
    requires ',' !in u
    ensures Pieces(u) == [u]
  {
    if u != "" {
      PiecesOfOne(u[1..]);
      assert [u[0]] + u[1..] == u;
    }
  }

  lemma {:induction false} PiecesOfTwo(u: Id, rest: string)
    requires ',' !in u
    ensures Pieces(u + "," + rest) == [u] + Pieces(rest)
  {
    var s := u + "," + rest;
    if u == "" {
      assert s[1..] == rest;
    } else {
      assert s[1..] == u[1..] + "," + rest;
      PiecesOfTwo(u[1..], rest);
      assert [u[0]] + u[1..] == u;
    }
  }

  lemma {:induction false} SplittingUndoesJoining(us: seq<Id>)
    requires us != [] && forall u | u in us :: ',' !in u
    ensures Pieces(Join(us)) == us
  {
    if |us| == 1 {
      PiecesOfOne(us[0]);
      assert us == [us[0]];
    } else {
      SplittingUndoesJoining(us[1..]);
      PiecesOfTwo(us[0], Join(us[1..]));
      assert [us[0]] + us[1..] == us;
    }
  }

  /** One line of the grouped query: string_agg(user_id, ',' ORDER BY created_at). */
  datatype Group = Group(message: Id, emoji: Bytes, csv: string)

  /** User identifiers as the database prints them. */
  predicate PlainId(trim: string -> string, u: Id) {
    u != "" && ',' !in u && trim(u) == u
  }

  function Trimmed(trim: string -> string, ps: seq<string>): seq<Id> {
    if ps == [] then []
    else
      var rest := Trimmed(trim, ps[..|ps| - 1]);
      if trim(ps[|ps| - 1]) != "" then rest + [trim(ps[|ps| - 1])] else rest
  }

  lemma {:induction false} TrimmedPlain(trim: string -> string, us: seq<Id>)
    requires forall u | u in us :: PlainId(trim, u)
    ensures Trimmed(trim, us) == us
  {
    if us != [] {
      TrimmedPlain(trim, us[..|us| - 1]);
      assert PlainId(trim, us[|us| - 1]);
      assert us[..|us| - 1] + [us[|us| - 1]] == us;
    }
  }

  function BucketOf(trim: string -> string, g: Group): Bucket {
    Bucket(g.emoji, if g.csv == "" then [] else Trimmed(trim, Pieces(g.csv)))
  }

  /** The buckets of one message, in the order the query returned them. */
  function BucketsOf(trim: string -> string, gs: seq<Group>, id: Id): seq<Bucket> {
    if gs == [] then []
    else
      var bs := BucketsOf(trim, gs[..|gs| - 1], id);
      if gs[|gs| - 1].message == id then bs + [BucketOf(trim, gs[|gs| - 1])] else bs
  }

  class ReactionRepository {
    var rows: seq<Reaction>

    constructor ()
      ensures rows == []
    {
      rows := [];
    }

    method Insert(r: Reaction) returns (inserted: bool)
      modifies this`rows
      ensures rows == Add(old(rows), r)
      ensures inserted <==> !Has(old(rows), KeyOf(r))
      ensures rows == if inserted then old(rows) + [r] else old(rows)
    {
      inserted := !Has(rows, KeyOf(r));
      if inserted {
        rows := rows + [r];
      }
    }

    method Delete(k: Key) returns (removed: bool)
      modifies this`rows
      ensures rows == Remove(old(rows), k)
      ensures removed <==> Has(old(rows), k)
      ensures forall r :: r in rows <==> r in old(rows) && KeyOf(r) != k
    {
      removed := Has(rows, k);
      rows := Remove(rows, k);
    }

    method ParseUsers(trim: string -> string, csv: string) returns (uids: seq<Id>)
      ensures uids == if csv == "" then [] else Trimmed(trim, Pieces(csv))
    {
      uids := [];
      if csv != "" {
        var ps := Pieces(csv);
        for j := 0 to |ps|
          invariant uids == Trimmed(trim, ps[..j])
        {
          var p := trim(ps[j]);
          assert ps[..j + 1][..j] == ps[..j];
          if p != "" {
            uids := uids + [p];
          }
        }
        assert ps[..|ps|] == ps;
      }
    }

    /** The grouped lines, parsed and collected by message; gs is what the query returned for ids. */
    method ListAggregated(trim: string -> string, ids: seq<Id>, gs: seq<Group>) returns (out: map<Id, seq<Bucket>>)
      ensures ids == [] ==> out == map[]
      ensures ids != [] ==> Collected(trim, gs, out)
      ensures Grouped(rows, ids, gs) && PlainRows(trim, rows) ==> ListsTable(rows, ids, out)
    {
      out := map[];
      if ids == [] {
        return;
      }
      for i := 0 to |gs|
        invariant Collected(trim, gs[..i], out)
      {
        var g := gs[i];
        var uids := ParseUsers(trim, g.csv);
        assert gs[..i + 1][..i] == gs[..i];
        out := out[g.message := (if g.message in out then out[g.message] else []) + [Bucket(g.emoji, uids)]];
      }
      assert gs[..|gs|] == gs;
      if Grouped(rows, ids, gs) && PlainRows(trim, rows) {
        CollectedListsTable(trim, rows, ids, gs, out);
      }
    }
  }

  function BucketsIn(out: map<Id, seq<Bucket>>, id: Id): seq<Bucket> {
    if id in out then out[id] else []
  }

  /** The buckets of every message asked for list the table's users, in the table's order. */
  ghost predicate ListsTable(rows: seq<Reaction>, ids: seq<Id>, out: map<Id, seq<Bucket>>) {
    forall id, e | id in ids :: ListsGroup(rows, out, id, e)
  }

  predicate ListsGroup(rows: seq<Reaction>, out: map<Id, seq<Bucket>>, id: Id, e: Bytes) {
    Tidy(BucketsIn(out, id)) && Users(BucketsIn(out, id), e) == UsersOf(rows, id, e)
  }

  lemma GroupsListTable(trim: string -> string, rows: seq<Reaction>, ids: seq<Id>, gs: seq<Group>, id: Id, e: Bytes)
    requires Grouped(rows, ids, gs) && PlainRows(trim, rows) && id in ids
    ensures Tidy(BucketsOf(trim, gs, id)) && Users(BucketsOf(trim, gs, id), e) == UsersOf(rows, id, e)
  {
    LoadedListIsSnapshot(trim, rows, gs, id, e);
    assert UsersOf(rows, id, e) != [] ==> Listed(gs, id, e);
  }

  lemma CollectedListsTable(trim: string -> string, rows: seq<Reaction>, ids: seq<Id>, gs: seq<Group>, out: map<Id, seq<Bucket>>)
    requires Grouped(rows, ids, gs) && PlainRows(trim, rows) && Collected(trim, gs, out)
    ensures ListsTable(rows, ids, out)
  {
    forall id, e | id in ids ensures ListsGroup(rows, out, id, e) {
      GroupsListTable(trim, rows, ids, gs, id, e);
      assert BucketsIn(out, id) == BucketsOf(trim, gs, id);
    }
  }

  ghost predicate Collected(trim: string -> string, gs: seq<Group>, out: map<Id, seq<Bucket>>) {
    forall id :: (id in out <==> BucketsOf(trim, gs, id) != []) && (id in out ==> out[id] == BucketsOf(trim, gs, id))
  }

  ghost predicate GroupsOf(rows: seq<Reaction>, gs: seq<Group>) {
    && (forall i, j | 0 <= i < j < |gs| :: gs[i].message != gs[j].message || gs[i].emoji != gs[j].emoji)
    && (forall g | g in gs :: UsersOf(rows, g.message, g.emoji) != []
                              && g.csv == Join(UsersOf(rows, g.message, g.emoji)))
  }

  ghost predicate PlainRows(trim: string -> string, rows: seq<Reaction>) {
    Distinct(rows) && forall r | r in rows :: PlainId(trim, r.user)
  }

  predicate Listed(gs: seq<Group>, id: Id, e: Bytes) {
    exists i :: 0 <= i < |gs| && gs[i].message == id && gs[i].emoji == e
  }

  lemma FewerGroups(rows: seq<Reaction>, gs: seq<Group>, id: Id, e: Bytes)
    requires GroupsOf(rows, gs) && gs != []
    ensures var g := gs[|gs| - 1];
            && GroupsOf(rows, gs[..|gs| - 1])
            && !Listed(gs[..|gs| - 1], g.message, g.emoji)
            && (Listed(gs, id, e) <==> Listed(gs[..|gs| - 1], id, e) || (g.message == id && g.emoji == e))
  {
    var most := gs[..|gs| - 1];
    assert forall i | 0 <= i < |most| :: most[i] == gs[i];
    if Listed(most, id, e) {
      var i :| 0 <= i < |most| && most[i].message == id && most[i].emoji == e;
      assert gs[i].message == id && gs[i].emoji == e;
    }
  }

  /** Whatever order the database returns its groups in, a freshly loaded list shows the table. */
  lemma {:induction false} LoadedListIsSnapshot(trim: string -> string, rows: seq<Reaction>, gs: seq<Group>, id: Id, e: Bytes)
    requires GroupsOf(rows, gs) && PlainRows(trim, rows)
    ensures Tidy(BucketsOf(trim, gs, id))
    ensures Users(BucketsOf(trim, gs, id), e) == if Listed(gs, id, e) then UsersOf(rows, id, e) else []
  {
    if gs != [] {
      var g, most := gs[|gs| - 1], gs[..|gs| - 1];
      FewerGroups(rows, gs, id, e);
      LoadedListIsSnapshot(trim, rows, most, id, e);
      if g.message == id {
        LoadedListIsSnapshot(trim, rows, most, id, g.emoji);
        GroupParses(trim, rows, g);
        UsersDistinct(rows, id, g.emoji);
        NewBucket(BucketsOf(trim, most, id), BucketOf(trim, g), e);
      }
    }
  }

  lemma NewBucket(bs: seq<Bucket>, b: Bucket, e: Bytes)
    requires Tidy(bs) && Users(bs, b.emoji) == [] && b.users != [] && Seqs.Distinct(b.users)
    ensures Tidy(bs + [b])
    ensures Users(bs + [b], e) == if e == b.emoji then b.users else Users(bs, e)
  {
    TidyBucket(bs, b.emoji);
    AppendTidy(bs, b);
    FindInAppended(bs, b, e);
  }

  lemma GroupParses(trim: string -> string, rows: seq<Reaction>, g: Group)
    requires UsersOf(rows, g.message, g.emoji) != [] && g.csv == Join(UsersOf(rows, g.message, g.emoji))
    requires PlainRows(trim, rows)
    ensures BucketOf(trim, g) == Bucket(g.emoji, UsersOf(rows, g.message, g.emoji))
  {
    var us := UsersOf(rows, g.message, g.emoji);
    forall u | u in us ensures PlainId(trim, u) {
      var i :| 0 <= i < |rows| && KeyOf(rows[i]) == Key(g.message, u, g.emoji);
      assert rows[i] in rows;
    }
    SplittingUndoesJoining(us);
    TrimmedPlain(trim, us);
    assert PlainId(trim, us[0]);
    assert g.csv != "" by {
      assert |us| == 1 ==> g.csv == us[0];
      assert |us| > 1 ==> |g.csv| >= |us[0]|;
    }
  }

  lemma {:induction false} UsersDistinct(rows: seq<Reaction>, id: Id, e: Bytes)
    requires Distinct(rows)
    ensures Seqs.Distinct(UsersOf(rows, id, e))
  {
    if rows != [] {
      var most, r := rows[..|rows| - 1], rows[|rows| - 1];
      UsersDistinct(most, id, e);
      if r.message == id && r.emoji == e {
        Seqs.DistinctGrows(UsersOf(most, id, e), r.user);
      }
    }
  }

  /** What GROUP BY message_id, emoji may return for these messages: each non-empty group once, in any order. */
  ghost predicate Grouped(rows: seq<Reaction>, ids: seq<Id>, gs: seq<Group>) {
    && GroupsOf(rows, gs)
    && (forall g | g in gs :: g.message in ids)
    && (forall id, e | id in ids && UsersOf(rows, id, e) != [] :: Listed(gs, id, e))
  }

  /** The list a client loads is a snapshot of the table for every message it asked for. */
  lemma HistoryIsSnapshot(trim: string -> string, rows: seq<Reaction>, ids: seq<Id>, gs: seq<Group>, items: seq<Item>, id: Id)
    requires Grouped(rows, ids, gs) && id in ids && PlainRows(trim, rows)
    requires FindItem(items, id) == Some(Item(id, BucketsOf(trim, gs, id)))
    ensures Snapshot(items, rows, id)
  {
    forall e ensures Shown(items, id, e) == UsersOf(rows, id, e) && TidyAt(items, id) {
      LoadedListIsSnapshot(trim, rows, gs, id, e);
    }
    LoadedListIsSnapshot(trim, rows, gs, id, []);
  }

  // ---------- the order of the buckets ----------

  function EmojisOf(bs: seq<Bucket>): (es: seq<Bytes>)
    ensures |es| == |bs| && forall i | 0 <= i < |bs| :: es[i] == bs[i].emoji
  {
    seq(|bs|, i requires 0 <= i < |bs| => bs[i].emoji)
  }

  lemma {:induction false} SetUsersKeepsOrder(bs: seq<Bucket>, emoji: Bytes, us: seq<Id>)
    ensures EmojisOf(SetUsers(bs, emoji, us)) == EmojisOf(bs)
  {
    if bs != [] {
      SetUsersKeepsOrder(bs[1..], emoji, us);
      EmojisCons(bs[0], bs[1..]);
      EmojisCons(SetUsers(bs, emoji, us)[0], SetUsers(bs[1..], emoji, us));
      assert [bs[0]] + bs[1..] == bs;
    }
  }

  lemma EmojisCons(b: Bucket, bs: seq<Bucket>)
    ensures EmojisOf([b] + bs) == [b.emoji] + EmojisOf(bs)
  {
  }

  lemma DropFirst(b: Bucket, rest: seq<Bucket>, emoji: Bytes)
    ensures DropBucket([b] + rest, emoji)
         == if b.emoji == emoji then DropBucket(rest, emoji) else [b] + DropBucket(rest, emoji)
  {
    assert ([b] + rest)[1..] == rest;
  }

  lemma {:induction false} DropBucketOrder(bs: seq<Bucket>, emoji: Bytes)
    ensures EmojisOf(DropBucket(bs, emoji)) == Seqs.Without(EmojisOf(bs), emoji)
  {
    if bs != [] {
      var b, rest := bs[0], bs[1..];
      DropBucketOrder(rest, emoji);
      assert [b] + rest == bs;
      EmojisCons(b, rest);
      Seqs.WithoutFirst(b.emoji, EmojisOf(rest), emoji);
      DropFirst(b, rest, emoji);
      EmojisCons(b, DropBucket(rest, emoji));
    }
  }

  lemma AddingKeepsOrder(bs: seq<Bucket>, user: Id, emoji: Bytes)
    requires Tidy(bs)
    ensures EmojisOf(Merge(bs, user, emoji, true)) ==
            if Users(bs, emoji) == [] then EmojisOf(bs) + [emoji] else EmojisOf(bs)
  {
    TidyBucket(bs, emoji);
    var b := Find(bs, emoji);
    if b.Some? {
      SetUsersKeepsOrder(bs, emoji, b.value.users + [user]);
    }
  }

  lemma RemovingKeepsOrder(bs: seq<Bucket>, user: Id, emoji: Bytes)
    requires Tidy(bs)
    ensures EmojisOf(Merge(bs, user, emoji, false)) ==
            if Users(bs, emoji) == [user] then Seqs.Without(EmojisOf(bs), emoji) else EmojisOf(bs)
  {
    TidyBucket(bs, emoji);
    var b := Find(bs, emoji);
    if b.Some? {
      OnlyOneLeft(b.value.users, user);
      if b.value.users == [user] {
        DropBucketOrder(bs, emoji);
      } else {
        SetUsersKeepsOrder(bs, emoji, Seqs.Without(b.value.users, user));
      }
    }
  }

  /**
    A merge leaves the buckets in their order: a new emoji comes last, one that nobody uses any more goes, and
    otherwise they stay the same.
  */
  lemma MergeKeepsOrder(bs: seq<Bucket>, user: Id, emoji: Bytes, add: bool)
    requires Tidy(bs)
    ensures EmojisOf(Merge(bs, user, emoji, add)) ==
            if add && Users(bs, emoji) == [] then EmojisOf(bs) + [emoji]
            else if !add && Users(bs, emoji) == [user] then Seqs.Without(EmojisOf(bs), emoji)
            else EmojisOf(bs)
  {
    if add {
      AddingKeepsOrder(bs, user, emoji);
    } else {
      RemovingKeepsOrder(bs, user, emoji);
    }
  }

  lemma OnlyOneLeft(us: seq<Id>, user: Id)
    requires Seqs.Distinct(us) && us != []
    ensures Seqs.Without(us, user) == [] <==> us == [user]
  {
    if us == [user] {
      Seqs.WithoutAppended([], user, user);
      assert [] + [user] == us;
    } else {
      var other := if us[0] != user then us[0] else us[1];
      Seqs.WithoutHas(us, user, other);
      assert other in us;
    }
  }

  /** The emojis of a message's groups, in the order of the query. */
  function GroupEmojis(gs: seq<Group>, id: Id): seq<Bytes> {
    if gs == [] then []
    else
      var es, last := GroupEmojis(gs[..|gs| - 1], id), gs[|gs| - 1];
      if last.message == id then es + [last.emoji] else es
  }

  /** The buckets of a loaded message stand in the order in which the query returned them. */
  lemma {:induction false} BucketsInQueryOrder(trim: string -> string, gs: seq<Group>, id: Id)
    ensures EmojisOf(BucketsOf(trim, gs, id)) == GroupEmojis(gs, id)
  {
    if gs != [] {
      BucketsInQueryOrder(trim, gs[..|gs| - 1], id);
    }
  }
}
