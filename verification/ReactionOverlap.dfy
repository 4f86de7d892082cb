/** A run of the pipeline in which two overlapping handlers leave a client wrong for good. */
module ReactionOverlap {
  import opened Common
  import opened Runes
  import opened Store
  import opened MessageService
  import opened Pipeline
  import opened ReactionPipeline
  import opened ReactionViews
  import R = Reactions

  /**
    From any state in which one handler is about to add a reaction nobody has and another is about to remove
    it, four steps write in that order and publish in the other.
  */
  lemma PublicationsSwap(lib: Lib, s: Sys, i: nat, j: nat, q: React, p: React, chat: Id, emoji: Bytes, id: Id, now: Time)
    requires i < |s.tasks| && j < |s.tasks| && i != j && id != ""
    requires s.tasks[i] == Reacting(q, Write(chat, emoji)) && s.tasks[j] == Reacting(p, Write(chat, emoji))
    requires q.add && !p.add && q.message == p.message && q.user == p.user
    requires R.Distinct(s.db.reactions) && !R.Has(s.db.reactions, Key(q.message, q.user, emoji))
    ensures var v := Swapped(lib, s, i, j, id, now); var k := Key(q.message, q.user, emoji);
            && !R.Has(v.db.reactions, k)
            && v.db.updated == s.db.updated + [Update(chat, R.Event(k, false)), Update(chat, R.Event(k, true))]
            && v.tasks == s.tasks[i := Reacting(q, Finished)][j := Reacting(p, Finished)]
            && v.db.rows == s.db.rows && v.redis == s.redis && v.fannedUpdates == s.fannedUpdates
  {
    var k := Key(q.message, q.user, emoji);
    var rows1 := R.Change(s.db.reactions, R.Event(k, true), now);
    R.ChangeMeansEvent(s.db.reactions, R.Event(k, true), now, k);
    R.ChangeMeansEvent(rows1, R.Event(k, false), now, k);
    var s1 := Apply(lib, s, Advance(i, id, now));
    assert s1.db.reactions == rows1 && s1.tasks[i] == Reacting(q, PublishUpdate(Update(chat, R.Event(k, true))));
    var s2 := Apply(lib, s1, Advance(j, id, now));
    assert s2.db.reactions == R.Change(rows1, R.Event(k, false), now);
    assert s2.tasks[j] == Reacting(p, PublishUpdate(Update(chat, R.Event(k, false))));
    var s3 := Apply(lib, s2, Advance(j, id, now));
    assert s3.db.updated == s.db.updated + [Update(chat, R.Event(k, false))];
  }

  /** Write the addition, write the removal, publish the removal, publish the addition. */
  function Swapped(lib: Lib, s: Sys, i: nat, j: nat, id: Id, now: Time): Sys {
    var s1 := Apply(lib, s, Advance(i, id, now));
    var s2 := Apply(lib, s1, Advance(j, id, now));
    Apply(lib, Apply(lib, s2, Advance(j, id, now)), Advance(i, id, now))
  }

  // ---------- a run that gets there ----------

  function FileRow(chat: Id, user: Id, id: Id): Row {
    Row(id, chat, user, "file", [], "", "", 0)
  }

  function Stored(chat: Id, user: Id, id: Id): Db {
    Db({(chat, user)}, [FileRow(chat, user, id)], [], map[], [], [])
  }

  lemma Joins(lib: Lib, chat: Id, user: Id) returns (actions: seq<Action>)
    requires chat != "" && user != ""
    ensures Run(lib, actions) == Sys(Db({(chat, user)}, [], [], map[], [], []), [], [], 0, 0) && Writes(lib, actions) == []
  {
    RunPlus(lib, [], Join(chat, user));
    WritesPlus(lib, [], Join(chat, user));
    actions := [] + [Join(chat, user)];
    assert Run(lib, []) == EMPTY && Writes(lib, []) == [];
  }

  lemma Enters(lib: Lib, actions: seq<Action>, t: Task) returns (more: seq<Action>)
    requires IsStart(lib, t)
    ensures Run(lib, more) == Run(lib, actions).(tasks := Run(lib, actions).tasks + [t])
    ensures Writes(lib, more) == Writes(lib, actions)
  {
    RunPlus(lib, actions, Begin(t));
    WritesPlus(lib, actions, Begin(t));
    more := actions + [Begin(t)];
  }

  /** The only handler, a posting one, makes a step. */
  lemma PostsOn(lib: Lib, actions: seq<Action>, q: Post, ps: PostStage, id: Id) returns (more: seq<Action>)
    requires Run(lib, actions).tasks == [Posting(q, ps)] && id != ""
    ensures var x := PostStep(lib, Run(lib, actions).db, q, ps, id, 0);
            Run(lib, more) == Run(lib, actions).(db := x.0, tasks := [Posting(q, x.1)])
    ensures Writes(lib, more) == Writes(lib, actions)
  {
    RunPlus(lib, actions, Advance(0, id, 0));
    WritesPlus(lib, actions, Advance(0, id, 0));
    more := actions + [Advance(0, id, 0)];
  }

  /** A member joins and posts a message. */
  lemma Posted(lib: Lib, chat: Id, user: Id, id: Id) returns (actions: seq<Action>, t: Task)
    requires chat != "" && user != "" && id != ""
    ensures Run(lib, actions) == Sys(Stored(chat, user, id), [t], [], 0, 0) && t.Posting? && Writes(lib, actions) == []
  {
    var q := Post(true, chat, user, "", "", "file", [], Some([]));
    t := Posting(q, Attach(FileRow(chat, user, id), true));
    var m0 := Joins(lib, chat, user);
    var m1 := Enters(lib, m0, Posting(q, CheckMember));
    var m2 := PostsOn(lib, m1, q, CheckMember, id);
    actions := PostsOn(lib, m2, q, Insert([], "file"), id);
  }

  function Request(chat: Id, user: Id, id: Id, emoji: Bytes, add: bool): React {
    React(false, chat, user, id, emoji, add)
  }

  /** The last handler makes one of its checks. */
  lemma Checks(lib: Lib, actions: seq<Action>, before: seq<Task>, q: React, rs: ReactStage, next: ReactStage) returns (more: seq<Action>)
    requires Run(lib, actions).tasks == before + [Reacting(q, rs)]
    requires ReactStep(lib, Run(lib, actions).db, q, rs, 0) == (Run(lib, actions).db, next) && !rs.Write?
    ensures Run(lib, more) == Run(lib, actions).(tasks := before + [Reacting(q, next)])
    ensures Writes(lib, more) == Writes(lib, actions)
  {
    var n := |before|;
    RunPlus(lib, actions, Advance(n, "x", 0));
    WritesPlus(lib, actions, Advance(n, "x", 0));
    more := actions + [Advance(n, "x", 0)];
    assert (before + [Reacting(q, rs)])[n := Reacting(q, next)] == before + [Reacting(q, next)];
  }

  /** One more handler gets as far as its write. */
  lemma GetsToWrite(lib: Lib, actions: seq<Action>, q: React, e: Bytes) returns (more: seq<Action>)
    requires !q.rest && q.chat != "" && q.user != "" && q.message != "" && Normalize(lib, q.emoji) == Some(e)
    requires (q.chat, q.user) in Run(lib, actions).db.members && InChat(Run(lib, actions).db.rows, q.message, q.chat)
    ensures Run(lib, more) == Run(lib, actions).(tasks := Run(lib, actions).tasks + [Reacting(q, Write(q.chat, e))])
    ensures Writes(lib, more) == Writes(lib, actions)
  {
    var tasks := Run(lib, actions).tasks;
    var m1 := Enters(lib, actions, Reacting(q, ReactorIsMember(q.chat, e)));
    var m2 := Checks(lib, m1, tasks, q, ReactorIsMember(q.chat, e), MessageInThisChat(q.chat, e));
    more := Checks(lib, m2, tasks, q, MessageInThisChat(q.chat, e), Write(q.chat, e));
  }

  lemma Ready(lib: Lib, chat: Id, user: Id, id: Id, emoji: Bytes, e: Bytes) returns (actions: seq<Action>, t: Task)
    requires chat != "" && user != "" && id != "" && Normalize(lib, emoji) == Some(e)
    ensures t.Posting?
    ensures Run(lib, actions) == Sys(Stored(chat, user, id),
                                     [t, Reacting(Request(chat, user, id, emoji, true), Write(chat, e)),
                                      Reacting(Request(chat, user, id, emoji, false), Write(chat, e))], [], 0, 0)
  {
    var before: seq<Action>;
    before, t := Posted(lib, chat, user, id);
    assert Run(lib, before).db.rows[0].id == id;
    var mid := GetsToWrite(lib, before, Request(chat, user, id, emoji, true), e);
    assert Run(lib, mid).db.rows[0].id == id;
    actions := GetsToWrite(lib, mid, Request(chat, user, id, emoji, false), e);
  }

  /** The swap and the copying of both changes, after a run that ended ready for it. */
  lemma SwapAndCopy(lib: Lib, before: seq<Action>, chat: Id, user: Id, id: Id, emoji: Bytes, e: Bytes, t: Task)
      returns (actions: seq<Action>)
    requires chat != "" && id != "" && e != [] && t.Posting?
    requires Run(lib, before) == Sys(Stored(chat, user, id),
                                     [t, Reacting(Request(chat, user, id, emoji, true), Write(chat, e)),
                                      Reacting(Request(chat, user, id, emoji, false), Write(chat, e))], [], 0, 0)
    ensures before <= actions
    ensures var v, k := Run(lib, actions), Key(id, user, e);
            && !R.Has(v.db.reactions, k) && CaughtUp(v, k) && v.db.rows == [FileRow(chat, user, id)]
            && Channel(v.redis, chat) == [R.Event(k, false), R.Event(k, true)]
  {
    var w, k := Advance(1, "x", 0), Key(id, user, e);
    var x := Advance(2, "x", 0);
    var s := Run(lib, before);
    RunPlus(lib, before, w);
    RunPlus(lib, before + [w], x);
    RunPlus(lib, before + [w] + [x], x);
    RunPlus(lib, before + [w] + [x] + [x], w);
    var swapped := before + [w] + [x] + [x] + [w];
    PublicationsSwap(lib, s, 1, 2, s.tasks[1].r, s.tasks[2].r, chat, e, "x", 0);
    assert Run(lib, swapped) == Swapped(lib, s, 1, 2, "x", 0);
    actions := CopiedBoth(lib, swapped, chat, R.Event(k, false), R.Event(k, true));
    assert forall i, u :: !Pends(Run(lib, actions).tasks, i, u);
  }

  /** The chat service copies two published changes. */
  lemma CopiedBoth(lib: Lib, before: seq<Action>, chat: Id, e1: R.Event, e2: R.Event) returns (actions: seq<Action>)
    requires Run(lib, before).db.updated == [Update(chat, e1), Update(chat, e2)]
    requires Run(lib, before).redis == [] && Run(lib, before).fannedUpdates == 0
    requires chat != "" && e1.key.message != "" && e2.key.message != ""
    ensures before <= actions
    ensures var s, v := Run(lib, before), Run(lib, actions);
            v.db == s.db && v.tasks == s.tasks && v.fannedUpdates == 2 && Channel(v.redis, chat) == [e1, e2]
  {
    RunPlus(lib, before, FanUpdate);
    RunPlus(lib, before + [FanUpdate], FanUpdate);
    actions := before + [FanUpdate] + [FanUpdate];
    var w1, w2 := ReactionWire(chat, e1), ReactionWire(chat, e2);
    assert Run(lib, before + [FanUpdate]).redis == [w1];
    assert Run(lib, actions).redis == [w1, w2];
    assert [w1][..0] == [] && [w1, w2][..1] == [w1];
    assert Channel([w1], chat) == [e1];
    assert Channel([w1, w2], chat) == Channel([w1], chat) + [e2];
  }

  /**
    Overlap diverges: for any chat, member, message and emoji there is a run of the handlers after which a
    client that merged every change into a list loaded before all of them shows a reaction nobody has.
  */
  lemma OverlapDiverges(lib: Lib, chat: Id, user: Id, id: Id, emoji: Bytes, e: Bytes)
    requires chat != "" && user != "" && id != "" && Normalize(lib, emoji) == Some(e)
    ensures exists actions, n, items: seq<R.Item> ::
              && Loaded(lib, actions, n, Client(0, 0, items), id) && InChat(Run(lib, actions).db.rows, id, chat)
              && CaughtUp(Run(lib, actions), Key(id, user, e))
              && !Right(lib, actions, chat, Client(0, 0, items), Key(id, user, e))
              && !R.Has(Run(lib, actions).db.reactions, Key(id, user, e))
  {
    var before, t := Ready(lib, chat, user, id, emoji, e);
    var actions := SwapAndCopy(lib, before, chat, user, id, emoji, e, t);
    var k, items := Key(id, user, e), [R.Item(id, [])];
    assert actions[..|before|] == before;
    assert Run(lib, actions).db.rows[0].id == id;
    assert Loaded(lib, actions, |before|, Client(0, 0, items), id);
    SwappedIsWrong(lib, actions, chat, items, k);
  }

  lemma SwappedIsWrong(lib: Lib, actions: seq<Action>, chat: Id, items: seq<R.Item>, k: Key)
    requires !R.Has(Run(lib, actions).db.reactions, k) && R.Snapshot(items, [], k.message) && R.Named(R.Event(k, true))
    requires Channel(Run(lib, actions).redis, chat) == [R.Event(k, false), R.Event(k, true)]
    ensures !Right(lib, actions, chat, Client(0, 0, items), k)
  {
    var received := Received(lib, actions, chat, 0);
    assert received == [R.Event(k, false)] + [R.Event(k, true)];
    LastAppended([R.Event(k, false)], R.Event(k, true), k);
    ViewIsFold(lib, actions, chat, Client(0, 0, items));
    SnapshotFolded(items, [], received, k);
  }

  // ---------- a change lost while the list is loaded ----------

  /** One handler writes and publishes, and its change is copied. */
  lemma AddsAlone(lib: Lib, before: seq<Action>, chat: Id, user: Id, id: Id, emoji: Bytes, e: Bytes, t: Task)
      returns (actions: seq<Action>)
    requires chat != "" && id != "" && t.Posting? && Writes(lib, before) == []
    requires Run(lib, before) == Sys(Stored(chat, user, id),
                                     [t, Reacting(Request(chat, user, id, emoji, true), Write(chat, e))], [], 0, 0)
    ensures before <= actions && |Writes(lib, actions)| == 1
    ensures var v, k := Run(lib, actions), Key(id, user, e);
            && R.Has(v.db.reactions, k) && CaughtUp(v, k) && v.db.rows == [FileRow(chat, user, id)]
            && Channel(v.redis, chat) == [R.Event(k, true)]
  {
    var k := Key(id, user, e);
    var u := Update(chat, R.Event(k, true));
    var m1 := WritesAlone(lib, before, chat, user, id, emoji, e, t);
    var m2 := AnnouncesAlone(lib, m1, Request(chat, user, id, emoji, true), t, u);
    actions := CopiedOne(lib, m2, chat, R.Event(k, true));
    assert Run(lib, actions).db.reactions[0] == Reaction(id, user, e, 0);
  }

  /** The chat service copies the one published change. */
  lemma CopiedOne(lib: Lib, before: seq<Action>, chat: Id, e: R.Event) returns (more: seq<Action>)
    requires Run(lib, before).db.updated == [Update(chat, e)] && chat != "" && e.key.message != ""
    requires Run(lib, before).redis == [] && Run(lib, before).fannedUpdates == 0
    ensures before <= more && Writes(lib, more) == Writes(lib, before)
    ensures var s, v := Run(lib, before), Run(lib, more);
            v.db == s.db && v.tasks == s.tasks && v.fannedUpdates == 1 && Channel(v.redis, chat) == [e]
  {
    RunPlus(lib, before, FanUpdate);
    WritesPlus(lib, before, FanUpdate);
    more := before + [FanUpdate];
    assert Run(lib, more).redis == [ReactionWire(chat, e)];
    assert [ReactionWire(chat, e)][..0] == [];
  }

  lemma WritesAlone(lib: Lib, before: seq<Action>, chat: Id, user: Id, id: Id, emoji: Bytes, e: Bytes, t: Task)
      returns (more: seq<Action>)
    requires Writes(lib, before) == []
    requires Run(lib, before) == Sys(Stored(chat, user, id),
                                     [t, Reacting(Request(chat, user, id, emoji, true), Write(chat, e))], [], 0, 0)
    ensures before <= more && |Writes(lib, more)| == 1
    ensures var u := Update(chat, R.Event(Key(id, user, e), true));
            Run(lib, more) == Sys(Stored(chat, user, id).(reactions := [Reaction(id, user, e, 0)]),
                                  [t, Reacting(Request(chat, user, id, emoji, true), PublishUpdate(u))], [], 0, 0)
  {
    var w, q := Advance(1, "x", 0), Request(chat, user, id, emoji, true);
    RunPlus(lib, before, w);
    WritesPlus(lib, before, w);
    more := before + [w];
    assert R.Alters([], R.Event(Key(id, user, e), true));
    assert R.Change([], R.Event(Key(id, user, e), true), 0) == [Reaction(id, user, e, 0)];
    assert Run(lib, more).tasks == [t, Reacting(q, PublishUpdate(Update(chat, R.Event(Key(id, user, e), true))))];
  }

  lemma AnnouncesAlone(lib: Lib, before: seq<Action>, q: React, t: Task, u: Update) returns (more: seq<Action>)
    requires Run(lib, before).tasks == [t, Reacting(q, PublishUpdate(u))] && Run(lib, before).db.updated == []
    ensures before <= more && Writes(lib, more) == Writes(lib, before)
    ensures Run(lib, more) == Run(lib, before).(db := Run(lib, before).db.(updated := [u]), tasks := [t, Reacting(q, Finished)])
  {
    RunPlus(lib, before, Advance(1, "x", 0));
    WritesPlus(lib, before, Advance(1, "x", 0));
    more := before + [Advance(1, "x", 0)];
    assert Run(lib, more).tasks == [t, Reacting(q, Finished)] && Run(lib, more).db.updated == [u];
  }

  /** Where nothing was written, nothing waits for publication. */
  lemma {:induction false} UnwrittenIsNotPending(lib: Lib, actions: seq<Action>)
    requires Writes(lib, actions) == []
    ensures forall i, u :: !Pends(Run(lib, actions).tasks, i, u)
  {
    if actions != [] {
      UnwrittenIsNotPending(lib, actions[..|actions| - 1]);
      StepMoves(lib, Run(lib, actions[..|actions| - 1]), actions[|actions| - 1]);
    }
  }

  /** A run with a single write has no overlap. */
  lemma {:induction false} OneWriteIsAlone(lib: Lib, actions: seq<Action>, scope: Scope)
    requires |Writes(lib, actions)| <= 1
    ensures OneAtATime(lib, actions, scope)
  {
    if actions != [] {
      OneWriteIsAlone(lib, actions[..|actions| - 1], scope);
      if LastEffect(lib, actions).Wrote? {
        UnwrittenIsNotPending(lib, actions[..|actions| - 1]);
      }
    }
  }

  /**
    Loading loses changes: with a single handler and no overlap of anything, a client whose list was read
    before the change and placed after it came does not show a reaction that the table has, although its
    socket delivered everything; a client whose list was placed in time shows it.
  */
  lemma LateListMisses(lib: Lib, chat: Id, user: Id, id: Id, emoji: Bytes, e: Bytes)
    requires chat != "" && user != "" && id != "" && Normalize(lib, emoji) == Some(e)
    ensures exists actions, n, items: seq<R.Item> ::
              var k := Key(id, user, e);
              && Loaded(lib, actions, n, Client(0, 1, items), id) && InChat(Run(lib, actions).db.rows, id, chat)
              && CaughtUp(Run(lib, actions), k) && OneAtATime(lib, actions, OfKey(k))
              && !Right(lib, actions, chat, Client(0, 1, items), k) && Right(lib, actions, chat, Client(0, 0, items), k)
  {
    var k, items := Key(id, user, e), [R.Item(id, [])];
    var posted, t := Posted(lib, chat, user, id);
    assert Run(lib, posted).db.rows[0].id == id;
    var before := GetsToWrite(lib, posted, Request(chat, user, id, emoji, true), e);
    var actions := AddsAlone(lib, before, chat, user, id, emoji, e, t);
    OneWriteIsAlone(lib, actions, OfKey(k));
    assert actions[..|before|] == before;
    assert Run(lib, actions).db.rows[0].id == id;
    LateAndEarly(lib, actions, chat, items, k);
    assert Loaded(lib, actions, |before|, Client(0, 1, items), id);
  }

  lemma LateAndEarly(lib: Lib, actions: seq<Action>, chat: Id, items: seq<R.Item>, k: Key)
    requires R.Has(Run(lib, actions).db.reactions, k) && Channel(Run(lib, actions).redis, chat) == [R.Event(k, true)]
    requires R.Snapshot(items, [], k.message) && R.Named(R.Event(k, true))
    ensures !Right(lib, actions, chat, Client(0, 1, items), k) && Right(lib, actions, chat, Client(0, 0, items), k)
  {
    ViewIsFold(lib, actions, chat, Client(0, 1, items));
    ViewIsFold(lib, actions, chat, Client(0, 0, items));
    assert Received(lib, actions, chat, 1) == [] && Received(lib, actions, chat, 0) == [R.Event(k, true)];
    SnapshotFolded(items, [], [], k);
    SnapshotFolded(items, [], [R.Event(k, true)], k);
  }
}
