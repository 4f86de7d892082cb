/**
  A client that loaded a chat and follows its Redis channel, while any number of handlers run: when its list
  agrees with the reaction table, and when it even lists users in the table's order.
*/
module ReactionViews {
  import opened Common
  import opened Runes
  import opened Store
  import opened MessageService
  import opened Pipeline
  import opened ReactionPipeline
  import R = Reactions
  import Seqs

  // ---------- a chat's channel ----------

  /** The reaction changes on a chat's channel, as its clients read them. */
  function Channel(ws: seq<Wire>, chat: Id): seq<R.Event> {
    if ws == [] then []
    else
      var w, rest := ws[|ws| - 1], Channel(ws[..|ws| - 1], chat);
      if w.ReactionWire? && w.chat == chat then rest + [w.e] else rest
  }

  /** The published changes of one chat. */
  function Of(us: seq<Update>, chat: Id): seq<R.Event> {
    if us == [] then []
    else
      var u, rest := us[|us| - 1], Of(us[..|us| - 1], chat);
      if u.chat == chat then rest + [u.e] else rest
  }

  lemma {:induction false} ChannelOfReactionWires(ws: seq<Wire>, chat: Id)
    ensures Channel(ws, chat) == Channel(ReactionWires(ws), chat)
  {
    if ws != [] {
      var w, most := ws[|ws| - 1], ws[..|ws| - 1];
      ChannelOfReactionWires(most, chat);
      if w.ReactionWire? {
        assert (ReactionWires(most) + [w])[..|ReactionWires(most)|] == ReactionWires(most);
      }
    }
  }

  lemma {:induction false} ChannelOfUpdates(us: seq<Update>, chat: Id)
    ensures Channel(UpdateEvents(us), chat) == Of(us, chat)
  {
    if us != [] {
      var u, most := us[|us| - 1], us[..|us| - 1];
      ChannelOfUpdates(most, chat);
      assert (UpdateEvents(most) + [ReactionWire(u.chat, u.e)])[..|UpdateEvents(most)|] == UpdateEvents(most);
    }
  }

  /** A chat's channel carries that chat's published changes, as far as the chat service has got. */
  lemma ChannelIsPublished(lib: Lib, actions: seq<Action>, chat: Id)
    ensures var s := Run(lib, actions);
            s.fannedUpdates <= |s.db.updated| && Channel(s.redis, chat) == Of(s.db.updated[..s.fannedUpdates], chat)
  {
    var s := Run(lib, actions);
    RunCopied(lib, actions);
    ChannelOfReactionWires(s.redis, chat);
    ChannelOfUpdates(s.db.updated[..s.fannedUpdates], chat);
  }

  lemma {:induction false} OfJoined(us: seq<Update>, ws: seq<Update>, chat: Id)
    ensures Of(us + ws, chat) == Of(us, chat) + Of(ws, chat)
  {
    if ws == [] {
      assert us + ws == us;
    } else {
      OfJoined(us, ws[..|ws| - 1], chat);
      assert (us + ws)[..|us + ws| - 1] == us + ws[..|ws| - 1];
    }
  }

  /** A position in the channel corresponds to one in the log. */
  lemma {:induction false} PositionInLog(us: seq<Update>, chat: Id, from: nat) returns (f: nat)
    requires from <= |Of(us, chat)|
    ensures f <= |us| && |Of(us[..f], chat)| == from
  {
    if from == |Of(us, chat)| {
      f := |us|;
      assert us[..f] == us;
    } else {
      f := PositionInLog(us[..|us| - 1], chat, from);
      assert us[..|us| - 1][..f] == us[..f];
    }
  }

  lemma OfFrom(us: seq<Update>, chat: Id, f: nat)
    requires f <= |us|
    ensures |Of(us[..f], chat)| <= |Of(us, chat)| && Of(us, chat)[|Of(us[..f], chat)|..] == Of(us[f..], chat)
  {
    OfJoined(us[..f], us[f..], chat);
    assert us[..f] + us[f..] == us;
  }

  /** All changes of this message were published for this chat. */
  ghost predicate AtHome(us: seq<Update>, message: Id, chat: Id) {
    forall u | u in us && u.e.key.message == message :: u.chat == chat
  }

  lemma {:induction false} LastOfChat(us: seq<Update>, chat: Id, k: Key)
    requires AtHome(us, k.message, chat)
    ensures R.Last(Of(us, chat), k) == R.Last(Log(us), k)
  {
    if us != [] {
      var u, most := us[|us| - 1], us[..|us| - 1];
      LastOfChat(most, chat, k);
      LastAppended(Of(most, chat), u.e, k);
      LastAppended(Log(most), u.e, k);
    }
  }

  lemma {:induction false} LogFrom(us: seq<Update>, f: nat)
    requires f <= |us|
    ensures Log(us[f..]) == Log(us)[f..]
  {
    assert forall i | 0 <= i < |us| - f :: us[f..][i] == us[f + i];
  }

  // ---------- the chat of a message ----------

  /** Every change, published or pending, names the chat of its message. */
  ghost predicate Homed(s: Sys) {
    && (forall u | u in s.db.updated :: InChat(s.db.rows, u.e.key.message, u.chat))
    && (forall i, u | Pends(s.tasks, i, u) :: InChat(s.db.rows, u.e.key.message, u.chat))
  }

  lemma InChatStays(rows: seq<Row>, more: seq<Row>, id: Id, chat: Id)
    requires rows <= more && InChat(rows, id, chat)
    ensures InChat(more, id, chat)
  {
    var i :| 0 <= i < |rows| && rows[i].id == id && rows[i].chat == chat;
    assert more[i] == rows[i];
  }

  lemma RowsGrow(lib: Lib, s: Sys, a: Action)
    ensures s.db.rows <= Apply(lib, s, a).db.rows
  {
  }

  lemma ApplyHomed(lib: Lib, s: Sys, a: Action)
    requires Homed(s) && Sound(lib, s)
    ensures Homed(Apply(lib, s, a))
  {
    var v, x := Apply(lib, s, a), EffectOf(s, a);
    StepMoves(lib, s, a);
    RowsGrow(lib, s, a);
    forall u | u in v.db.updated ensures InChat(v.db.rows, u.e.key.message, u.chat) {
      InChatStays(s.db.rows, v.db.rows, u.e.key.message, u.chat);
    }
    forall i, u | Pends(v.tasks, i, u) ensures InChat(v.db.rows, u.e.key.message, u.chat) {
      if x.Wrote? && i == x.i {
        WrittenAtHome(lib, s, a);
      }
      InChatStays(s.db.rows, v.db.rows, u.e.key.message, u.chat);
    }
  }

  lemma WrittenAtHome(lib: Lib, s: Sys, a: Action)
    requires Sound(lib, s) && EffectOf(s, a).Wrote?
    ensures InChat(s.db.rows, EffectOf(s, a).u.e.key.message, EffectOf(s, a).u.chat)
  {
    assert Knows(lib, s.db, s.tasks[a.k]);
  }

  lemma {:induction false} RunHomed(lib: Lib, actions: seq<Action>)
    ensures Homed(Run(lib, actions))
  {
    if actions != [] {
      RunHomed(lib, actions[..|actions| - 1]);
      RunSound(lib, actions[..|actions| - 1]);
      ApplyHomed(lib, Run(lib, actions[..|actions| - 1]), actions[|actions| - 1]);
    }
  }

  lemma OneChat(rows: seq<Row>, id: Id, chat: Id, other: Id)
    requires Keyed(rows) && InChat(rows, id, chat) && InChat(rows, id, other)
    ensures chat == other
  {
    var i :| 0 <= i < |rows| && rows[i].id == id && rows[i].chat == chat;
    var j :| 0 <= j < |rows| && rows[j].id == id && rows[j].chat == other;
    assert i == j;
  }

  lemma ChangesAtHome(lib: Lib, actions: seq<Action>, message: Id, chat: Id)
    requires InChat(Run(lib, actions).db.rows, message, chat)
    ensures AtHome(Run(lib, actions).db.updated, message, chat)
  {
    var s := Run(lib, actions);
    RunHomed(lib, actions);
    RowsAreKeyed(lib, actions);
    forall u | u in s.db.updated && u.e.key.message == message ensures u.chat == chat {
      OneChat(s.db.rows, message, chat, u.chat);
    }
  }

  lemma {:induction false} RunGrows(lib: Lib, actions: seq<Action>, n: nat)
    requires n <= |actions|
    ensures var s, v := Run(lib, actions[..n]), Run(lib, actions);
            s.db.updated <= v.db.updated && s.fannedUpdates <= v.fannedUpdates
  {
    if n < |actions| {
      var before := actions[..|actions| - 1];
      RunGrows(lib, before, n);
      assert before[..n] == actions[..n];
      StepMoves(lib, Run(lib, before), actions[|actions| - 1]);
    } else {
      assert actions[..n] == actions;
    }
  }

  // ---------- a client ----------

  /** Opening a chat empties the list; a change is merged into the list; a loaded history replaces it. */
  datatype Move = Opens | Merges(e: R.Event) | Places(items: seq<R.Item>)

  function Screen(moves: seq<Move>): seq<R.Item> {
    if moves == [] then []
    else
      match moves[|moves| - 1]
      case Opens => []
      case Merges(e) => R.MergeEvent(Screen(moves[..|moves| - 1]), e)
      case Places(items) => items
  }

  function Merging(es: seq<R.Event>): (moves: seq<Move>)
    ensures |moves| == |es|
  {
    if es == [] then [] else Merging(es[..|es| - 1]) + [Merges(es[|es| - 1])]
  }

  lemma {:induction false} MergingFolds(moves: seq<Move>, es: seq<R.Event>)
    ensures Screen(moves + Merging(es)) == R.Fold(Screen(moves), es)
  {
    if es == [] {
      assert moves + Merging(es) == moves;
    } else {
      var most := es[..|es| - 1];
      MergingFolds(moves, most);
      assert (moves + Merging(es))[..|moves| + |most|] == moves + Merging(most);
    }
  }

  /** Placing a loaded list forgets every change merged before it. */
  lemma PlacingForgets(moves: seq<Move>, items: seq<R.Item>, es: seq<R.Event>)
    ensures Screen(moves + [Places(items)] + Merging(es)) == R.Fold(items, es)
  {
    assert (moves + [Places(items)])[..|moves|] == moves;
    MergingFolds(moves + [Places(items)], es);
  }

  /**
    A client whose socket was subscribed when the chat's channel had sub entries, and whose loaded list was put
    in place when it had placed entries. The two race each other and the server's reading of the table.
  */
  datatype Client = Client(sub: nat, placed: nat, items: seq<R.Item>)

  function Since(channel: seq<R.Event>, from: nat): seq<R.Event> {
    if from <= |channel| then channel[from..] else []
  }

  function Between(channel: seq<R.Event>, from: nat, to: nat): seq<R.Event> {
    if from <= to <= |channel| then channel[from..to] else []
  }

  /** The first entry that is merged into the loaded list. */
  function From(cl: Client): nat {
    if cl.sub <= cl.placed then cl.placed else cl.sub
  }

  function Course(channel: seq<R.Event>, cl: Client): seq<Move> {
    [Opens] + Merging(Between(channel, cl.sub, cl.placed)) + [Places(cl.items)] + Merging(Since(channel, From(cl)))
  }

  /** What the client shows. */
  function View(lib: Lib, actions: seq<Action>, chat: Id, cl: Client): seq<R.Item> {
    Screen(Course(Channel(Run(lib, actions).redis, chat), cl))
  }

  function Received(lib: Lib, actions: seq<Action>, chat: Id, from: nat): seq<R.Event> {
    Since(Channel(Run(lib, actions).redis, chat), from)
  }

  /** Only what arrives after both the subscription and the placing shows. */
  lemma ViewIsFold(lib: Lib, actions: seq<Action>, chat: Id, cl: Client)
    ensures View(lib, actions, chat, cl) == R.Fold(cl.items, Received(lib, actions, chat, From(cl)))
  {
    var channel := Channel(Run(lib, actions).redis, chat);
    PlacingForgets([Opens] + Merging(Between(channel, cl.sub, cl.placed)), cl.items, Since(channel, From(cl)));
  }

  /** The client shows the reaction exactly when the table has it. */
  predicate Right(lib: Lib, actions: seq<Action>, chat: Id, cl: Client, k: Key) {
    k.user in R.Shown(View(lib, actions, chat, cl), k.message, k.emoji)
    <==> R.Has(Run(lib, actions).db.reactions, k)
  }

  /** The loaded list is what the table held after n steps. */
  ghost predicate Loaded(lib: Lib, actions: seq<Action>, n: nat, cl: Client, id: Id) {
    n <= |actions| && R.Snapshot(cl.items, Run(lib, actions[..n]).db.reactions, id)
  }

  /** Everything published has been copied, and no change of the key waits for publication. */
  ghost predicate CaughtUp(s: Sys, k: Key) {
    s.fannedUpdates == |s.db.updated| && !KeyPending(s.tasks, k)
  }

  /** What the client folded corresponds to the log from a position that is not later than its snapshot. */
  lemma FoldedIsLogged(lib: Lib, actions: seq<Action>, n: nat, chat: Id, from: nat, k: Key) returns (f: nat)
    requires n <= |actions| && from <= |Channel(Run(lib, actions[..n]).redis, chat)|
    requires Run(lib, actions).fannedUpdates == |Run(lib, actions).db.updated|
    requires InChat(Run(lib, actions).db.rows, k.message, chat)
    ensures f <= |Run(lib, actions[..n]).db.updated| && f <= |Run(lib, actions).db.updated|
    ensures R.Last(Received(lib, actions, chat, from), k) == R.Last(Log(Run(lib, actions).db.updated)[f..], k)
  {
    var s, v := Run(lib, actions[..n]), Run(lib, actions);
    ChannelIsPublished(lib, actions[..n], chat);
    ChannelIsPublished(lib, actions, chat);
    RunGrows(lib, actions, n);
    f := PositionInLog(s.db.updated[..s.fannedUpdates], chat, from);
    assert s.db.updated[..s.fannedUpdates][..f] == v.db.updated[..f];
    assert v.db.updated[..v.fannedUpdates] == v.db.updated;
    OfFrom(v.db.updated, chat, f);
    ChangesAtHome(lib, actions, k.message, chat);
    LastOfChat(v.db.updated[f..], chat, k);
    LogFrom(v.db.updated, f);
  }

  lemma LastOfPart(log: seq<R.Event>, f: nat, m: nat, k: Key)
    requires f <= m <= |log|
    ensures R.Last(log[f..], k).None? ==> R.Last(log[m..], k).None?
    ensures R.Last(log[f..], k).Some? ==> R.Last(log, k) == R.Last(log[f..], k)
  {
    R.LastOfConcat(log[f..m], log[m..], k);
    assert log[f..m] + log[m..] == log[f..];
    R.LastOfConcat(log[..f], log[f..], k);
    assert log[..f] + log[f..] == log;
  }

  /** With nothing of the key pending, a key that was not published since was not written since. */
  lemma UnpublishedIsUnwritten(lib: Lib, actions: seq<Action>, n: nat, f: nat, k: Key)
    requires n <= |actions| && !KeyPending(Run(lib, actions).tasks, k)
    requires f <= |Run(lib, actions[..n]).db.updated| && f <= |Run(lib, actions).db.updated|
    requires R.Last(Log(Run(lib, actions).db.updated)[f..], k).None?
    ensures R.Has(Run(lib, actions).db.reactions, k) <==> R.Has(Run(lib, actions[..n]).db.reactions, k)
  {
    WritesAreAccounted(lib, actions, n, k);
    LastOfPart(Log(Run(lib, actions).db.updated), f, |Run(lib, actions[..n]).db.updated|, k);
    TableFollowsWrites(lib, actions, k);
    TableFollowsWrites(lib, actions[..n], k);
  }

  lemma {:induction false} ChannelIsNamed(lib: Lib, actions: seq<Action>, chat: Id)
    ensures forall e | e in Channel(Run(lib, actions).redis, chat) :: R.Named(e)
  {
    var s := Run(lib, actions);
    ChannelIsPublished(lib, actions, chat);
    RunSound(lib, actions);
    assert forall u | u in s.db.updated :: UpdateNamed(u);
    OfIsNamed(s.db.updated[..s.fannedUpdates], chat);
  }

  lemma {:induction false} OfIsNamed(us: seq<Update>, chat: Id)
    requires forall u | u in us :: UpdateNamed(u)
    ensures forall e | e in Of(us, chat) :: R.Named(e)
  {
    if us != [] {
      OfIsNamed(us[..|us| - 1], chat);
      assert us[|us| - 1] in us;
    }
  }

  /** The last write of the reaction added it. */
  predicate LastAdded(lib: Lib, actions: seq<Action>, k: Key) {
    R.Last(Writes(lib, actions), k) == Some(true)
  }

  /**
    Exactly when a client's view of a reaction is right, at any moment, however handlers overlap and however
    the subscription and the loading race: if a change of it was merged into the loaded list, the last such
    change goes the same way as the last write; if none was, the last write now goes the same way as the last
    write before the list was read.
  */
  lemma ViewsAgreeExactlyWhen(lib: Lib, actions: seq<Action>, n: nat, chat: Id, cl: Client, k: Key)
    requires Loaded(lib, actions, n, cl, k.message)
    ensures Right(lib, actions, chat, cl, k) <==>
            match R.Last(Received(lib, actions, chat, From(cl)), k)
            case Some(added) => added == LastAdded(lib, actions, k)
            case None => LastAdded(lib, actions[..n], k) == LastAdded(lib, actions, k)
  {
    ViewIsFold(lib, actions, chat, cl);
    ChannelIsNamed(lib, actions, chat);
    SnapshotFolded(cl.items, Run(lib, actions[..n]).db.reactions, Received(lib, actions, chat, From(cl)), k);
    TableFollowsWrites(lib, actions, k);
    TableFollowsWrites(lib, actions[..n], k);
  }

  lemma SnapshotFolded(items: seq<R.Item>, rows: seq<Reaction>, received: seq<R.Event>, k: Key)
    requires R.Snapshot(items, rows, k.message) && forall e | e in received :: R.Named(e)
    ensures k.user in R.Shown(R.Fold(items, received), k.message, k.emoji)
       <==> if R.Last(received, k).Some? then R.Last(received, k).value else R.Has(rows, k)
  {
    R.FoldFollowsLog(items, received, k);
    assert R.Shown(items, k.message, k.emoji) == R.UsersOf(rows, k.message, k.emoji);
  }

  // ---------- handlers that do not overlap on one reaction or on one list ----------

  /** The changes of one reaction, or of all users under one emoji of one message. */
  datatype Scope = OfKey(k: Key) | OfGroup(message: Id, emoji: Bytes)

  predicate Covers(scope: Scope, k: Key) {
    match scope
    case OfKey(x) => k == x
    case OfGroup(message, emoji) => k.message == message && k.emoji == emoji
  }

  ghost predicate ScopePending(tasks: seq<Task>, scope: Scope) {
    exists i, u :: Pends(tasks, i, u) && Covers(scope, u.e.key)
  }

  /** No handler alters the table within the scope while a change within the scope waits for publication. */
  ghost predicate OneAtATime(lib: Lib, actions: seq<Action>, scope: Scope) {
    actions == [] ||
    (OneAtATime(lib, actions[..|actions| - 1], scope)
     && var x := LastEffect(lib, actions);
        x.Wrote? && Covers(scope, x.u.e.key) ==> !ScopePending(Run(lib, actions[..|actions| - 1]).tasks, scope))
  }

  ghost predicate AtMostOne(tasks: seq<Task>, scope: Scope) {
    forall i, u, j, w | Pends(tasks, i, u) && Pends(tasks, j, w) && Covers(scope, u.e.key) && Covers(scope, w.e.key) :: i == j
  }

  lemma StaysOne(s: Sys, v: Sys, x: Effect, scope: Scope)
    requires Moves(s, v, x) && AtMostOne(s.tasks, scope)
    requires x.Wrote? && Covers(scope, x.u.e.key) ==> !ScopePending(s.tasks, scope)
    ensures AtMostOne(v.tasks, scope)
  {
  }

  lemma {:induction false} AloneIsOne(lib: Lib, actions: seq<Action>, scope: Scope)
    requires OneAtATime(lib, actions, scope)
    ensures AtMostOne(Run(lib, actions).tasks, scope)
  {
    if actions != [] {
      AloneIsOne(lib, actions[..|actions| - 1], scope);
      StepMoves(lib, Run(lib, actions[..|actions| - 1]), actions[|actions| - 1]);
      StaysOne(Run(lib, actions[..|actions| - 1]), Run(lib, actions), LastEffect(lib, actions), scope);
    }
  }

  /** A pending change of the key is its last write; when none is pending, the last published change is. */
  ghost predicate InStep(s: Sys, last: Option<bool>, k: Key) {
    && (forall i, u | Pends(s.tasks, i, u) && u.e.key == k :: last == Some(u.e.add))
    && (!KeyPending(s.tasks, k) ==> R.Last(Log(s.db.updated), k) == last)
  }

  lemma PendingIsLast(s: Sys, v: Sys, x: Effect, scope: Scope, last: Option<bool>, i: nat, u: Update, k: Key)
    requires Moves(s, v, x) && Covers(scope, k) && InStep(s, last, k)
    requires x.Wrote? && Covers(scope, x.u.e.key) ==> !ScopePending(s.tasks, scope)
    requires Pends(v.tasks, i, u) && u.e.key == k
    ensures (if x.Wrote? && x.u.e.key == k then Some(x.u.e.add) else last) == Some(u.e.add)
  {
    if x.Wrote? && x.u.e.key == k && i != x.i {
      assert Pends(s.tasks, i, u);
      assert ScopePending(s.tasks, scope);
    }
  }

  lemma PublishedIsLast(s: Sys, v: Sys, x: Effect, last: Option<bool>, k: Key)
    requires Moves(s, v, x) && InStep(s, last, k) && !KeyPending(v.tasks, k)
    ensures R.Last(Log(v.db.updated), k) == last && !(x.Wrote? && x.u.e.key == k)
  {
    MovedPending(s, v, x, k);
    LogMoves(s, v, x, 0, k);
    assert Log(s.db.updated)[0..] == Log(s.db.updated) && Log(v.db.updated)[0..] == Log(v.db.updated);
    if i, u :| Pends(s.tasks, i, u) && u.e.key == k {
      assert !Pends(v.tasks, i, u);
      assert x.Announced? && i == x.i;
    }
  }

  lemma StaysInStep(s: Sys, v: Sys, x: Effect, scope: Scope, last: Option<bool>, k: Key)
    requires Moves(s, v, x) && Covers(scope, k) && InStep(s, last, k)
    requires x.Wrote? && Covers(scope, x.u.e.key) ==> !ScopePending(s.tasks, scope)
    ensures InStep(v, if x.Wrote? && x.u.e.key == k then Some(x.u.e.add) else last, k)
  {
    forall i, u | Pends(v.tasks, i, u) && u.e.key == k
      ensures (if x.Wrote? && x.u.e.key == k then Some(x.u.e.add) else last) == Some(u.e.add)
    {
      PendingIsLast(s, v, x, scope, last, i, u, k);
    }
    if !KeyPending(v.tasks, k) {
      PublishedIsLast(s, v, x, last, k);
    }
  }

  lemma {:induction false} AloneIsInStep(lib: Lib, actions: seq<Action>, scope: Scope, k: Key)
    requires OneAtATime(lib, actions, scope) && Covers(scope, k)
    ensures InStep(Run(lib, actions), R.Last(Writes(lib, actions), k), k)
  {
    if actions != [] {
      var before := actions[..|actions| - 1];
      AloneIsInStep(lib, before, scope, k);
      RunStep(lib, actions, k);
      StaysInStep(Run(lib, before), Run(lib, actions), LastEffect(lib, actions), scope, R.Last(Writes(lib, before), k), k);
    }
  }

  /** Without overlap on a reaction, the last change of it that a caught-up client received is the last write. */
  lemma LastReceivedIsLastWrite(lib: Lib, actions: seq<Action>, chat: Id, from: nat, k: Key)
    requires InChat(Run(lib, actions).db.rows, k.message, chat) && CaughtUp(Run(lib, actions), k)
    requires OneAtATime(lib, actions, OfKey(k)) && R.Last(Received(lib, actions, chat, from), k).Some?
    ensures R.Last(Received(lib, actions, chat, from), k) == R.Last(Writes(lib, actions), k)
  {
    var s := Run(lib, actions);
    AloneIsInStep(lib, actions, OfKey(k), k);
    ChannelIsPublished(lib, actions, chat);
    assert s.db.updated[..s.fannedUpdates] == s.db.updated;
    ChangesAtHome(lib, actions, k.message, chat);
    LastOfChat(s.db.updated, chat, k);
    LastOfPart(Channel(s.redis, chat), from, |Channel(s.redis, chat)|, k);
  }

  /**
    Exactly when a view is right if handlers do not overlap on the reaction and the client caught up: a change
    of it was merged into the loaded list, or it stands as it stood when the list was read. A change that came
    in between and was lost is made good by the next one.
  */
  lemma ViewsRightUnlessMissed(lib: Lib, actions: seq<Action>, n: nat, chat: Id, cl: Client, k: Key)
    requires Loaded(lib, actions, n, cl, k.message) && InChat(Run(lib, actions).db.rows, k.message, chat)
    requires CaughtUp(Run(lib, actions), k) && OneAtATime(lib, actions, OfKey(k))
    ensures Right(lib, actions, chat, cl, k) <==>
              R.Last(Received(lib, actions, chat, From(cl)), k).Some?
              || LastAdded(lib, actions[..n], k) == LastAdded(lib, actions, k)
  {
    ViewsAgreeExactlyWhen(lib, actions, n, chat, cl, k);
    if R.Last(Received(lib, actions, chat, From(cl)), k).Some? {
      LastReceivedIsLastWrite(lib, actions, chat, From(cl), k);
    }
  }

  /** Nothing within the scope came on the channel after the list was read and before entries reached the list. */
  ghost predicate NothingMissed(lib: Lib, actions: seq<Action>, n: nat, chat: Id, from: nat, scope: Scope)
    requires n <= |actions|
  {
    var channel := Channel(Run(lib, actions).redis, chat);
    forall i | |Channel(Run(lib, actions[..n]).redis, chat)| <= i < from && i < |channel| :: !Covers(scope, channel[i].key)
  }

  lemma ChannelGrows(lib: Lib, actions: seq<Action>, n: nat, chat: Id)
    requires n <= |actions|
    ensures |Channel(Run(lib, actions[..n]).redis, chat)| <= |Channel(Run(lib, actions).redis, chat)|
  {
    var s, v := Run(lib, actions[..n]), Run(lib, actions);
    ChannelIsPublished(lib, actions[..n], chat);
    ChannelIsPublished(lib, actions, chat);
    RunGrows(lib, actions, n);
    OfFrom(v.db.updated[..v.fannedUpdates], chat, s.fannedUpdates);
    assert v.db.updated[..v.fannedUpdates][..s.fannedUpdates] == s.db.updated[..s.fannedUpdates];
  }

  lemma {:induction false} LastOfNone(es: seq<R.Event>, k: Key)
    requires forall e | e in es :: e.key != k
    ensures R.Last(es, k).None?
  {
    if es != [] {
      assert es[|es| - 1] in es;
      LastOfNone(es[..|es| - 1], k);
    }
  }

  /** What was skipped between two positions did not concern the key. */
  lemma LastSkipping(channel: seq<R.Event>, a: nat, b: nat, k: Key)
    requires a <= |channel| && forall i | a <= i < b && i < |channel| :: channel[i].key != k
    requires R.Last(Since(channel, b), k).None?
    ensures R.Last(Since(channel, if a <= b then a else b), k).None?
  {
    if a <= b {
      var c := if b <= |channel| then b else |channel|;
      LastOfNone(channel[a..c], k);
      R.LastOfConcat(channel[a..c], channel[c..], k);
      assert channel[a..c] + channel[c..] == channel[a..];
    }
  }

  /** A key that was neither missed nor received since the list was read was not written since. */
  lemma UnmissedIsUnwritten(lib: Lib, actions: seq<Action>, n: nat, chat: Id, from: nat, k: Key)
    requires n <= |actions| && InChat(Run(lib, actions).db.rows, k.message, chat) && CaughtUp(Run(lib, actions), k)
    requires NothingMissed(lib, actions, n, chat, from, OfKey(k)) && R.Last(Received(lib, actions, chat, from), k).None?
    ensures LastAdded(lib, actions[..n], k) == LastAdded(lib, actions, k)
  {
    var a := |Channel(Run(lib, actions[..n]).redis, chat)|;
    ChannelGrows(lib, actions, n, chat);
    LastSkipping(Channel(Run(lib, actions).redis, chat), a, from, k);
    var f := FoldedIsLogged(lib, actions, n, chat, if a <= from then a else from, k);
    UnpublishedIsUnwritten(lib, actions, n, f, k);
    TableFollowsWrites(lib, actions, k);
    TableFollowsWrites(lib, actions[..n], k);
  }

  /**
    Convergence: if handlers do not overlap on this reaction, whatever else overlaps, and no change of it fell
    between the reading and the placing of the list, a client that caught up shows it exactly when the table
    has it.
  */
  lemma ViewsConverge(lib: Lib, actions: seq<Action>, n: nat, chat: Id, cl: Client, k: Key)
    requires Loaded(lib, actions, n, cl, k.message) && InChat(Run(lib, actions).db.rows, k.message, chat)
    requires CaughtUp(Run(lib, actions), k) && OneAtATime(lib, actions, OfKey(k))
    requires NothingMissed(lib, actions, n, chat, From(cl), OfKey(k))
    ensures Right(lib, actions, chat, cl, k)
  {
    ViewsRightUnlessMissed(lib, actions, n, chat, cl, k);
    if R.Last(Received(lib, actions, chat, From(cl)), k).None? {
      UnmissedIsUnwritten(lib, actions, n, chat, From(cl), k);
    }
  }

  // ---------- the order of users ----------

  /** What one change does to a list of users. */
  function Moved(us: seq<Id>, e: R.Event): seq<Id> {
    if !e.add then Seqs.Without(us, e.key.user) else if e.key.user in us then us else us + [e.key.user]
  }

  /** The client is behind the table by the pending change of the list, if there is one. */
  ghost predicate Behind(shown: seq<Id>, s: Sys, id: Id, emoji: Bytes) {
    var listed, scope := R.UsersOf(s.db.reactions, id, emoji), OfGroup(id, emoji);
    && (!ScopePending(s.tasks, scope) ==> shown == listed)
    && (forall i, u | Pends(s.tasks, i, u) && Covers(scope, u.e.key) :: listed == Moved(shown, u.e))
  }

  lemma WrittenList(rows: seq<Reaction>, e: R.Event, at: Time, id: Id, emoji: Bytes)
    requires R.Alters(rows, e)
    ensures R.UsersOf(R.Change(rows, e, at), id, emoji) ==
            if Covers(OfGroup(id, emoji), e.key) then Moved(R.UsersOf(rows, id, emoji), e) else R.UsersOf(rows, id, emoji)
  {
    R.UsersOfChanged(rows, R.Request(e, at), id, emoji);
    assert e.key == Key(e.key.message, e.key.user, e.key.emoji);
  }

  lemma BehindAfterWrite(shown: seq<Id>, s: Sys, v: Sys, x: Effect, id: Id, emoji: Bytes)
    requires Moves(s, v, x) && x.Wrote? && Behind(shown, s, id, emoji)
    requires Covers(OfGroup(id, emoji), x.u.e.key) ==> !ScopePending(s.tasks, OfGroup(id, emoji))
    ensures Behind(shown, v, id, emoji)
  {
    WrittenList(s.db.reactions, x.u.e, x.at, id, emoji);
    assert Pends(v.tasks, x.i, x.u);
    forall i, u | Pends(v.tasks, i, u) && Covers(OfGroup(id, emoji), u.e.key)
      ensures R.UsersOf(v.db.reactions, id, emoji) == Moved(shown, u.e)
    {
      assert i != x.i ==> Pends(s.tasks, i, u);
    }
    if ScopePending(s.tasks, OfGroup(id, emoji)) {
      var i, u :| Pends(s.tasks, i, u) && Covers(OfGroup(id, emoji), u.e.key);
      assert Pends(v.tasks, i, u);
    }
  }

  lemma BehindAfterAnnouncement(shown: seq<Id>, s: Sys, v: Sys, x: Effect, id: Id, emoji: Bytes)
    requires Moves(s, v, x) && x.Announced? && Behind(shown, s, id, emoji) && AtMostOne(s.tasks, OfGroup(id, emoji))
    ensures Behind(if Covers(OfGroup(id, emoji), x.u.e.key) then Moved(shown, x.u.e) else shown, v, id, emoji)
  {
    if !Covers(OfGroup(id, emoji), x.u.e.key) && ScopePending(s.tasks, OfGroup(id, emoji)) {
      var i, u :| Pends(s.tasks, i, u) && Covers(OfGroup(id, emoji), u.e.key);
      assert Pends(v.tasks, i, u);
    }
  }

  /** At the snapshot: a pending change is in the table already, and making it once more changes nothing. */
  lemma BehindAtSnapshot(lib: Lib, actions: seq<Action>, items: seq<R.Item>, id: Id, emoji: Bytes)
    requires OneAtATime(lib, actions, OfGroup(id, emoji)) && R.Snapshot(items, Run(lib, actions).db.reactions, id)
    ensures Behind(R.Shown(items, id, emoji), Run(lib, actions), id, emoji)
  {
    var s, scope := Run(lib, actions), OfGroup(id, emoji);
    var listed := R.UsersOf(s.db.reactions, id, emoji);
    assert R.Shown(items, id, emoji) == listed;
    forall i, u | Pends(s.tasks, i, u) && Covers(scope, u.e.key) ensures listed == Moved(listed, u.e) {
      AloneIsInStep(lib, actions, scope, u.e.key);
      TableFollowsWrites(lib, actions, u.e.key);
      assert u.e.key == Key(id, u.e.key.user, emoji);
      if !u.e.add {
        Seqs.WithoutAbsent(listed, u.e.key.user);
      }
    }
  }

  /** The list of a client that has folded the published log since step n. */
  function Folded(lib: Lib, actions: seq<Action>, n: nat, items: seq<R.Item>): seq<R.Item>
    requires n <= |actions| && |Run(lib, actions[..n]).db.updated| <= |Run(lib, actions).db.updated|
  {
    R.Fold(items, Log(Run(lib, actions).db.updated)[|Run(lib, actions[..n]).db.updated|..])
  }

  lemma FoldMoves(items: seq<R.Item>, s: Sys, v: Sys, x: Effect, n: nat, id: Id, emoji: Bytes)
    requires Moves(s, v, x) && n <= |s.db.updated| && (x.Announced? ==> R.Named(x.u.e))
    requires R.TidyAt(R.Fold(items, Log(s.db.updated)[n..]), id)
    ensures n <= |v.db.updated| && R.TidyAt(R.Fold(items, Log(v.db.updated)[n..]), id)
    ensures R.Shown(R.Fold(items, Log(v.db.updated)[n..]), id, emoji) ==
            var before := R.Shown(R.Fold(items, Log(s.db.updated)[n..]), id, emoji);
            if x.Announced? && Covers(OfGroup(id, emoji), x.u.e.key) then Moved(before, x.u.e) else before
  {
    if x.Announced? {
      LogAppended(s.db.updated, x.u);
      R.FoldStep(items, Log(s.db.updated), n, x.u.e);
      R.MergeEventEffect(R.Fold(items, Log(s.db.updated)[n..]), x.u.e, id, emoji);
    }
  }

  lemma BehindAfter(shown: seq<Id>, s: Sys, v: Sys, x: Effect, id: Id, emoji: Bytes)
    requires Moves(s, v, x) && Behind(shown, s, id, emoji) && AtMostOne(s.tasks, OfGroup(id, emoji))
    requires x.Wrote? && Covers(OfGroup(id, emoji), x.u.e.key) ==> !ScopePending(s.tasks, OfGroup(id, emoji))
    ensures Behind(if x.Announced? && Covers(OfGroup(id, emoji), x.u.e.key) then Moved(shown, x.u.e) else shown, v, id, emoji)
  {
    match x {
      case Wrote(_, _, _) => BehindAfterWrite(shown, s, v, x, id, emoji);
      case Announced(_, _) => BehindAfterAnnouncement(shown, s, v, x, id, emoji);
      case Nothing =>
        if ScopePending(s.tasks, OfGroup(id, emoji)) {
          var i, u :| Pends(s.tasks, i, u) && Covers(OfGroup(id, emoji), u.e.key);
          assert Pends(v.tasks, i, u);
        }
    }
  }

  lemma AnnouncedIsNamed(lib: Lib, actions: seq<Action>)
    requires actions != [] && LastEffect(lib, actions).Announced?
    ensures R.Named(LastEffect(lib, actions).u.e)
  {
    RunSound(lib, actions[..|actions| - 1]);
    var s, a := Run(lib, actions[..|actions| - 1]), actions[|actions| - 1];
    assert Knows(lib, s.db, s.tasks[a.k]);
  }

  lemma {:induction false} ClientStaysBehind(lib: Lib, actions: seq<Action>, n: nat, items: seq<R.Item>, id: Id, emoji: Bytes)
    requires n <= |actions| && OneAtATime(lib, actions, OfGroup(id, emoji))
    requires R.Snapshot(items, Run(lib, actions[..n]).db.reactions, id)
    ensures |Run(lib, actions[..n]).db.updated| <= |Run(lib, actions).db.updated|
    ensures R.TidyAt(Folded(lib, actions, n, items), id)
    ensures Behind(R.Shown(Folded(lib, actions, n, items), id, emoji), Run(lib, actions), id, emoji)
  {
    if n == |actions| {
      assert actions[..n] == actions;
      assert Log(Run(lib, actions).db.updated)[|Run(lib, actions).db.updated|..] == [];
      BehindAtSnapshot(lib, actions, items, id, emoji);
    } else {
      var before := actions[..|actions| - 1];
      var s, v, x := Run(lib, before), Run(lib, actions), LastEffect(lib, actions);
      assert before[..n] == actions[..n];
      ClientStaysBehind(lib, before, n, items, id, emoji);
      StepMoves(lib, s, actions[|actions| - 1]);
      if x.Announced? {
        AnnouncedIsNamed(lib, actions);
      }
      AloneIsOne(lib, before, OfGroup(id, emoji));
      FoldMoves(items, s, v, x, |Run(lib, actions[..n]).db.updated|, id, emoji);
      BehindAfter(R.Shown(Folded(lib, before, n, items), id, emoji), s, v, x, id, emoji);
    }
  }

  /** Folding a chat's own changes shows its messages as folding all changes does. */
  lemma {:induction false} FoldOfChat(items: seq<R.Item>, us: seq<Update>, chat: Id, id: Id, emoji: Bytes)
    requires R.TidyAt(items, id) && AtHome(us, id, chat) && forall u | u in us :: UpdateNamed(u)
    ensures R.TidyAt(R.Fold(items, Of(us, chat)), id) && R.TidyAt(R.Fold(items, Log(us)), id)
    ensures R.Shown(R.Fold(items, Of(us, chat)), id, emoji) == R.Shown(R.Fold(items, Log(us)), id, emoji)
  {
    if us != [] {
      var u, most := us[|us| - 1], us[..|us| - 1];
      assert u in us;
      FoldOfChat(items, most, chat, id, emoji);
      assert (Log(most) + [u.e])[..|most|] == Log(most);
      R.MergeEventEffect(R.Fold(items, Log(most)), u.e, id, emoji);
      if u.chat == chat {
        assert (Of(most, chat) + [u.e])[..|Of(most, chat)|] == Of(most, chat);
        R.MergeEventEffect(R.Fold(items, Of(most, chat)), u.e, id, emoji);
      }
    }
  }

  /** What a client received since a moment at which everything published had been copied. */
  lemma ReceivedSince(lib: Lib, actions: seq<Action>, n: nat, chat: Id)
    requires n <= |actions|
    requires Run(lib, actions[..n]).fannedUpdates == |Run(lib, actions[..n]).db.updated|
    requires Run(lib, actions).fannedUpdates == |Run(lib, actions).db.updated|
    ensures var s, v := Run(lib, actions[..n]), Run(lib, actions);
            && |s.db.updated| <= |v.db.updated| && |Channel(s.redis, chat)| <= |Channel(v.redis, chat)|
            && Channel(v.redis, chat)[|Channel(s.redis, chat)|..] == Of(v.db.updated[|s.db.updated|..], chat)
  {
    var s, v := Run(lib, actions[..n]), Run(lib, actions);
    ChannelIsPublished(lib, actions[..n], chat);
    ChannelIsPublished(lib, actions, chat);
    RunGrows(lib, actions, n);
    assert s.db.updated[..s.fannedUpdates] == v.db.updated[..|s.db.updated|];
    assert v.db.updated[..v.fannedUpdates] == v.db.updated;
    OfFrom(v.db.updated, chat, |s.db.updated|);
  }

  /** Changes of other lists leave a list alone. */
  lemma {:induction false} FoldOfOthers(items: seq<R.Item>, a: seq<R.Event>, id: Id, emoji: Bytes)
    requires R.TidyAt(items, id) && forall e | e in a :: R.Named(e) && !Covers(OfGroup(id, emoji), e.key)
    ensures R.TidyAt(R.Fold(items, a), id) && R.Shown(R.Fold(items, a), id, emoji) == R.Shown(items, id, emoji)
  {
    if a != [] {
      var most, e := a[..|a| - 1], a[|a| - 1];
      assert e in a;
      FoldOfOthers(items, most, id, emoji);
      R.MergeEventEffect(R.Fold(items, most), e, id, emoji);
    }
  }

  lemma {:induction false} FoldJoined(items: seq<R.Item>, a: seq<R.Event>, b: seq<R.Event>)
    ensures R.Fold(items, a + b) == R.Fold(R.Fold(items, a), b)
  {
    if b == [] {
      assert a + b == a;
    } else {
      FoldJoined(items, a, b[..|b| - 1]);
      assert (a + b)[..|a + b| - 1] == a + b[..|b| - 1];
    }
  }

  /** Lists that show the same go on to show the same. */
  lemma {:induction false} FoldAlike(items: seq<R.Item>, others: seq<R.Item>, b: seq<R.Event>, id: Id, emoji: Bytes)
    requires R.TidyAt(items, id) && R.TidyAt(others, id) && forall e | e in b :: R.Named(e)
    requires R.Shown(items, id, emoji) == R.Shown(others, id, emoji)
    ensures R.TidyAt(R.Fold(items, b), id) && R.TidyAt(R.Fold(others, b), id)
    ensures R.Shown(R.Fold(items, b), id, emoji) == R.Shown(R.Fold(others, b), id, emoji)
  {
    if b != [] {
      var most, e := b[..|b| - 1], b[|b| - 1];
      assert e in b;
      FoldAlike(items, others, most, id, emoji);
      R.MergeEventEffect(R.Fold(items, most), e, id, emoji);
      R.MergeEventEffect(R.Fold(others, most), e, id, emoji);
    }
  }

  /** A client whose list was placed when it was read. */
  lemma ListFromSnapshot(lib: Lib, actions: seq<Action>, n: nat, chat: Id, items: seq<R.Item>, id: Id, emoji: Bytes)
    requires n <= |actions| && R.Snapshot(items, Run(lib, actions[..n]).db.reactions, id)
    requires InChat(Run(lib, actions).db.rows, id, chat)
    requires Run(lib, actions[..n]).fannedUpdates == |Run(lib, actions[..n]).db.updated|
    requires Run(lib, actions).fannedUpdates == |Run(lib, actions).db.updated|
    requires OneAtATime(lib, actions, OfGroup(id, emoji)) && !ScopePending(Run(lib, actions).tasks, OfGroup(id, emoji))
    ensures var a := |Channel(Run(lib, actions[..n]).redis, chat)|;
            R.Shown(R.Fold(items, Received(lib, actions, chat, a)), id, emoji)
            == R.UsersOf(Run(lib, actions).db.reactions, id, emoji)
  {
    var v, m := Run(lib, actions), |Run(lib, actions[..n]).db.updated|;
    ReceivedSince(lib, actions, n, chat);
    ClientStaysBehind(lib, actions, n, items, id, emoji);
    ChangesAtHome(lib, actions, id, chat);
    RunSound(lib, actions);
    assert forall u | u in v.db.updated :: UpdateNamed(u);
    FoldOfChat(items, v.db.updated[m..], chat, id, emoji);
    LogFrom(v.db.updated, m);
  }

  /** Entries from a later position show the list as those from the earlier one, if none of it lies between. */
  lemma LaterPosition(items: seq<R.Item>, channel: seq<R.Event>, a: nat, b: nat, id: Id, emoji: Bytes)
    requires a <= |channel| && a <= b && R.TidyAt(items, id) && forall e | e in channel :: R.Named(e)
    requires forall i | a <= i < b && i < |channel| :: !Covers(OfGroup(id, emoji), channel[i].key)
    ensures R.Shown(R.Fold(items, Since(channel, b)), id, emoji) == R.Shown(R.Fold(items, Since(channel, a)), id, emoji)
  {
    var c := if b <= |channel| then b else |channel|;
    assert channel[a..c] + channel[c..] == channel[a..];
    FoldOfOthers(items, channel[a..c], id, emoji);
    FoldJoined(items, channel[a..c], channel[c..]);
    FoldAlike(R.Fold(items, channel[a..c]), items, channel[c..], id, emoji);
  }

  /**
    Refinement: if handlers do not overlap on one emoji of one message, everything published had been copied
    when the list was read, and no change of that list fell between the reading and the placing, then the
    client lists the users in the very order of the table, even if a change was pending at the reading.
  */
  lemma ListsConverge(lib: Lib, actions: seq<Action>, n: nat, chat: Id, cl: Client, id: Id, emoji: Bytes)
    requires Loaded(lib, actions, n, cl, id) && InChat(Run(lib, actions).db.rows, id, chat)
    requires |Channel(Run(lib, actions[..n]).redis, chat)| <= From(cl)
    requires NothingMissed(lib, actions, n, chat, From(cl), OfGroup(id, emoji))
    requires Run(lib, actions[..n]).fannedUpdates == |Run(lib, actions[..n]).db.updated|
    requires Run(lib, actions).fannedUpdates == |Run(lib, actions).db.updated|
    requires OneAtATime(lib, actions, OfGroup(id, emoji)) && !ScopePending(Run(lib, actions).tasks, OfGroup(id, emoji))
    ensures R.Shown(View(lib, actions, chat, cl), id, emoji) == R.UsersOf(Run(lib, actions).db.reactions, id, emoji)
  {
    ViewIsFold(lib, actions, chat, cl);
    ListFromSnapshot(lib, actions, n, chat, cl.items, id, emoji);
    ChannelGrows(lib, actions, n, chat);
    ChannelIsNamed(lib, actions, chat);
    LaterPosition(cl.items, Channel(Run(lib, actions).redis, chat), |Channel(Run(lib, actions[..n]).redis, chat)|,
                  From(cl), id, emoji);
  }

  // ---------- the order of the table ----------

  /** Each statement is given a later time than the ones before it. */
  ghost predicate Ticking(actions: seq<Action>) {
    forall i, j | 0 <= i < j < |actions| && actions[i].Advance? && actions[j].Advance? :: actions[i].now < actions[j].now
  }

  /** With a ticking clock, rows stand in created_at order, so the table's order is the order of the query. */
  lemma {:induction false} RowsInTimeOrder(lib: Lib, actions: seq<Action>)
    requires Ticking(actions)
    ensures R.InTimeOrder(Run(lib, actions).db.reactions)
    ensures forall r | r in Run(lib, actions).db.reactions ::
              exists i :: 0 <= i < |actions| && actions[i].Advance? && r.at == actions[i].now
  {
    if actions != [] {
      var before := actions[..|actions| - 1];
      var s, x := Run(lib, before), LastEffect(lib, actions);
      RowsInTimeOrder(lib, before);
      StepMoves(lib, s, actions[|actions| - 1]);
      forall r | r in s.db.reactions
        ensures exists i :: 0 <= i < |actions| && actions[i].Advance? && r.at == actions[i].now
        ensures x.Wrote? ==> r.at < x.at
      {
        var i :| 0 <= i < |before| && before[i].Advance? && r.at == before[i].now;
        assert actions[i] == before[i];
      }
      if x.Wrote? {
        WrittenInTimeOrder(s.db.reactions, x.u.e, x.at);
        assert actions[|actions| - 1].Advance? && x.at == actions[|actions| - 1].now;
      }
    }
  }

  lemma WrittenInTimeOrder(rows: seq<Reaction>, e: R.Event, at: Time)
    requires R.InTimeOrder(rows) && forall r | r in rows :: r.at < at
    ensures R.InTimeOrder(R.Change(rows, e, at))
    ensures forall r | r in R.Change(rows, e, at) :: r in rows || r.at == at
  {
    if !e.add {
      R.RemoveInTimeOrder(rows, e.key);
    }
  }
}
