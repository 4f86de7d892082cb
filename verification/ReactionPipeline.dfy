/**
  The interleaved message service as its clients see it: what reaches a chat's Redis channel, folded into the
  list a client loaded, compared with the table.
*/
module ReactionPipeline {
  import opened Common
  import opened Store
  import opened MessageService
  import opened Pipeline
  import R = Reactions

  // ---------- what a step does to reactions ----------

  /** A step writes a change that altered the table, publishes one, or has nothing to do with either. */
  datatype Effect = Wrote(i: nat, u: Update, at: Time) | Announced(i: nat, u: Update) | Nothing

  function EffectOf(s: Sys, a: Action): Effect {
    if !a.Advance? || a.k >= |s.tasks| || a.id == "" || !s.tasks[a.k].Reacting? then Nothing
    else
      var t := s.tasks[a.k];
      match t.rs
      case Write(chat, emoji) =>
        var e := R.Event(Key(t.r.message, t.r.user, emoji), t.r.add);
        if R.Alters(s.db.reactions, e) then Wrote(a.k, Update(chat, e), a.now) else Nothing
      case PublishUpdate(u) => Announced(a.k, u)
      case _ => Nothing
  }

  /** The change a handler has written but not yet published. */
  function PendingOf(t: Task): Option<Update> {
    match t
    case Reacting(_, PublishUpdate(u)) => Some(u)
    case _ => None
  }

  predicate Pends(tasks: seq<Task>, i: nat, u: Update) {
    i < |tasks| && PendingOf(tasks[i]) == Some(u)
  }

  lemma {:induction false} RemoveAbsent(rows: seq<Reaction>, k: Key)
    requires forall r | r in rows :: R.KeyOf(r) != k
    ensures R.Remove(rows, k) == rows
  {
    if rows != [] {
      var last, most := rows[|rows| - 1], rows[..|rows| - 1];
      RemoveAbsent(most, k);
      assert last in rows;
      assert most + [last] == rows;
    }
  }

  lemma NotHas(rows: seq<Reaction>, k: Key)
    requires !R.Has(rows, k)
    ensures forall r | r in rows :: R.KeyOf(r) != k
  {
  }

  /** What a step means for the table, the log and the changes that wait for publication. */
  ghost predicate Moves(s: Sys, v: Sys, x: Effect) {
    match x
    case Wrote(i, u, at) =>
      && R.Alters(s.db.reactions, u.e) && v.db.reactions == R.Change(s.db.reactions, u.e, at)
      && v.db.updated == s.db.updated && (forall w :: !Pends(s.tasks, i, w))
      && (forall j, w :: Pends(v.tasks, j, w) <==> if j == i then w == u else Pends(s.tasks, j, w))
    case Announced(i, u) =>
      && v.db.reactions == s.db.reactions && v.db.updated == s.db.updated + [u]
      && Pends(s.tasks, i, u)
      && (forall j, w :: Pends(v.tasks, j, w) <==> j != i && Pends(s.tasks, j, w))
    case Nothing =>
      && v.db.reactions == s.db.reactions && v.db.updated == s.db.updated
      && (forall j, w :: Pends(v.tasks, j, w) <==> Pends(s.tasks, j, w))
  }

  lemma WriteMoves(lib: Lib, s: Sys, a: Action)
    requires EffectOf(s, a).Wrote?
    ensures Moves(s, Apply(lib, s, a), EffectOf(s, a))
  {
  }

  lemma AnnouncementMoves(lib: Lib, s: Sys, a: Action)
    requires EffectOf(s, a).Announced?
    ensures Moves(s, Apply(lib, s, a), EffectOf(s, a))
  {
  }

  lemma RestMoves(lib: Lib, s: Sys, a: Action)
    requires EffectOf(s, a).Nothing?
    ensures Moves(s, Apply(lib, s, a), Nothing)
  {
    if a.Advance? && a.k < |s.tasks| && a.id != "" && s.tasks[a.k].Reacting? && s.tasks[a.k].rs.Write? {
      var t := s.tasks[a.k];
      var k := Key(t.r.message, t.r.user, t.rs.emoji);
      if !t.r.add {
        NotHas(s.db.reactions, k);
        RemoveAbsent(s.db.reactions, k);
      }
    }
  }

  lemma StepMoves(lib: Lib, s: Sys, a: Action)
    ensures Moves(s, Apply(lib, s, a), EffectOf(s, a))
  {
    match EffectOf(s, a) {
      case Wrote(_, _, _) => WriteMoves(lib, s, a);
      case Announced(_, _) => AnnouncementMoves(lib, s, a);
      case Nothing => RestMoves(lib, s, a);
    }
  }

  // ---------- the writes of a run ----------

  /** The last step of a run, in the state it met. */
  function LastEffect(lib: Lib, actions: seq<Action>): Effect
    requires actions != []
  {
    EffectOf(Run(lib, actions[..|actions| - 1]), actions[|actions| - 1])
  }

  /** The changes that altered the table, in the order in which they did. */
  function Writes(lib: Lib, actions: seq<Action>): seq<R.Event> {
    if actions == [] then []
    else
      match LastEffect(lib, actions)
      case Wrote(_, u, _) => Writes(lib, actions[..|actions| - 1]) + [u.e]
      case _ => Writes(lib, actions[..|actions| - 1])
  }

  lemma WritesPlus(lib: Lib, actions: seq<Action>, a: Action)
    ensures var x := EffectOf(Run(lib, actions), a);
            Writes(lib, actions + [a]) == if x.Wrote? then Writes(lib, actions) + [x.u.e] else Writes(lib, actions)
  {
    assert (actions + [a])[..|actions|] == actions;
  }

  function Log(us: seq<Update>): (log: seq<R.Event>)
    ensures |log| == |us| && forall i | 0 <= i < |us| :: log[i] == us[i].e
  {
    if us == [] then [] else Log(us[..|us| - 1]) + [us[|us| - 1].e]
  }

  lemma LastAppended(log: seq<R.Event>, e: R.Event, k: Key)
    ensures R.Last(log + [e], k) == if e.key == k then Some(e.add) else R.Last(log, k)
  {
    assert (log + [e])[..|log|] == log;
  }

  lemma LogAppended(us: seq<Update>, u: Update)
    ensures Log(us + [u]) == Log(us) + [u.e]
  {
    assert (us + [u])[..|us|] == us;
  }

  lemma LastOfSuffix(log: seq<R.Event>, e: R.Event, n: nat, k: Key)
    requires n <= |log|
    ensures R.Last((log + [e])[n..], k) == if e.key == k then Some(e.add) else R.Last(log[n..], k)
  {
    assert (log + [e])[n..] == log[n..] + [e];
    LastAppended(log[n..], e, k);
  }

  /** The last step of a run moves the state and may add to the writes. */
  lemma RunStep(lib: Lib, actions: seq<Action>, k: Key)
    requires actions != []
    ensures var before, x := actions[..|actions| - 1], LastEffect(lib, actions);
            && Moves(Run(lib, before), Run(lib, actions), x)
            && R.Last(Writes(lib, actions), k)
               == if x.Wrote? && x.u.e.key == k then Some(x.u.e.add) else R.Last(Writes(lib, before), k)
  {
    var before := actions[..|actions| - 1];
    StepMoves(lib, Run(lib, before), actions[|actions| - 1]);
    if LastEffect(lib, actions).Wrote? {
      LastAppended(Writes(lib, before), LastEffect(lib, actions).u.e, k);
    }
  }

  /** Whatever overlaps, the table holds a reaction exactly when the last write of it was an addition. */
  lemma {:induction false} TableFollowsWrites(lib: Lib, actions: seq<Action>, k: Key)
    ensures R.Distinct(Run(lib, actions).db.reactions)
    ensures R.Has(Run(lib, actions).db.reactions, k) <==> R.Last(Writes(lib, actions), k) == Some(true)
  {
    if actions != [] {
      TableFollowsWrites(lib, actions[..|actions| - 1], k);
      RunStep(lib, actions, k);
      var x := LastEffect(lib, actions);
      if x.Wrote? {
        R.ChangeMeansEvent(Run(lib, actions[..|actions| - 1]).db.reactions, x.u.e, x.at, k);
      }
    }
  }

  // ---------- writes and publications ----------

  ghost predicate KeyPending(tasks: seq<Task>, k: Key) {
    exists i, u :: Pends(tasks, i, u) && u.e.key == k
  }

  lemma MovedPending(s: Sys, v: Sys, x: Effect, k: Key)
    requires Moves(s, v, x)
    ensures x.Wrote? && x.u.e.key == k ==> KeyPending(v.tasks, k)
    ensures KeyPending(v.tasks, k) ==> KeyPending(s.tasks, k) || (x.Wrote? && x.u.e.key == k)
    ensures x.Announced? && x.u.e.key == k ==> KeyPending(s.tasks, k)
  {
    if x.Wrote? && x.u.e.key == k {
      assert Pends(v.tasks, x.i, x.u);
    }
  }

  /** A pending change stays pending until it is announced; a write replaces a handler that had none. */
  lemma PendingStays(lib: Lib, s: Sys, a: Action, k: Key)
    requires KeyPending(s.tasks, k) && !(EffectOf(s, a).Announced? && EffectOf(s, a).u.e.key == k)
    ensures KeyPending(Apply(lib, s, a).tasks, k)
  {
    StepMoves(lib, s, a);
    var i, u :| Pends(s.tasks, i, u) && u.e.key == k;
    assert Pends(Apply(lib, s, a).tasks, i, u);
  }

  /** A key written after n is pending or was published after n. */
  ghost predicate Accounted(lib: Lib, actions: seq<Action>, n: nat, k: Key)
    requires n <= |actions|
  {
    var s, t := Run(lib, actions[..n]), Run(lib, actions);
    && |s.db.updated| <= |t.db.updated|
    && (R.Last(Writes(lib, actions), k) == R.Last(Writes(lib, actions[..n]), k)
        || KeyPending(t.tasks, k)
        || R.Last(Log(t.db.updated)[|s.db.updated|..], k).Some?)
  }

  lemma LogMoves(s: Sys, v: Sys, x: Effect, n: nat, k: Key)
    requires Moves(s, v, x) && n <= |s.db.updated|
    ensures n <= |v.db.updated|
    ensures R.Last(Log(v.db.updated)[n..], k)
         == if x.Announced? && x.u.e.key == k then Some(x.u.e.add) else R.Last(Log(s.db.updated)[n..], k)
  {
    if x.Announced? {
      LogAppended(s.db.updated, x.u);
      LastOfSuffix(Log(s.db.updated), x.u.e, n, k);
    }
  }

  lemma {:induction false} WritesAreAccounted(lib: Lib, actions: seq<Action>, n: nat, k: Key)
    requires n <= |actions|
    ensures Accounted(lib, actions, n, k)
  {
    if n < |actions| {
      var before := actions[..|actions| - 1];
      var s, x := Run(lib, before), LastEffect(lib, actions);
      WritesAreAccounted(lib, before, n, k);
      assert before[..n] == actions[..n];
      RunStep(lib, actions, k);
      MovedPending(s, Run(lib, actions), x, k);
      LogMoves(s, Run(lib, actions), x, |Run(lib, actions[..n]).db.updated|, k);
      if KeyPending(s.tasks, k) && !(x.Announced? && x.u.e.key == k) {
        PendingStays(lib, s, actions[|actions| - 1], k);
      }
    } else {
      assert actions[..n] == actions;
    }
  }
}
