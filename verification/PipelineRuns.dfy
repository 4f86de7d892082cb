/**
  Runs of the pipeline that get somewhere: from any reachable state a handler that is let run does what the
  whole call does, and an event from a client's web socket ends in the tables and on the chat's channel.
*/
module PipelineRuns {
  import opened Common
  import opened Runes
  import opened Store
  import opened MessageService
  import opened Pipeline
  import opened ChatHub
  import opened Seqs
  import Reactions

  // ---------- one handler alone ----------

  /** Task k has ended as t and left these tables; everything else is as it was. */
  predicate Ended(s: Sys, v: Sys, k: nat, db: Db, t: Task) {
    k < |s.tasks| && v == s.(db := db, tasks := s.tasks[k := t])
  }

  lemma Advances(lib: Lib, actions: seq<Action>, k: nat, id: Id, now: Time)
    requires k < |Run(lib, actions).tasks| && id != ""
    ensures var s := Run(lib, actions); var x := Step(lib, s.db, s.tasks[k], id, now);
            Ended(s, Run(lib, actions + [Advance(k, id, now)]), k, x.0, x.1)
  {
    RunPlus(lib, actions, Advance(k, id, now));
  }

  lemma EndedThen(s: Sys, m: Sys, v: Sys, k: nat, d: Db, t: Task, db: Db, u: Task)
    requires Ended(s, m, k, d, t) && Ended(m, v, k, db, u)
    ensures Ended(s, v, k, db, u)
  {
  }

  lemma EndedAtOnce(s: Sys, k: nat)
    requires k < |s.tasks|
    ensures Ended(s, s, k, s.db, s.tasks[k])
  {
    assert s.tasks[k := s.tasks[k]] == s.tasks;
  }

  /** A posting handler that is let run does what the whole call does. */
  lemma {:induction false} PostAlone(lib: Lib, actions: seq<Action>, k: nat, id: Id, now: Time) returns (n: nat)
    requires k < |Run(lib, actions).tasks| && Run(lib, actions).tasks[k].Posting? && id != ""
    ensures var s := Run(lib, actions); var r := RunPost(lib, s.db, s.tasks[k].q, s.tasks[k].ps, id, now);
            Ended(s, Run(lib, actions + Repeat(Advance(k, id, now), n)), k, r.0, Posting(s.tasks[k].q, Answer(r.1)))
    decreases PostRank(Run(lib, actions).tasks[k].q, Run(lib, actions).tasks[k].ps)
  {
    var s, a := Run(lib, actions), Advance(k, id, now);
    var q, ps := s.tasks[k].q, s.tasks[k].ps;
    if ps.Answer? {
      n := 0;
      NoMore(actions, a);
      EndedAtOnce(s, k);
    } else {
      Advances(lib, actions, k, id, now);
      UnfoldPost(lib, s.db, q, ps, id, now);
      PostStepRanks(lib, s.db, q, ps, id, now);
      var m := PostAlone(lib, actions + [a], k, id, now);
      OnceMore(actions, a, m);
      n := m + 1;
      var next := PostStep(lib, s.db, q, ps, id, now);
      var r := RunPost(lib, next.0, q, next.1, id, now);
      EndedThen(s, Run(lib, actions + [a]), Run(lib, actions + Repeat(a, n)), k, next.0, Posting(q, next.1),
                r.0, Posting(q, Answer(r.1)));
    }
  }

  lemma PostStepRanks(lib: Lib, db: Db, q: Post, ps: PostStage, id: Id, now: Time)
    requires !ps.Answer?
    ensures PostRank(q, PostStep(lib, db, q, ps, id, now).1) < PostRank(q, ps)
  {
  }

  lemma ReactStepRanks(lib: Lib, db: Db, r: React, rs: ReactStage, now: Time)
    requires !rs.Finished?
    ensures ReactRank(ReactStep(lib, db, r, rs, now).1) < ReactRank(rs)
  {
  }

  /** A reacting handler likewise. */
  lemma {:induction false} ReactAlone(lib: Lib, actions: seq<Action>, k: nat, id: Id, now: Time) returns (n: nat)
    requires k < |Run(lib, actions).tasks| && Run(lib, actions).tasks[k].Reacting? && id != ""
    ensures var s := Run(lib, actions); var db := RunReact(lib, s.db, s.tasks[k].r, s.tasks[k].rs, now);
            Ended(s, Run(lib, actions + Repeat(Advance(k, id, now), n)), k, db, Reacting(s.tasks[k].r, Finished))
    decreases ReactRank(Run(lib, actions).tasks[k].rs)
  {
    var s, a := Run(lib, actions), Advance(k, id, now);
    var r, rs := s.tasks[k].r, s.tasks[k].rs;
    if rs.Finished? {
      n := 0;
      NoMore(actions, a);
      EndedAtOnce(s, k);
    } else {
      Advances(lib, actions, k, id, now);
      UnfoldReact(lib, s.db, r, rs, now);
      ReactStepRanks(lib, s.db, r, rs, now);
      var m := ReactAlone(lib, actions + [a], k, id, now);
      OnceMore(actions, a, m);
      n := m + 1;
      var next := ReactStep(lib, s.db, r, rs, now);
      EndedThen(s, Run(lib, actions + [a]), Run(lib, actions + Repeat(a, n)), k, next.0, Reacting(r, next.1),
                RunReact(lib, next.0, r, next.1, now), Reacting(r, Finished));
    }
  }

  /** One statement of a receipt handler. */
  lemma Reads(lib: Lib, actions: seq<Action>, k: nat, id: Id, now: Time)
    requires k < |Run(lib, actions).tasks| && id != "" && Run(lib, actions).tasks[k].Reading?
    ensures var s := Run(lib, actions); var c := s.tasks[k].c; var x := ReceiptStep(s.db, c, s.tasks[k].cs, now);
            Ended(s, Run(lib, actions + [Advance(k, id, now)]), k, x.0, Reading(c, x.1))
  {
    Advances(lib, actions, k, id, now);
  }

  /** And a handler of a read receipt, which takes three statements. */
  lemma ReadAlone(lib: Lib, actions: seq<Action>, k: nat, id: Id, now: Time)
    requires k < |Run(lib, actions).tasks| && id != ""
    requires var t := Run(lib, actions).tasks[k]; t.Reading? && t.cs == StartReceipt(t.c)
    ensures var s := Run(lib, actions); var c := s.tasks[k].c;
            Ended(s, Run(lib, actions + Repeat(Advance(k, id, now), 3)), k, RunReceipt(s.db, c, now), Reading(c, Over))
  {
    var s, a := Run(lib, actions), Advance(k, id, now);
    var c := s.tasks[k].c;
    var x := ReceiptStep(s.db, c, s.tasks[k].cs, now);
    var y := ReceiptStep(x.0, c, x.1, now);
    ReceiptStepsAreRun(s.db, c, now);
    Reads(lib, actions, k, id, now);
    Reads(lib, actions + [a], k, id, now);
    Reads(lib, actions + [a] + [a], k, id, now);
    EndedThen(s, Run(lib, actions + [a]), Run(lib, actions + [a] + [a]), k, x.0, Reading(c, x.1), y.0, Reading(c, y.1));
    Thrice(actions, a);
    EndedThen(s, Run(lib, actions + [a] + [a]), Run(lib, actions + Repeat(a, 3)), k, y.0, Reading(c, y.1),
              RunReceipt(s.db, c, now), Reading(c, Over));
  }

  // ---------- from a web socket to the tables ----------

  /**
    A read receipt that a client sends is stored: from every reachable state the run goes on to one in which
    the table holds it with its time, and the other tables are as they were.
  */
  lemma ReceiptIsStored(lib: Lib, actions: seq<Action>, e: Event, uuid: string, id: Id, now: Time)
    requires e.kind == "read_receipt" && e.message != "" && e.chat != "" && e.sender != "" && id != ""
    requires var db := Run(lib, actions).db;
             && (e.chat, e.sender) in db.members
             && FindRow(db.rows, e.message).Some? && FindRow(db.rows, e.message).value.chat == e.chat
    ensures var s := Run(lib, actions);
            var v := Run(lib, actions + Steps(lib, e, uuid) + Repeat(Advance(|s.tasks|, id, now), 3));
            v.db == s.db.(receipts := s.db.receipts[(e.message, e.sender) := now])
  {
    var s := Run(lib, actions);
    var c := Receipt(e.chat, e.sender, e.message);
    InboundIsPipeline(lib, actions, e, uuid);
    ReadAlone(lib, actions + Steps(lib, e, uuid), |s.tasks|, id, now);
    ReceiptOutcome(s.db, c, now);
  }

  /**
    A reaction that a client sends takes effect: once its handler has run, the sender's reaction is in the
    table exactly if the action was not a removal, and every other reaction is as it was.
  */
  lemma ReactionTakesEffect(lib: Lib, actions: seq<Action>, e: Event, uuid: string, id: Id, now: Time, k: Key)
    returns (more: seq<Action>)
    requires TrimsOnce(lib) && e.kind == "reaction" && Reactable(lib, Run(lib, actions).db, e) && id != ""
    ensures actions <= more
    ensures var s, v := Run(lib, actions), Run(lib, more);
            && (Reactions.Has(v.db.reactions, k) <==>
                  if k == Key(e.message, e.sender, lib.trim(e.emoji)) then e.action != "remove"
                  else Reactions.Has(s.db.reactions, k))
            && v.db == s.db.(reactions := v.db.reactions, updated := v.db.updated)
  {
    var s := Run(lib, actions);
    InboundIsPipeline(lib, actions, e, uuid);
    var n := ReactAlone(lib, actions + Steps(lib, e, uuid), |s.tasks|, id, now);
    more := actions + Steps(lib, e, uuid) + Repeat(Advance(|s.tasks|, id, now), n);
    Regrouped(actions, Steps(lib, e, uuid), Repeat(Advance(|s.tasks|, id, now), n));
    ReactOutcome(lib, s.db, Reacted(e), now);
    RunReactionsBalanced(lib, actions, k);
    Reactions.ChangeMeansEvent(s.db.reactions,
                               Reactions.Event(Key(e.message, e.sender, lib.trim(e.emoji)), e.action != "remove"), now, k);
  }

  /** What a reaction event needs to take effect. */
  predicate Reactable(lib: Lib, db: Db, e: Event) {
    && (e.chat, e.sender) in db.members && e.chat != "" && e.sender != "" && e.message != "" && e.emoji != []
    && lib.trim(e.emoji) != [] && |Split(lib.trim(e.emoji))| <= 16 && InChat(db.rows, e.message, e.chat)
  }

  // ---------- from the tables to the channel ----------

  /** The chat service catches up with the published messages. */
  lemma {:induction false} FanCatchesUp(lib: Lib, actions: seq<Action>) returns (n: nat)
    ensures var s, v := Run(lib, actions), Run(lib, actions + Repeat(Fan, n));
            v == s.(fanned := |s.db.created|, redis := v.redis)
    decreases |Run(lib, actions).db.created| - Run(lib, actions).fanned
  {
    RunCopied(lib, actions);
    var s := Run(lib, actions);
    if s.fanned == |s.db.created| {
      n := 0;
      NoMore(actions, Fan);
    } else {
      RunPlus(lib, actions, Fan);
      n := FanCatchesUp(lib, actions + [Fan]);
      OnceMore(actions, Fan, n);
      n := n + 1;
    }
  }

  /** And with the published reaction changes. */
  lemma {:induction false} FanUpdateCatchesUp(lib: Lib, actions: seq<Action>) returns (n: nat)
    ensures var s, v := Run(lib, actions), Run(lib, actions + Repeat(FanUpdate, n));
            v == s.(fannedUpdates := |s.db.updated|, redis := v.redis)
    decreases |Run(lib, actions).db.updated| - Run(lib, actions).fannedUpdates
  {
    RunCopied(lib, actions);
    var s := Run(lib, actions);
    if s.fannedUpdates == |s.db.updated| {
      n := 0;
      NoMore(actions, FanUpdate);
    } else {
      RunPlus(lib, actions, FanUpdate);
      n := FanUpdateCatchesUp(lib, actions + [FanUpdate]);
      OnceMore(actions, FanUpdate, n);
      n := n + 1;
    }
  }

  /** The event that was copied last. */
  ghost predicate EndsWith(ws: seq<Wire>, w: Wire) {
    ws != [] && ws[|ws| - 1] == w
  }

  lemma CopiedLast(lib: Lib, actions: seq<Action>)
    requires var s := Run(lib, actions); s.fanned == |s.db.created| > 0
    ensures var s := Run(lib, actions); EndsWith(MessageWires(s.redis), MessageEvent(s.db.created[|s.db.created| - 1]))
  {
    RunCopied(lib, actions);
    var s := Run(lib, actions);
    assert s.db.created[..s.fanned] == s.db.created;
  }

  lemma UpdateCopiedLast(lib: Lib, actions: seq<Action>)
    requires var s := Run(lib, actions); s.fannedUpdates == |s.db.updated| > 0
    ensures var s := Run(lib, actions);
            var u := s.db.updated[|s.db.updated| - 1]; EndsWith(ReactionWires(s.redis), ReactionWire(u.chat, u.e))
  {
    RunCopied(lib, actions);
    var s := Run(lib, actions);
    assert s.db.updated[..s.fannedUpdates] == s.db.updated;
  }

  /** The message's own handler stores and publishes it. */
  lemma MessageIsStored(lib: Lib, actions: seq<Action>, e: Event, uuid: string, id: Id, now: Time) returns (more: seq<Action>)
    requires e.kind == "message" && Storable(lib, Run(lib, actions).db, e) && id != ""
    requires FindKey(Run(lib, actions).db.rows, "ws:" + uuid).None? && FindRow(Run(lib, actions).db.rows, id).None?
    ensures actions <= more
    ensures var s, v := Run(lib, actions), Run(lib, more);
            && v.db == RunPost(lib, s.db, Persisted(e, uuid), StartPost(Persisted(e, uuid)), id, now).0
  {
    var k, q := |Run(lib, actions).tasks|, Persisted(e, uuid);
    InboundIsPipeline(lib, actions, e, uuid);
    var n := PostAlone(lib, actions + Steps(lib, e, uuid), k, id, now);
    more := actions + Steps(lib, e, uuid) + Repeat(Advance(k, id, now), n);
    Regrouped(actions, Steps(lib, e, uuid), Repeat(Advance(k, id, now), n));
  }

  /**
    A message that a client sends reaches its chat: from every reachable state the run goes on until the last
    message on Redis is this one, on the chat's channel, with the sender, content, type and reply link that
    were sent, and with the quote of the message that it answers, if any.
  */
  lemma MessageReachesChannel(lib: Lib, actions: seq<Action>, e: Event, uuid: string, id: Id, now: Time)
    returns (more: seq<Action>, quote: Option<Quote>)
    requires e.kind == "message" && Storable(lib, Run(lib, actions).db, e) && id != ""
    requires FindKey(Run(lib, actions).db.rows, "ws:" + uuid).None? && FindRow(Run(lib, actions).db.rows, id).None?
    ensures actions <= more && EndsWith(MessageWires(Run(lib, more).redis), EchoOf(e, id, now, quote))
    ensures e.replyTo == "" ==> quote.None?
    ensures forall p | p in Run(lib, actions).db.rows && p.id == e.replyTo ::
              quote == Some(Quote(p.id, p.sender, LiveText(lib, p.content, p.mtype), p.at))
  {
    var s := Run(lib, actions);
    RunSound(lib, actions);
    assert (e.chat, e.sender) in s.db.members && e.chat != "";
    var mid := MessageIsStored(lib, actions, e, uuid, id, now);
    EchoCarriesWhatWasSent(lib, s.db, e, uuid, id, now);
    var n := FanCatchesUp(lib, mid);
    more := mid + Repeat(Fan, n);
    CopiedLast(lib, more);
    var created := Run(lib, more).db.created;
    quote := MessageEvent(created[|created| - 1]).quote;
    forall p | p in s.db.rows && p.id == e.replyTo
      ensures quote == Some(Quote(p.id, p.sender, LiveText(lib, p.content, p.mtype), p.at))
    {
      ParentIsFound(lib, actions, mid, e, p);
    }
  }

  /** A message answered within its chat is found there when its answer is quoted. */
  lemma ParentIsFound(lib: Lib, actions: seq<Action>, more: seq<Action>, e: Event, p: Row)
    requires Run(lib, actions).db.rows <= Run(lib, more).db.rows && p in Run(lib, actions).db.rows
    requires e.replyTo == p.id && InChat(Run(lib, actions).db.rows, e.replyTo, e.chat)
    ensures LiveQuote(lib, Run(lib, more).db.rows, e.replyTo, e.chat)
         == Some(Quote(p.id, p.sender, LiveText(lib, p.content, p.mtype), p.at))
    ensures p.id != ""
  {
    var rows := Run(lib, more).db.rows;
    RunSound(lib, actions);
    RunSound(lib, more);
    var old' := Run(lib, actions).db.rows;
    var i :| 0 <= i < |old'| && old'[i].id == e.replyTo && old'[i].chat == e.chat;
    RowById(old', p);
    RowById(old', old'[i]);
    assert p in rows;
    RowById(rows, p);
  }

  /**
    A reaction that changes the table reaches its chat: the last reaction change on Redis is then this one, with
    the action that was asked for.
  */
  lemma ReactionReachesChannel(lib: Lib, actions: seq<Action>, e: Event, uuid: string, id: Id, now: Time)
    returns (more: seq<Action>)
    requires TrimsOnce(lib) && e.kind == "reaction" && Reactable(lib, Run(lib, actions).db, e) && id != ""
    requires Reactions.Has(Run(lib, actions).db.reactions, Key(e.message, e.sender, lib.trim(e.emoji))) <==> e.action == "remove"
    ensures actions <= more
    ensures var change := Reactions.Event(Key(e.message, e.sender, lib.trim(e.emoji)), e.action != "remove");
            EndsWith(ReactionWires(Run(lib, more).redis), ReactionWire(e.chat, change))
  {
    var s := Run(lib, actions);
    InboundIsPipeline(lib, actions, e, uuid);
    var n := ReactAlone(lib, actions + Steps(lib, e, uuid), |s.tasks|, id, now);
    var mid := actions + Steps(lib, e, uuid) + Repeat(Advance(|s.tasks|, id, now), n);
    Regrouped(actions, Steps(lib, e, uuid), Repeat(Advance(|s.tasks|, id, now), n));
    ReactOutcome(lib, s.db, Reacted(e), now);
    var m := FanUpdateCatchesUp(lib, mid);
    more := mid + Repeat(FanUpdate, m);
    UpdateCopiedLast(lib, more);
  }

  lemma JoiningAdds(lib: Lib, actions: seq<Action>, chat: Id, user: Id)
    requires chat != "" && user != ""
    ensures var s := Run(lib, actions);
            Run(lib, actions + [Join(chat, user)]) == s.(db := s.db.(members := s.db.members + {(chat, user)}))
  {
    RunPlus(lib, actions, Join(chat, user));
  }

  /** A text message to a chat that answers nothing. */
  function Saying(chat: Id, user: Id, text: Bytes): Event {
    Event("message", chat, user, "text", text, None, "", [], "", "")
  }

  /** Whoever joins a chat is heard in it, from every reachable state. */
  lemma NewMemberIsHeard(lib: Lib, actions: seq<Action>, chat: Id, user: Id, text: Bytes, uuid: string, id: Id, now: Time)
    returns (more: seq<Action>)
    requires chat != "" && user != "" && lib.trim(text) != [] && id != ""
    requires FindKey(Run(lib, actions).db.rows, "ws:" + uuid).None? && FindRow(Run(lib, actions).db.rows, id).None?
    ensures actions <= more
    ensures EndsWith(MessageWires(Run(lib, more).redis), MessageWire(chat, user, "text", text, id, now, "", None))
  {
    JoiningAdds(lib, actions, chat, user);
    var quote: Option<Quote>;
    more, quote := MessageReachesChannel(lib, actions + [Join(chat, user)], Saying(chat, user, text), uuid, id, now);
  }
}
