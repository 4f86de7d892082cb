/**
  The chat service's part of the pipeline (hub.go): what a client's event is turned into, and what it copies
  from the message service to the Redis channels. All traffic to clients is in redis; posts, reacts and
  receipts are the subjects the message service consumes.
*/
module ChatHub {
  import opened Common
  import opened Runes
  import opened Store
  import opened MessageService
  import opened Pipeline

  /** An event as a client sends it over its web socket. */
  datatype Event = Event(kind: string, chat: Id, sender: Id, mtype: string, text: Bytes, file: Option<Bytes>,
                         message: Id, emoji: Bytes, action: string, replyTo: Id)

  datatype Logs = Logs(redis: seq<Wire>, posts: seq<Post>, reacts: seq<React>, receipts: seq<Receipt>)

  class Hub {
    var members: set<(Id, Id)>
    var redis: seq<Wire>
    var posts: seq<Post>
    var reacts: seq<React>
    var receipts: seq<Receipt>

    ghost function View(): Logs
      reads this
    {
      Logs(redis, posts, reacts, receipts)
    }

    constructor (members: set<(Id, Id)>)
      ensures this.members == members && View() == Logs([], [], [], [])
    {
      this.members := members;
      redis, posts, reacts, receipts := [], [], [], [];
    }

    /** uuid is the fresh identifier behind the idempotency key of a message. */
    method HandleInbound(e: Event, uuid: string) returns (ok: bool)
      modifies this`redis, this`posts, this`reacts, this`receipts
      ensures ok <==> Accepted(members, e)
      ensures ok <==> (e.chat, e.sender) in members && (e.kind == "reaction" ==> e.message != "" && e.emoji != [])
      ensures !ok ==> View() == old(View())
      ensures redis == old(redis) + if ok && e.kind != "message" && e.kind != "reaction"
                                    then [OtherWire(e.chat, e.sender, e.kind)] else []
      ensures posts == old(posts) + if ok && e.kind == "message"
                                    then [Post(false, e.chat, e.sender, "ws:" + uuid, e.replyTo, e.mtype, e.text, e.file)]
                                    else []
      ensures reacts == old(reacts) + if ok && e.kind == "reaction"
                                      then [React(false, e.chat, e.sender, e.message, e.emoji, e.action != "remove")]
                                      else []
      ensures receipts == old(receipts) + if ok && e.kind == "read_receipt" && e.message != ""
                                          then [Receipt(e.chat, e.sender, e.message)] else []
    {
      if (e.chat, e.sender) !in members {
        return false;
      }
      if e.kind != "message" && e.kind != "reaction" {
        redis := redis + [OtherWire(e.chat, e.sender, e.kind)];
      }
      if e.kind == "message" {
        posts := posts + [Persisted(e, uuid)];
        return true;
      }
      if e.kind == "reaction" {
        if e.message == "" || e.emoji == [] {
          return false;
        }
        reacts := reacts + [Reacted(e)];
        return true;
      }
      if e.kind == "read_receipt" && e.message != "" {
        receipts := receipts + [Receipt(e.chat, e.sender, e.message)];
      }
      return true;
    }

    /** The subscriber behind StartMessageFanout. */
    method OnMessageCreated(m: Message)
      modifies this`redis
      ensures m.row.id == "" || m.row.chat == "" ==> redis == old(redis)
      ensures m.row.id != "" && m.row.chat != "" ==> redis == old(redis) + [MessageEvent(m)]
    {
      if m.row.id == "" || m.row.chat == "" {
        return;
      }
      var mt := m.row.mtype;
      if mt == "" {
        mt := "text";
      }
      redis := redis + [MessageWire(m.row.chat, m.row.sender, mt, m.row.content, m.row.id, m.row.at, m.row.replyTo, m.quote)];
    }

    /** The subscriber behind StartReactionFanout. */
    method OnReactionUpdated(u: Update)
      modifies this`redis
      ensures u.chat == "" || u.e.key.message == "" ==> redis == old(redis)
      ensures u.chat != "" && u.e.key.message != "" ==> redis == old(redis) + [ReactionWire(u.chat, u.e)]
    {
      if u.chat == "" || u.e.key.message == "" {
        return;
      }
      redis := redis + [ReactionWire(u.chat, u.e)];
    }
  }

  // ---------- what the contracts speak of ----------

  predicate Accepted(members: set<(Id, Id)>, e: Event) {
    (e.chat, e.sender) in members && (e.kind == "reaction" ==> e.message != "" && e.emoji != [])
  }

  /** Everything but messages and reactions goes straight to the chat's channel. */
  predicate Immediate(e: Event) {
    e.kind != "message" && e.kind != "reaction"
  }

  function Persisted(e: Event, uuid: string): Post {
    Post(false, e.chat, e.sender, "ws:" + uuid, e.replyTo, e.mtype, e.text, e.file)
  }

  function Reacted(e: Event): React {
    React(false, e.chat, e.sender, e.message, e.emoji, e.action != "remove")
  }

  // ---------- the hub's events as steps of the pipeline ----------

  /** What one inbound event adds to a run of the pipeline: its own step, and the message service's handler. */
  function Steps(lib: Lib, e: Event, uuid: string): seq<Action> {
    [Direct(e.chat, e.sender, e.kind)] +
    if e.kind == "message" then [Begin(Posting(Persisted(e, uuid), StartPost(Persisted(e, uuid))))]
    else if e.kind == "reaction" then [Begin(Reacting(Reacted(e), StartReact(lib, Reacted(e))))]
    else if e.kind == "read_receipt" && e.message != "" then
      [Begin(Reading(Receipt(e.chat, e.sender, e.message), StartReceipt(Receipt(e.chat, e.sender, e.message))))]
    else []
  }

  /**
    An accepted event moves the pipeline by the hub's own Redis entry and by one new handler at its start, so
    what is proved of every run holds of runs that begin at the web sockets.
  */
  lemma InboundIsPipeline(lib: Lib, actions: seq<Action>, e: Event, uuid: string)
    requires Accepted(Run(lib, actions).db.members, e)
    ensures var s, v := Run(lib, actions), Run(lib, actions + Steps(lib, e, uuid));
            && v.db == s.db
            && v.redis == s.redis + (if Immediate(e) then [OtherWire(e.chat, e.sender, e.kind)] else [])
            && (e.kind == "message" ==>
                  v.tasks == s.tasks + [Posting(Persisted(e, uuid), StartPost(Persisted(e, uuid)))])
            && (e.kind == "reaction" ==>
                  v.tasks == s.tasks + [Reacting(Reacted(e), StartReact(lib, Reacted(e)))])
            && (e.kind == "read_receipt" && e.message != "" ==>
                  var c := Receipt(e.chat, e.sender, e.message); v.tasks == s.tasks + [Reading(c, StartReceipt(c))])
            && (e.kind != "message" && e.kind != "reaction" && (e.kind != "read_receipt" || e.message == "") ==>
                  v.tasks == s.tasks)
            && v.fanned == s.fanned && v.fannedUpdates == s.fannedUpdates
  {
    var d := Direct(e.chat, e.sender, e.kind);
    RunPlus(lib, actions, d);
    var steps := Steps(lib, e, uuid);
    if |steps| == 2 {
      RunPlus(lib, actions + [d], steps[1]);
      assert actions + [d] + [steps[1]] == actions + steps;
    } else {
      assert steps == [d];
    }
  }

  /**
    No event of a client puts a message or a reaction on a Redis channel by itself: only the copies of what
    the message service published are there.
  */
  lemma InboundPublishesNothingDurable(lib: Lib, actions: seq<Action>, e: Event, uuid: string)
    requires Accepted(Run(lib, actions).db.members, e)
    ensures var s, v := Run(lib, actions), Run(lib, actions + Steps(lib, e, uuid));
            MessageWires(v.redis) == MessageWires(s.redis) && ReactionWires(v.redis) == ReactionWires(s.redis)
  {
    InboundIsPipeline(lib, actions, e, uuid);
    var s, v := Run(lib, actions), Run(lib, actions + Steps(lib, e, uuid));
    if Immediate(e) {
      WireAppended(s.redis, OtherWire(e.chat, e.sender, e.kind));
    } else {
      assert v.redis == s.redis;
    }
  }

  lemma {:induction false} KeysStayApart(a: string, b: string)
    ensures "ws:" + a == "ws:" + b <==> a == b
  {
    assert ("ws:" + a)[3..] == a && ("ws:" + b)[3..] == b;
  }

  /** Events with different identifiers never share an idempotency key, and none is dropped for want of one. */
  lemma InboundKeysAreOwn(lib: Lib, e: Event, uuid: string, f: Event, other: string)
    ensures Persisted(e, uuid).key == Persisted(f, other).key <==> uuid == other
    ensures StartPost(Persisted(e, uuid)) == CheckMember
  {
    KeysStayApart(uuid, other);
  }

  /**
    The way of a message from one web socket to the others: what reaches the chat's channel has the sender,
    content, type and reply link that were sent, under the identifier of its new row.
  */
  lemma EchoCarriesWhatWasSent(lib: Lib, db: Db, e: Event, uuid: string, id: Id, now: Time)
    requires e.kind == "message" && Storable(lib, db, e) && id != "" && e.chat != ""
    requires FindKey(db.rows, "ws:" + uuid).None? && FindRow(db.rows, id).None?
    ensures var v := RunPost(lib, db, Persisted(e, uuid), StartPost(Persisted(e, uuid)), id, now).0;
            && |v.created| == |db.created| + 1 && v.created[..|db.created|] == db.created
            && v.rows == db.rows + [v.created[|db.created|].row]
            && MessageEvent(v.created[|db.created|]) ==
               EchoOf(e, id, now, if e.replyTo == "" then None else LiveQuote(lib, v.rows, e.replyTo, e.chat))
  {
    PostOutcome(lib, db, Persisted(e, uuid), id, now);
  }

  /** What a message event needs to be stored. */
  predicate Storable(lib: Lib, db: Db, e: Event) {
    && (e.chat, e.sender) in db.members
    && (e.replyTo != "" ==> InChat(db.rows, e.replyTo, e.chat))
    && if e.mtype == "file" then e.file.Some? else lib.trim(e.text) != []
  }

  /** What the chat's channel should carry for it. */
  function EchoOf(e: Event, id: Id, now: Time, quote: Option<Quote>): Wire {
    if e.mtype == "file" && e.file.Some? then MessageWire(e.chat, e.sender, "file", e.file.value, id, now, e.replyTo, quote)
    else MessageWire(e.chat, e.sender, "text", e.text, id, now, e.replyTo, quote)
  }
}
