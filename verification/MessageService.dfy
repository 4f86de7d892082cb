/** The handlers of the message service (message_service.go), statement by statement and as whole calls. */
module MessageService {
  import opened Common
  import opened Runes
  import opened Store
  import Reactions

  /** A reaction change as published, with its chat. */
  datatype Update = Update(chat: Id, e: Reactions.Event)

  /** The database tables and the two subjects the service publishes on. */
  datatype Db = Db(members: set<(Id, Id)>, rows: seq<Row>, reactions: seq<Reaction>, receipts: map<(Id, Id), Time>,
                   created: seq<Message>, updated: seq<Update>)

  /**
    A request to store a message: by REST or from a persist event. file is the JSON body of an attachment
    that passed the object store's checks, None if it did not.
  */
  datatype Post = Post(rest: bool, chat: Id, sender: Id, key: string, replyTo: Id, mtype: string, text: Bytes,
                       file: Option<Bytes>)

  datatype PostStage =
    | CheckReply
    | CheckMember
    | Insert(body: Bytes, mt: string)
    | Reread
    | Attach(row: Row, inserted: bool)
    | Publish(m: Message)
    | Answer(r: Option<Message>)

  /** A request to add or remove a reaction: by message over REST, or from an event that names the chat. */
  datatype React = React(rest: bool, chat: Id, user: Id, message: Id, emoji: Bytes, add: bool)

  datatype ReactStage =
    | FindChat(emoji: Bytes)
    | ReactorIsMember(chat: Id, emoji: Bytes)
    | MessageInThisChat(chat: Id, emoji: Bytes)
    | Write(chat: Id, emoji: Bytes)
    | PublishUpdate(u: Update)
    | Finished

  datatype Receipt = Receipt(chat: Id, user: Id, message: Id)

  datatype ReceiptStage = ReaderIsMember | SelectChat | Upsert | Over

  // ---------- storing a message ----------

  function Body(lib: Lib, q: Post): Option<(Bytes, string)> {
    var mt := if q.mtype == "" then "text" else q.mtype;
    if mt == "file" then if q.file.None? then None else Some((q.file.value, "file"))
    else if lib.trim(q.text) == [] then None
    else Some((q.text, "text"))
  }

  function AfterChecks(lib: Lib, q: Post): PostStage {
    match Body(lib, q) case None => Answer(None) case Some(b) => Insert(b.0, b.1)
  }

  /** REST checks the reply link first, the event handler checks membership first. */
  function StartPost(q: Post): PostStage {
    if q.rest then if q.replyTo != "" then CheckReply else CheckMember
    else if q.key == "" then Answer(None)
    else CheckMember
  }

  /** One statement of the handler; id and now are what the insert would use. */
  function PostStep(lib: Lib, db: Db, q: Post, stage: PostStage, id: Id, now: Time): (Db, PostStage) {
    match stage
    case CheckReply =>
      (db, if !InChat(db.rows, q.replyTo, q.chat) then Answer(None)
           else if q.rest then CheckMember
           else AfterChecks(lib, q))
    case CheckMember =>
      (db, if (q.chat, q.sender) !in db.members then Answer(None)
           else if q.rest || q.replyTo == "" then AfterChecks(lib, q)
           else CheckReply)
    case Insert(body, mt) =>
      var row := Row(id, q.chat, q.sender, mt, body, q.key, q.replyTo, now);
      if q.key != "" && FindKey(db.rows, q.key).Some? then (db, Reread)
      else if FindRow(db.rows, id).Some? then (db, Answer(None))
      else (db.(rows := db.rows + [row]), Attach(row, true))
    case Reread =>
      (db, match FindKey(db.rows, q.key) case None => Answer(None) case Some(row) => Attach(row, false))
    case Attach(row, inserted) =>
      var m := Attached(lib, db.rows, row);
      (db, if inserted then Publish(m) else Answer(Some(m)))
    case Publish(m) => (db.(created := db.created + [m]), Answer(Some(m)))
    case Answer(_) => (db, stage)
  }

  function PostRank(q: Post, stage: PostStage): nat {
    match stage
    case CheckReply => if q.rest then 7 else 6
    case CheckMember => if q.rest then 6 else 7
    case Insert(_, _) => 5
    case Reread => 4
    case Attach(_, _) => 3
    case Publish(_) => 2
    case Answer(_) => 0
  }

  /** The handler run to its end with nothing else going on. */
  function RunPost(lib: Lib, db: Db, q: Post, stage: PostStage, id: Id, now: Time): (Db, Option<Message>)
    decreases PostRank(q, stage)
  {
    if stage.Answer? then (db, stage.r)
    else
      var next := PostStep(lib, db, q, stage, id, now);
      RunPost(lib, next.0, q, next.1, id, now)
  }

  lemma UnfoldPost(lib: Lib, db: Db, q: Post, stage: PostStage, id: Id, now: Time)
    requires !stage.Answer?
    ensures var next := PostStep(lib, db, q, stage, id, now);
            RunPost(lib, db, q, stage, id, now) == RunPost(lib, next.0, q, next.1, id, now)
  {
  }

  /** From the insert on: a stored row is quoted and published, an existing one only quoted. */
  lemma RunFromInsert(lib: Lib, db: Db, q: Post, body: Bytes, mt: string, id: Id, now: Time)
    ensures var step := PostStep(lib, db, q, Insert(body, mt), id, now);
            RunPost(lib, db, q, Insert(body, mt), id, now) ==
            match step.1
            case Reread =>
              (match FindKey(db.rows, q.key) case None => (db, None) case Some(row) => (db, Some(Attached(lib, db.rows, row))))
            case Attach(row, _) =>
              var m := Attached(lib, step.0.rows, row);
              (step.0.(created := step.0.created + [m]), Some(m))
            case _ => (db, None)
  {
    var step := PostStep(lib, db, q, Insert(body, mt), id, now);
    UnfoldPost(lib, db, q, Insert(body, mt), id, now);
    match step.1 {
      case Reread =>
        UnfoldPost(lib, db, q, Reread, id, now);
        UnfoldPost(lib, db, q, Attach(FindKey(db.rows, q.key).value, false), id, now);
      case Attach(row, _) =>
        UnfoldPost(lib, step.0, q, step.1, id, now);
        UnfoldPost(lib, step.0, q, Publish(Attached(lib, step.0.rows, row)), id, now);
      case _ =>
    }
  }

  /** What both handlers ask of a request before they store it. */
  predicate Acceptable(lib: Lib, db: Db, q: Post) {
    && (q.rest || q.key != "")
    && (q.replyTo != "" ==> InChat(db.rows, q.replyTo, q.chat))
    && (q.chat, q.sender) in db.members
    && Body(lib, q).Some?
  }

  lemma ChecksDecide(lib: Lib, db: Db, q: Post, id: Id, now: Time)
    ensures RunPost(lib, db, q, StartPost(q), id, now) ==
            if Acceptable(lib, db, q) then RunPost(lib, db, q, AfterChecks(lib, q), id, now) else (db, None)
  {
    UnfoldPost(lib, db, q, CheckMember, id, now);
    UnfoldPost(lib, db, q, CheckReply, id, now);
  }

  /**
    What storing a message comes to, by either path. The request is acceptable if an event has its key, the
    reply link, if any, names a message of the chat, the sender is a member, and there is an attachment or a
    text that is not blank. Otherwise nothing happens; a key that is taken gives its row back and publishes
    nothing; else exactly one row is added, holding what was sent, and exactly that row is published, quoted.
  */
  lemma PostOutcome(lib: Lib, db: Db, q: Post, id: Id, now: Time)
    ensures var x := RunPost(lib, db, q, StartPost(q), id, now);
            var isFile := q.mtype == "file";
            var ok := (q.rest || q.key != "") && (q.replyTo != "" ==> InChat(db.rows, q.replyTo, q.chat))
                      && (q.chat, q.sender) in db.members && (if isFile then q.file.Some? else lib.trim(q.text) != []);
            if !ok then x == (db, None)
            else if q.key != "" && FindKey(db.rows, q.key).Some? then
              x == (db, Some(Attached(lib, db.rows, FindKey(db.rows, q.key).value)))
            else if FindRow(db.rows, id).Some? then x == (db, None)
            else
              var row := Row(id, q.chat, q.sender, if isFile then "file" else "text",
                             if isFile then q.file.value else q.text, q.key, q.replyTo, now);
              var m := Attached(lib, db.rows + [row], row);
              x == (db.(rows := db.rows + [row], created := db.created + [m]), Some(m))
  {
    ChecksDecide(lib, db, q, id, now);
    if Acceptable(lib, db, q) {
      RunFromInsert(lib, db, q, Body(lib, q).value.0, Body(lib, q).value.1, id, now);
    }
  }

  /** A redelivered event changes nothing and publishes nothing once its key has a row. */
  lemma RedeliveryIsSilent(lib: Lib, db: Db, q: Post, id: Id, now: Time, again: Id, later: Time)
    requires q.key != "" && Acceptable(lib, db, q) && FindRow(db.rows, id).None?
    ensures var x := RunPost(lib, db, q, StartPost(q), id, now);
            var y := RunPost(lib, x.0, q, StartPost(q), again, later);
            x.1.Some? && y.1.Some? && y.0 == x.0 && y.1.value.row.key == q.key
  {
    PostOutcome(lib, db, q, id, now);
    var x := RunPost(lib, db, q, StartPost(q), id, now);
    assert Acceptable(lib, x.0, q) by {
      if q.replyTo != "" {
        var i :| 0 <= i < |db.rows| && db.rows[i].id == q.replyTo && db.rows[i].chat == q.chat;
        assert x.0.rows[i] == db.rows[i];
      }
    }
    PostOutcome(lib, x.0, q, again, later);
  }

  // ---------- reacting ----------

  function Normalize(lib: Lib, emoji: Bytes): Option<Bytes> {
    var t := lib.trim(emoji);
    if t == [] || |Split(t)| > 16 then None else Some(t)
  }

  function StartReact(lib: Lib, q: React): ReactStage {
    if !q.rest && (q.chat == "" || q.user == "" || q.message == "") then Finished
    else
      match Normalize(lib, q.emoji)
      case None => Finished
      case Some(e) => if q.rest then FindChat(e) else ReactorIsMember(q.chat, e)
  }

  function ReactStep(lib: Lib, db: Db, q: React, stage: ReactStage, now: Time): (Db, ReactStage) {
    match stage
    case FindChat(emoji) =>
      // the REST path normalizes once more inside ApplyReaction
      (db, match FindRow(db.rows, q.message)
           case None => Finished
           case Some(row) =>
             match Normalize(lib, emoji) case None => Finished case Some(e) => ReactorIsMember(row.chat, e))
    case ReactorIsMember(chat, emoji) =>
      (db, if (chat, q.user) in db.members then MessageInThisChat(chat, emoji) else Finished)
    case MessageInThisChat(chat, emoji) =>
      (db, if InChat(db.rows, q.message, chat) then Write(chat, emoji) else Finished)
    case Write(chat, emoji) =>
      var e := Reactions.Event(Key(q.message, q.user, emoji), q.add);
      (db.(reactions := Reactions.Change(db.reactions, e, now)),
       if Reactions.Alters(db.reactions, e) then PublishUpdate(Update(chat, e)) else Finished)
    case PublishUpdate(u) => (db.(updated := db.updated + [u]), Finished)
    case Finished => (db, stage)
  }

  function ReactRank(stage: ReactStage): nat {
    match stage
    case FindChat(_) => 5
    case ReactorIsMember(_, _) => 4
    case MessageInThisChat(_, _) => 3
    case Write(_, _) => 2
    case PublishUpdate(_) => 1
    case Finished => 0
  }

  function RunReact(lib: Lib, db: Db, q: React, stage: ReactStage, now: Time): Db
    decreases ReactRank(stage)
  {
    if stage.Finished? then db
    else
      var next := ReactStep(lib, db, q, stage, now);
      RunReact(lib, next.0, q, next.1, now)
  }

  lemma UnfoldReact(lib: Lib, db: Db, q: React, stage: ReactStage, now: Time)
    requires !stage.Finished?
    ensures var next := ReactStep(lib, db, q, stage, now);
            RunReact(lib, db, q, stage, now) == RunReact(lib, next.0, q, next.1, now)
  {
  }

  /** Trimming twice is trimming once. */
  ghost predicate TrimsOnce(lib: Lib) {
    forall b :: lib.trim(lib.trim(b)) == lib.trim(b)
  }

  /** The chat a request is about: the message's own by REST, the named one from an event. */
  function ChatOf(db: Db, q: React): Option<Id> {
    if !q.rest then if q.chat == "" || q.user == "" || q.message == "" then None else Some(q.chat)
    else match FindRow(db.rows, q.message) case None => None case Some(row) => Some(row.chat)
  }

  lemma ReactFromMember(lib: Lib, db: Db, q: React, chat: Id, e: Bytes, now: Time)
    ensures RunReact(lib, db, q, ReactorIsMember(chat, e), now) ==
            if (chat, q.user) !in db.members || !InChat(db.rows, q.message, chat) then db
            else
              var c := Reactions.Event(Key(q.message, q.user, e), q.add);
              db.(reactions := Reactions.Change(db.reactions, c, now),
                  updated := if Reactions.Alters(db.reactions, c) then db.updated + [Update(chat, c)] else db.updated)
  {
    UnfoldReact(lib, db, q, ReactorIsMember(chat, e), now);
    UnfoldReact(lib, db, q, MessageInThisChat(chat, e), now);
    UnfoldReact(lib, db, q, Write(chat, e), now);
  }

  /**
    What reacting comes to, by either path. The chat is the message's own by REST and the named one from an
    event, which must name everything; the emoji must have 1 to 16 runes once trimmed. A member of the chat,
    for a message of the chat, then changes the one row of the trimmed emoji, and the change is published once
    if it altered the table; anything else changes nothing.
  */
  lemma ReactOutcome(lib: Lib, db: Db, q: React, now: Time)
    requires TrimsOnce(lib)
    ensures var v := RunReact(lib, db, q, StartReact(lib, q), now);
            var emoji, row := lib.trim(q.emoji), FindRow(db.rows, q.message);
            var chat := if !q.rest then q.chat else if row.Some? then row.value.chat else "";
            var named := if q.rest then row.Some? else q.chat != "" && q.user != "" && q.message != "";
            if !named || emoji == [] || |Split(emoji)| > 16
               || (chat, q.user) !in db.members || !InChat(db.rows, q.message, chat)
            then v == db
            else
              var c := Reactions.Event(Key(q.message, q.user, emoji), q.add);
              && v.reactions == Reactions.Change(db.reactions, c, now)
              && v.updated == (if Reactions.Alters(db.reactions, c) then db.updated + [Update(chat, c)] else db.updated)
              && v == db.(reactions := v.reactions, updated := v.updated)
  {
    var e := Normalize(lib, q.emoji);
    if e.Some? {
      assert Normalize(lib, e.value) == e;
      if q.rest {
        UnfoldReact(lib, db, q, FindChat(e.value), now);
      }
      if ChatOf(db, q).Some? {
        ReactFromMember(lib, db, q, ChatOf(db, q).value, e.value, now);
      }
    }
  }

  // ---------- read receipts ----------

  function StartReceipt(q: Receipt): ReceiptStage {
    if q.chat == "" || q.user == "" || q.message == "" then Over else ReaderIsMember
  }

  function ReceiptStep(db: Db, q: Receipt, stage: ReceiptStage, now: Time): (Db, ReceiptStage) {
    match stage
    case ReaderIsMember => (db, if (q.chat, q.user) in db.members then SelectChat else Over)
    case SelectChat =>
      (db, match FindRow(db.rows, q.message)
           case None => Over
           case Some(row) => if row.chat != q.chat then Over else Upsert)
    case Upsert => (db.(receipts := db.receipts[(q.message, q.user) := now]), Over)
    case Over => (db, stage)
  }

  function RunReceipt(db: Db, q: Receipt, now: Time): Db {
    if StartReceipt(q).Over? || (q.chat, q.user) !in db.members then db
    else
      match FindRow(db.rows, q.message)
      case None => db
      case Some(row) => if row.chat != q.chat then db else db.(receipts := db.receipts[(q.message, q.user) := now])
  }

  /**
    What a read receipt comes to: if all three identifiers are set, the reader is a member of the chat and the
    message is one of the chat, the reader's receipt for it is stored with the time, in place of an earlier one;
    otherwise nothing changes, and nothing else changes in any case.
  */
  lemma ReceiptOutcome(db: Db, q: Receipt, now: Time)
    ensures var row := FindRow(db.rows, q.message);
            RunReceipt(db, q, now) ==
            if q.chat != "" && q.user != "" && q.message != "" && (q.chat, q.user) in db.members
               && row.Some? && row.value.chat == q.chat
            then db.(receipts := db.receipts[(q.message, q.user) := now])
            else db
  {
  }

  /** Running the receipt handler's statements one after the other is running it whole. */
  lemma ReceiptStepsAreRun(db: Db, q: Receipt, now: Time)
    ensures var s1 := ReceiptStep(db, q, StartReceipt(q), now);
            var s2 := ReceiptStep(s1.0, q, s1.1, now);
            ReceiptStep(s2.0, q, s2.1, now) == (RunReceipt(db, q, now), Over)
  {
  }

  // ---------- the service object ----------

  class Service {
    const lib: Lib
    var members: set<(Id, Id)>
    var rows: seq<Row>
    var reactions: seq<Reaction>
    var receipts: map<(Id, Id), Time>
    var created: seq<Message>
    var updated: seq<Update>

    ghost function View(): Db
      reads this
    {
      Db(members, rows, reactions, receipts, created, updated)
    }

    constructor (lib: Lib, members: set<(Id, Id)>)
      ensures View() == Db(members, [], [], map[], [], []) && this.lib == lib
    {
      this.lib, this.members := lib, members;
      rows, reactions, receipts, created, updated := [], [], map[], [], [];
    }

    /** The insert, or the row that already carries the key. */
    method Store(q: Post, body: Bytes, mt: string, id: Id, now: Time) returns (row: Option<Row>, inserted: bool)
      modifies this`rows
      ensures var step := PostStep(lib, old(View()), q, Insert(body, mt), id, now);
              View() == step.0 &&
              if step.1.Reread? then !inserted && row == FindKey(rows, q.key)
              else if step.1.Answer? then row.None?
              else inserted && row == Some(step.1.row)
    {
      if q.key != "" {
        var existing := FindKey(rows, q.key);
        if existing.Some? {
          return existing, false;
        }
      }
      if FindRow(rows, id).Some? {
        return None, false;
      }
      var fresh' := Row(id, q.chat, q.sender, mt, body, q.key, q.replyTo, now);
      rows := rows + [fresh'];
      return Some(fresh'), true;
    }

    /** From the body check on, the REST and the event handler do the same. */
    method Finish(q: Post, id: Id, now: Time) returns (r: Option<Message>)
      modifies this`rows, this`created
      ensures (View(), r) == RunPost(lib, old(View()), q, AfterChecks(lib, q), id, now)
    {
      var b := Body(lib, q);
      if b.None? {
        return None;
      }
      RunFromInsert(lib, View(), q, b.value.0, b.value.1, id, now);
      var row, inserted := Store(q, b.value.0, b.value.1, id, now);
      if row.None? {
        return None;
      }
      var m := Attached(lib, rows, row.value);
      if inserted {
        created := created + [m];
      }
      return Some(m);
    }

    method Create(q: Post, id: Id, now: Time) returns (r: Option<Message>)
      requires q.rest
      modifies this`rows, this`created
      ensures (View(), r) == RunPost(lib, old(View()), q, StartPost(q), id, now)
    {
      UnfoldPost(lib, View(), q, CheckMember, id, now);
      UnfoldPost(lib, View(), q, CheckReply, id, now);
      if q.replyTo != "" {
        if !InChat(rows, q.replyTo, q.chat) {
          return None;
        }
      }
      if (q.chat, q.sender) !in members {
        return None;
      }
      r := Finish(q, id, now);
    }

    method PersistFromEvent(q: Post, id: Id, now: Time) returns (r: Option<Message>)
      requires !q.rest
      modifies this`rows, this`created
      ensures (View(), r) == RunPost(lib, old(View()), q, StartPost(q), id, now)
    {
      UnfoldPost(lib, View(), q, CheckMember, id, now);
      UnfoldPost(lib, View(), q, CheckReply, id, now);
      if q.key == "" {
        return None;
      }
      if (q.chat, q.sender) !in members {
        return None;
      }
      if q.replyTo != "" {
        if !InChat(rows, q.replyTo, q.chat) {
          return None;
        }
      }
      r := Finish(q, id, now);
    }

    method ApplyReaction(q: React, chat: Id, emoji: Bytes, now: Time)
      modifies this`reactions, this`updated
      ensures View() == match Normalize(lib, emoji)
                        case None => old(View())
                        case Some(e) => RunReact(lib, old(View()), q, ReactorIsMember(chat, e), now)
    {
      var e := Normalize(lib, emoji);
      if e.None? {
        return;
      }
      UnfoldReact(lib, View(), q, ReactorIsMember(chat, e.value), now);
      UnfoldReact(lib, View(), q, MessageInThisChat(chat, e.value), now);
      UnfoldReact(lib, View(), q, Write(chat, e.value), now);
      if (chat, q.user) !in members || !InChat(rows, q.message, chat) {
        return;
      }
      var k := Key(q.message, q.user, e.value);
      var change := Reactions.Event(k, q.add);
      if q.add {
        var inserted := !Reactions.Has(reactions, k);
        if inserted {
          reactions := reactions + [Reaction(q.message, q.user, e.value, now)];
          updated := updated + [Update(chat, change)];
        }
        return;
      }
      var removed := Reactions.Has(reactions, k);
      reactions := Reactions.Remove(reactions, k);
      if removed {
        updated := updated + [Update(chat, change)];
      }
    }

    method ToggleReaction(q: React, now: Time)
      requires q.rest
      modifies this`reactions, this`updated
      ensures View() == RunReact(lib, old(View()), q, StartReact(lib, q), now)
    {
      var e := Normalize(lib, q.emoji);
      if e.None? {
        return;
      }
      UnfoldReact(lib, View(), q, FindChat(e.value), now);
      var row := FindRow(rows, q.message);
      if row.None? {
        return;
      }
      ApplyReaction(q, row.value.chat, e.value, now);
    }

    method PersistReactionFromEvent(q: React, now: Time)
      requires !q.rest
      modifies this`reactions, this`updated
      ensures View() == RunReact(lib, old(View()), q, StartReact(lib, q), now)
    {
      if q.chat == "" || q.user == "" || q.message == "" {
        return;
      }
      ApplyReaction(q, q.chat, q.emoji, now);
    }

    method PersistReceiptFromEvent(q: Receipt, now: Time)
      modifies this`receipts
      ensures View() == RunReceipt(old(View()), q, now)
      ensures var row := FindRow(rows, q.message);
              receipts ==
              if q.chat != "" && q.user != "" && q.message != "" && (q.chat, q.user) in members
                 && row.Some? && row.value.chat == q.chat
              then old(receipts)[(q.message, q.user) := now]
              else old(receipts)
    {
      if q.chat == "" || q.user == "" || q.message == "" {
        return;
      }
      if (q.chat, q.user) !in members {
        return;
      }
      var row := FindRow(rows, q.message);
      if row.None? || row.value.chat != q.chat {
        return;
      }
      receipts := receipts[(q.message, q.user) := now];
    }
  }
}
