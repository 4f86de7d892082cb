/**
  Any number of message-service handlers interleaved statement by statement, and one chat-service instance
  copying what they publish to the Redis channels (hub.go).
*/
module Pipeline {
  import opened Common
  import opened Runes
  import opened Store
  import opened MessageService
  import Reactions

  datatype Task =
    | Posting(q: Post, ps: PostStage)
    | Reacting(r: React, rs: ReactStage)
    | Reading(c: Receipt, cs: ReceiptStage)

  /** An event on a chat's Redis channel. */
  datatype Wire =
    | MessageWire(chat: Id, sender: Id, mtype: string, content: Bytes, id: Id, at: Time, replyTo: Id, quote: Option<Quote>)
    | ReactionWire(chat: Id, e: Reactions.Event)
    | OtherWire(chat: Id, sender: Id, kind: string)

  /** fanned and fannedUpdates say how much of each subject the chat service has consumed. */
  datatype Sys = Sys(db: Db, tasks: seq<Task>, redis: seq<Wire>, fanned: nat, fannedUpdates: nat)

  /** Begin also stands for the delivery and redelivery of a persist event. */
  datatype Action =
    | Join(chat: Id, user: Id)
    | Begin(t: Task)
    | Advance(k: nat, id: Id, now: Time)
    | Fan
    | FanUpdate
    | Direct(chat: Id, user: Id, kind: string)

  const EMPTY := Sys(Db({}, [], [], map[], [], []), [], [], 0, 0)

  predicate IsStart(lib: Lib, t: Task) {
    match t
    case Posting(q, ps) => ps == StartPost(q)
    case Reacting(r, rs) => rs == StartReact(lib, r)
    case Reading(c, cs) => cs == StartReceipt(c)
  }

  function Step(lib: Lib, db: Db, t: Task, id: Id, now: Time): (Db, Task) {
    match t
    case Posting(q, ps) => var x := PostStep(lib, db, q, ps, id, now); (x.0, Posting(q, x.1))
    case Reacting(r, rs) => var x := ReactStep(lib, db, r, rs, now); (x.0, Reacting(r, x.1))
    case Reading(c, cs) => var x := ReceiptStep(db, c, cs, now); (x.0, Reading(c, x.1))
  }

  /** StartMessageFanout: the Redis event copied from a published message. */
  function MessageEvent(m: Message): Wire {
    var r := m.row;
    MessageWire(r.chat, r.sender, if r.mtype == "" then "text" else r.mtype, r.content, r.id, r.at, r.replyTo, m.quote)
  }

  function FanStep(s: Sys): Sys
    requires s.fanned < |s.db.created|
  {
    var m := s.db.created[s.fanned];
    s.(fanned := s.fanned + 1,
       redis := if m.row.id == "" || m.row.chat == "" then s.redis else s.redis + [MessageEvent(m)])
  }

  /** StartReactionFanout: likewise for reaction changes. */
  function FanUpdateStep(s: Sys): Sys
    requires s.fannedUpdates < |s.db.updated|
  {
    var u := s.db.updated[s.fannedUpdates];
    s.(fannedUpdates := s.fannedUpdates + 1,
       redis := if u.chat == "" || u.e.key.message == "" then s.redis else s.redis + [ReactionWire(u.chat, u.e)])
  }

  function Apply(lib: Lib, s: Sys, a: Action): Sys {
    match a
    case Join(chat, user) =>
      if chat == "" || user == "" then s else s.(db := s.db.(members := s.db.members + {(chat, user)}))
    case Begin(t) => if IsStart(lib, t) then s.(tasks := s.tasks + [t]) else s
    case Advance(k, id, now) =>
      if k >= |s.tasks| || id == "" then s
      else
        var x := Step(lib, s.db, s.tasks[k], id, now);
        s.(db := x.0, tasks := s.tasks[k := x.1])
    case Fan => if s.fanned >= |s.db.created| then s else FanStep(s)
    case FanUpdate => if s.fannedUpdates >= |s.db.updated| then s else FanUpdateStep(s)
    case Direct(chat, user, kind) =>
      // HandleInbound: only members, and never a message or a reaction
      if (chat, user) !in s.db.members || kind == "message" || kind == "reaction" then s
      else s.(redis := s.redis + [OtherWire(chat, user, kind)])
  }

  function Run(lib: Lib, actions: seq<Action>): Sys {
    if actions == [] then EMPTY else Apply(lib, Run(lib, actions[..|actions| - 1]), actions[|actions| - 1])
  }

  lemma RunPlus(lib: Lib, actions: seq<Action>, a: Action)
    ensures Run(lib, actions + [a]) == Apply(lib, Run(lib, actions), a)
  {
    assert (actions + [a])[..|actions|] == actions;
  }

  // ---------- conservation ----------

  /** 1 if the handler still has to publish the message. */
  function Owes(t: Task, id: Id): nat {
    match t
    case Posting(_, Attach(row, true)) => if row.id == id then 1 else 0
    case Posting(_, Publish(m)) => if m.row.id == id then 1 else 0
    case _ => 0
  }

  /** 1 if the handler still has to publish this change. */
  function OwesChange(t: Task, e: Reactions.Event): nat {
    match t
    case Reacting(_, PublishUpdate(u)) => if u.e == e then 1 else 0
    case _ => 0
  }

  function Owed(tasks: seq<Task>, id: Id): nat {
    if tasks == [] then 0 else Owed(tasks[..|tasks| - 1], id) + Owes(tasks[|tasks| - 1], id)
  }

  function OwedChange(tasks: seq<Task>, e: Reactions.Event): nat {
    if tasks == [] then 0 else OwedChange(tasks[..|tasks| - 1], e) + OwesChange(tasks[|tasks| - 1], e)
  }

  /** How often a message was published. */
  function Published(ms: seq<Message>, id: Id): nat {
    if ms == [] then 0 else Published(ms[..|ms| - 1], id) + if ms[|ms| - 1].row.id == id then 1 else 0
  }

  function PublishedChange(us: seq<Update>, e: Reactions.Event): nat {
    if us == [] then 0 else PublishedChange(us[..|us| - 1], e) + if us[|us| - 1].e == e then 1 else 0
  }

  /** A message is published or owed once if it has a row, and never otherwise. */
  ghost predicate MessageBalance(s: Sys, id: Id) {
    Published(s.db.created, id) + Owed(s.tasks, id) == if FindRow(s.db.rows, id).Some? then 1 else 0
  }

  lemma {:induction false} OwedUpdated(tasks: seq<Task>, k: nat, t: Task, id: Id)
    requires k < |tasks|
    ensures Owed(tasks[k := t], id) + Owes(tasks[k], id) == Owed(tasks, id) + Owes(t, id)
  {
    var last := |tasks| - 1;
    if k < last {
      OwedUpdated(tasks[..last], k, t, id);
      assert tasks[k := t][..last] == tasks[..last][k := t];
    } else {
      assert tasks[k := t][..last] == tasks[..last];
    }
  }

  lemma {:induction false} OwedChangeUpdated(tasks: seq<Task>, k: nat, t: Task, e: Reactions.Event)
    requires k < |tasks|
    ensures OwedChange(tasks[k := t], e) + OwesChange(tasks[k], e) == OwedChange(tasks, e) + OwesChange(t, e)
  {
    var last := |tasks| - 1;
    if k < last {
      OwedChangeUpdated(tasks[..last], k, t, e);
      assert tasks[k := t][..last] == tasks[..last][k := t];
    } else {
      assert tasks[k := t][..last] == tasks[..last];
    }
  }

  lemma FindAppended(rows: seq<Row>, row: Row, id: Id)
    ensures FindRow(rows + [row], id) == if row.id == id then Some(row) else FindRow(rows, id)
  {
    assert (rows + [row])[..|rows|] == rows;
  }

  lemma InsertBalance(lib: Lib, db: Db, q: Post, body: Bytes, mt: string, id: Id, now: Time, x: Id)
    ensures var y := PostStep(lib, db, q, Insert(body, mt), id, now);
            && y.0.created == db.created
            && Owes(Posting(q, y.1), x) + (if FindRow(db.rows, x).Some? then 1 else 0)
               == if FindRow(y.0.rows, x).Some? then 1 else 0
  {
    FindAppended(db.rows, Row(id, q.chat, q.sender, mt, body, q.key, q.replyTo, now), x);
  }

  lemma PublishedAppended(ms: seq<Message>, m: Message, x: Id)
    ensures Published(ms + [m], x) == Published(ms, x) + if m.row.id == x then 1 else 0
  {
    assert (ms + [m])[..|ms|] == ms;
  }

  lemma PublishedChangeAppended(us: seq<Update>, u: Update, e: Reactions.Event)
    ensures PublishedChange(us + [u], e) == PublishedChange(us, e) + if u.e == e then 1 else 0
  {
    assert (us + [u])[..|us|] == us;
  }

  /** What one statement of a posting handler does to the balance of a message. */
  lemma PostBalance(lib: Lib, db: Db, q: Post, ps: PostStage, id: Id, now: Time, x: Id)
    ensures var y := PostStep(lib, db, q, ps, id, now);
            Published(y.0.created, x) + Owes(Posting(q, y.1), x) + (if FindRow(db.rows, x).Some? then 1 else 0)
            == Published(db.created, x) + Owes(Posting(q, ps), x) + (if FindRow(y.0.rows, x).Some? then 1 else 0)
  {
    match ps {
      case Insert(body, mt) => InsertBalance(lib, db, q, body, mt, id, now, x);
      case Publish(m) => PublishedAppended(db.created, m, x);
      case _ =>
    }
  }

  /** Additions less removals of a reaction: published, owed by one handler, owed by all. */
  function Net(us: seq<Update>, k: Key): int {
    PublishedChange(us, Reactions.Event(k, true)) - PublishedChange(us, Reactions.Event(k, false))
  }

  function NetOwes(t: Task, k: Key): int {
    OwesChange(t, Reactions.Event(k, true)) - OwesChange(t, Reactions.Event(k, false))
  }

  function NetOwed(tasks: seq<Task>, k: Key): int {
    OwedChange(tasks, Reactions.Event(k, true)) - OwedChange(tasks, Reactions.Event(k, false))
  }

  function Held(rows: seq<Reaction>, k: Key): int {
    if Reactions.Has(rows, k) then 1 else 0
  }

  lemma WriteBalance(lib: Lib, db: Db, r: React, chat: Id, emoji: Bytes, now: Time, k: Key)
    requires Reactions.Distinct(db.reactions)
    ensures var y := ReactStep(lib, db, r, Write(chat, emoji), now);
            && Reactions.Distinct(y.0.reactions) && y.0.updated == db.updated
            && NetOwes(Reacting(r, y.1), k) + Held(db.reactions, k) == Held(y.0.reactions, k)
  {
    Reactions.ChangeMeansEvent(db.reactions, Reactions.Event(Key(r.message, r.user, emoji), r.add), now, k);
  }

  lemma NetAppended(us: seq<Update>, u: Update, k: Key)
    ensures Net(us + [u], k) == Net(us, k) + if u.e.key != k then 0 else if u.e.add then 1 else -1
  {
    PublishedChangeAppended(us, u, Reactions.Event(k, true));
    PublishedChangeAppended(us, u, Reactions.Event(k, false));
  }

  lemma ReactBalance(lib: Lib, db: Db, r: React, rs: ReactStage, now: Time, k: Key)
    requires Reactions.Distinct(db.reactions)
    ensures var y := ReactStep(lib, db, r, rs, now);
            && Reactions.Distinct(y.0.reactions)
            && Net(y.0.updated, k) + NetOwes(Reacting(r, y.1), k) + Held(db.reactions, k)
               == Net(db.updated, k) + NetOwes(Reacting(r, rs), k) + Held(y.0.reactions, k)
  {
    if rs.Write? {
      WriteBalance(lib, db, r, rs.chat, rs.emoji, now, k);
    } else if rs.PublishUpdate? {
      NetAppended(db.updated, rs.u, k);
    } else {
      RestLeavesReactions(lib, db, r, rs, now, k);
    }
  }

  lemma RestLeavesReactions(lib: Lib, db: Db, r: React, rs: ReactStage, now: Time, k: Key)
    requires !rs.Write? && !rs.PublishUpdate?
    ensures var y := ReactStep(lib, db, r, rs, now);
            y.0 == db && NetOwes(Reacting(r, y.1), k) == 0 && NetOwes(Reacting(r, rs), k) == 0
  {
  }

  /** The same for any handler. */
  lemma StepBalance(lib: Lib, db: Db, t: Task, id: Id, now: Time, k: Key)
    requires Reactions.Distinct(db.reactions)
    ensures var y := Step(lib, db, t, id, now);
            && Reactions.Distinct(y.0.reactions)
            && Net(y.0.updated, k) + NetOwes(y.1, k) + Held(db.reactions, k)
               == Net(db.updated, k) + NetOwes(t, k) + Held(y.0.reactions, k)
  {
    match t {
      case Reacting(r, rs) => ReactBalance(lib, db, r, rs, now, k);
      case Posting(q, ps) => PostLeavesReactions(lib, db, q, ps, id, now);
      case Reading(c, cs) =>
    }
  }

  lemma PostLeavesReactions(lib: Lib, db: Db, q: Post, ps: PostStage, id: Id, now: Time)
    ensures var y := PostStep(lib, db, q, ps, id, now); y.0.reactions == db.reactions && y.0.updated == db.updated
  {
  }

  lemma StepMessageBalance(lib: Lib, db: Db, t: Task, id: Id, now: Time, x: Id)
    ensures var y := Step(lib, db, t, id, now);
            Published(y.0.created, x) + Owes(y.1, x) + (if FindRow(db.rows, x).Some? then 1 else 0)
            == Published(db.created, x) + Owes(t, x) + (if FindRow(y.0.rows, x).Some? then 1 else 0)
  {
    match t {
      case Posting(q, ps) => PostBalance(lib, db, q, ps, id, now, x);
      case Reacting(r, rs) => ReactLeavesMessages(lib, db, r, rs, now);
      case Reading(c, cs) =>
    }
  }

  lemma ReactLeavesMessages(lib: Lib, db: Db, r: React, rs: ReactStage, now: Time)
    ensures var y := ReactStep(lib, db, r, rs, now); y.0.rows == db.rows && y.0.created == db.created
  {
  }

  lemma AdvanceMessageBalance(lib: Lib, s: Sys, i: nat, newId: Id, now: Time, id: Id)
    requires MessageBalance(s, id) && i < |s.tasks|
    ensures MessageBalance(Apply(lib, s, Advance(i, newId, now)), id)
  {
    OwedUpdated(s.tasks, i, Step(lib, s.db, s.tasks[i], newId, now).1, id);
    StepMessageBalance(lib, s.db, s.tasks[i], newId, now, id);
  }

  lemma NetOwedUpdated(tasks: seq<Task>, i: nat, t: Task, k: Key)
    requires i < |tasks|
    ensures NetOwed(tasks[i := t], k) + NetOwes(tasks[i], k) == NetOwed(tasks, k) + NetOwes(t, k)
  {
    OwedChangeUpdated(tasks, i, t, Reactions.Event(k, true));
    OwedChangeUpdated(tasks, i, t, Reactions.Event(k, false));
  }

  ghost predicate NetBalance(s: Sys, k: Key) {
    Reactions.Distinct(s.db.reactions) && Net(s.db.updated, k) + NetOwed(s.tasks, k) == Held(s.db.reactions, k)
  }

  lemma AdvanceNetBalance(lib: Lib, s: Sys, i: nat, newId: Id, now: Time, k: Key)
    requires NetBalance(s, k) && i < |s.tasks|
    ensures NetBalance(Apply(lib, s, Advance(i, newId, now)), k)
  {
    NetOwedUpdated(s.tasks, i, Step(lib, s.db, s.tasks[i], newId, now).1, k);
    StepBalance(lib, s.db, s.tasks[i], newId, now, k);
  }

  /** A handler at its start owes nothing. */
  lemma StartOwesNothing(lib: Lib, tasks: seq<Task>, t: Task, id: Id, e: Reactions.Event)
    requires IsStart(lib, t)
    ensures Owed(tasks + [t], id) == Owed(tasks, id) && OwedChange(tasks + [t], e) == OwedChange(tasks, e)
  {
    assert (tasks + [t])[..|tasks|] == tasks;
  }

  lemma {:induction false} RunMessagesBalanced(lib: Lib, actions: seq<Action>, id: Id)
    ensures MessageBalance(Run(lib, actions), id)
  {
    if actions != [] {
      var s, a := Run(lib, actions[..|actions| - 1]), actions[|actions| - 1];
      RunMessagesBalanced(lib, actions[..|actions| - 1], id);
      match a {
        case Advance(i, newId, now) => if i < |s.tasks| { AdvanceMessageBalance(lib, s, i, newId, now, id); }
        case Begin(t) =>
          if IsStart(lib, t) {
            StartOwesNothing(lib, s.tasks, t, id, Reactions.Event(Key("", "", []), true));
          }
        case _ =>
      }
    }
  }

  lemma {:induction false} RunReactionsBalanced(lib: Lib, actions: seq<Action>, k: Key)
    ensures NetBalance(Run(lib, actions), k)
  {
    if actions != [] {
      var s, a := Run(lib, actions[..|actions| - 1]), actions[|actions| - 1];
      RunReactionsBalanced(lib, actions[..|actions| - 1], k);
      match a {
        case Advance(i, newId, now) => if i < |s.tasks| { AdvanceNetBalance(lib, s, i, newId, now, k); }
        case Begin(t) =>
          if IsStart(lib, t) {
            StartOwesNothing(lib, s.tasks, t, "", Reactions.Event(k, true));
            StartOwesNothing(lib, s.tasks, t, "", Reactions.Event(k, false));
          }
        case _ =>
      }
    }
  }

  // ---------- what the checks establish ----------

  /** The reply link points to an earlier row of the same chat. */
  predicate LinkOk(rows: seq<Row>, i: nat)
    requires i < |rows|
  {
    rows[i].replyTo != "" ==> InChat(rows[..i], rows[i].replyTo, rows[i].chat)
  }

  ghost predicate RowsOk(db: Db) {
    && Keyed(db.rows)
    && (forall i | 0 <= i < |db.rows| :: LinkOk(db.rows, i))
    && (forall i | 0 <= i < |db.rows| :: (db.rows[i].chat, db.rows[i].sender) in db.members)
    && (forall c, u | (c, u) in db.members :: c != "" && u != "")
  }

  /** A member of the message's own chat did this. */
  predicate ByMember(db: Db, message: Id, user: Id) {
    var row := FindRow(db.rows, message);
    row.Some? && (row.value.chat, user) in db.members
  }

  ghost predicate AnnexOk(db: Db) {
    && (forall r | r in db.reactions :: ByMember(db, r.message, r.user))
    && (forall p | p in db.receipts :: ByMember(db, p.0, p.1))
  }

  /** A message whose row is stored, quoted as the tables quote it now. */
  predicate Quoted(lib: Lib, db: Db, m: Message) {
    m.row in db.rows && m == Attached(lib, db.rows, m.row)
  }

  ghost predicate LogOk(lib: Lib, db: Db) {
    && (forall m | m in db.created :: Quoted(lib, db, m))
    && (forall u | u in db.updated :: UpdateNamed(u))
  }

  predicate UpdateNamed(u: Update) {
    u.chat != "" && Reactions.Named(u.e)
  }

  predicate PostKnows(lib: Lib, db: Db, q: Post, ps: PostStage) {
    match ps
    case CheckReply => q.replyTo != "" && (!q.rest ==> (q.chat, q.sender) in db.members)
    case CheckMember => q.rest && q.replyTo != "" ==> InChat(db.rows, q.replyTo, q.chat)
    case Insert(_, _) =>
      (q.chat, q.sender) in db.members && (q.replyTo != "" ==> InChat(db.rows, q.replyTo, q.chat))
    case Reread => q.key != "" && FindKey(db.rows, q.key).Some?
    case Attach(row, _) => row in db.rows && row.key == q.key
    case Publish(m) => Quoted(lib, db, m) && m.row.key == q.key
    case Answer(Some(m)) => Quoted(lib, db, m) && m.row.key == q.key
    case Answer(None) => true
  }

  predicate Knows(lib: Lib, db: Db, t: Task) {
    match t
    case Posting(q, ps) => PostKnows(lib, db, q, ps)
    case Reacting(r, FindChat(emoji)) => emoji != []
    case Reacting(r, ReactorIsMember(_, emoji)) => emoji != []
    case Reacting(r, MessageInThisChat(chat, emoji)) => emoji != [] && (chat, r.user) in db.members
    case Reacting(r, Write(chat, emoji)) =>
      emoji != [] && (chat, r.user) in db.members && InChat(db.rows, r.message, chat)
    case Reacting(r, PublishUpdate(u)) => UpdateNamed(u)
    case Reading(c, SelectChat) => (c.chat, c.user) in db.members
    case Reading(c, Upsert) => ByMember(db, c.message, c.user)
    case _ => true
  }

  ghost predicate Sound(lib: Lib, s: Sys) {
    && RowsOk(s.db) && AnnexOk(s.db) && LogOk(lib, s.db)
    && forall t | t in s.tasks :: Knows(lib, s.db, t)
  }

  /** Tables only grow, except the reactions. */
  ghost predicate Extends(old': Db, new': Db) {
    old'.rows <= new'.rows && old'.members <= new'.members && Keyed(new'.rows)
  }

  lemma FoundStays(a: Db, b: Db, id: Id)
    requires Extends(a, b)
    ensures FindRow(a.rows, id).Some? ==> FindRow(b.rows, id) == FindRow(a.rows, id)
    ensures forall chat :: InChat(a.rows, id, chat) ==> InChat(b.rows, id, chat)
  {
    if FindRow(a.rows, id).Some? {
      var row := FindRow(a.rows, id).value;
      assert row in b.rows;
      RowById(b.rows, row);
    }
    forall chat | InChat(a.rows, id, chat) ensures InChat(b.rows, id, chat) {
      var i :| 0 <= i < |a.rows| && a.rows[i].id == id && a.rows[i].chat == chat;
      assert b.rows[i].id == id;
    }
  }

  /** A stored row's quote never changes again: its parent is stored, and stays what it is. */
  lemma QuoteStays(lib: Lib, a: Db, b: Db, m: Message)
    requires RowsOk(a) && Extends(a, b) && Quoted(lib, a, m)
    ensures Quoted(lib, b, m)
  {
    var i :| 0 <= i < |a.rows| && a.rows[i] == m.row;
    assert LinkOk(a.rows, i);
    if m.row.replyTo != "" {
      var j :| 0 <= j < |a.rows[..i]| && a.rows[..i][j].id == m.row.replyTo && a.rows[..i][j].chat == m.row.chat;
      assert a.rows[j].id == m.row.replyTo;
      FoundStays(a, b, m.row.replyTo);
    }
    assert b.rows[i] == m.row;
  }

  lemma KnowledgeStays(lib: Lib, a: Db, b: Db, t: Task)
    requires RowsOk(a) && Extends(a, b) && Knows(lib, a, t)
    ensures Knows(lib, b, t)
  {
    match t {
      case Posting(q, ps) =>
        FoundStays(a, b, q.replyTo);
        KeyStays(a, b, q.key);
        match ps {
          case Attach(row, _) => assert row in b.rows;
          case Publish(m) => QuoteStays(lib, a, b, m);
          case Answer(Some(m)) => QuoteStays(lib, a, b, m);
          case _ =>
        }
      case Reacting(r, _) => FoundStays(a, b, r.message);
      case Reading(c, _) => FoundStays(a, b, c.message);
    }
  }

  lemma KeyStays(a: Db, b: Db, key: string)
    requires Extends(a, b)
    ensures FindKey(a.rows, key).Some? ==> FindKey(b.rows, key).Some?
  {
    if FindKey(a.rows, key).Some? {
      var i :| 0 <= i < |a.rows| && a.rows[i].key == key;
      assert b.rows[i].key == key;
    }
  }

  /** The tables and the log stay as they should when rows and members are added. */
  lemma TablesStay(lib: Lib, a: Db, b: Db)
    requires RowsOk(a) && AnnexOk(a) && LogOk(lib, a) && RowsOk(b) && Extends(a, b)
    requires b.reactions == a.reactions && b.receipts == a.receipts
    requires b.created == a.created && b.updated == a.updated
    ensures AnnexOk(b) && LogOk(lib, b)
  {
    forall m | m in b.created ensures Quoted(lib, b, m) {
      QuoteStays(lib, a, b, m);
    }
    forall r | r in b.reactions ensures ByMember(b, r.message, r.user) {
      assert ByMember(a, r.message, r.user);
      FoundStays(a, b, r.message);
    }
    forall p | p in b.receipts ensures ByMember(b, p.0, p.1) {
      assert ByMember(a, p.0, p.1);
      FoundStays(a, b, p.0);
    }
  }

  lemma KeysGrow(rows: seq<Row>, row: Row)
    requires Keyed(rows) && row.id != "" && FindRow(rows, row.id).None? && (row.key != "" ==> FindKey(rows, row.key).None?)
    ensures Keyed(rows + [row])
  {
  }

  lemma LinksGrow(rows: seq<Row>, row: Row)
    requires forall i | 0 <= i < |rows| :: LinkOk(rows, i)
    requires row.replyTo != "" ==> InChat(rows, row.replyTo, row.chat)
    ensures forall i | 0 <= i < |rows + [row]| :: LinkOk(rows + [row], i)
  {
    var more := rows + [row];
    forall i | 0 <= i < |more| ensures LinkOk(more, i) {
      assert more[..i] == rows[..i];
      if i < |rows| {
        assert LinkOk(rows, i);
      } else {
        assert rows[..i] == rows;
      }
    }
  }

  lemma InsertedOk(db: Db, row: Row)
    requires RowsOk(db) && (row.chat, row.sender) in db.members && row.id != "" && FindRow(db.rows, row.id).None?
    requires row.key != "" ==> FindKey(db.rows, row.key).None?
    requires row.replyTo != "" ==> InChat(db.rows, row.replyTo, row.chat)
    ensures RowsOk(db.(rows := db.rows + [row])) && Extends(db, db.(rows := db.rows + [row]))
  {
    KeysGrow(db.rows, row);
    LinksGrow(db.rows, row);
  }

  ghost predicate DbOk(lib: Lib, db: Db) {
    RowsOk(db) && AnnexOk(db) && LogOk(lib, db)
  }

  lemma InsertSound(lib: Lib, db: Db, q: Post, body: Bytes, mt: string, id: Id, now: Time)
    requires DbOk(lib, db) && PostKnows(lib, db, q, Insert(body, mt)) && id != ""
    ensures var y := PostStep(lib, db, q, Insert(body, mt), id, now);
            DbOk(lib, y.0) && Extends(db, y.0) && PostKnows(lib, y.0, q, y.1)
  {
    var y := PostStep(lib, db, q, Insert(body, mt), id, now);
    if y.1.Attach? {
      InsertedOk(db, Row(id, q.chat, q.sender, mt, body, q.key, q.replyTo, now));
      TablesStay(lib, db, y.0);
    }
  }

  lemma PostSound(lib: Lib, db: Db, q: Post, ps: PostStage, id: Id, now: Time)
    requires DbOk(lib, db) && PostKnows(lib, db, q, ps) && id != ""
    ensures var y := PostStep(lib, db, q, ps, id, now);
            DbOk(lib, y.0) && Extends(db, y.0) && PostKnows(lib, y.0, q, y.1)
  {
    if ps.Insert? {
      InsertSound(lib, db, q, ps.body, ps.mt, id, now);
    }
  }

  lemma WriteSound(lib: Lib, db: Db, r: React, chat: Id, emoji: Bytes, now: Time)
    requires DbOk(lib, db) && Knows(lib, db, Reacting(r, Write(chat, emoji)))
    ensures var y := ReactStep(lib, db, r, Write(chat, emoji), now);
            && AnnexOk(y.0) && y.0 == db.(reactions := y.0.reactions)
            && (y.1.PublishUpdate? ==> UpdateNamed(y.1.u)) && (y.1.PublishUpdate? || y.1.Finished?)
  {
    var i :| 0 <= i < |db.rows| && db.rows[i].id == r.message && db.rows[i].chat == chat;
    RowById(db.rows, db.rows[i]);
    assert ByMember(db, r.message, r.user);
    assert (db.rows[i].chat, db.rows[i].sender) in db.members;
  }

  lemma ReactSound(lib: Lib, db: Db, r: React, rs: ReactStage, now: Time)
    requires DbOk(lib, db) && Knows(lib, db, Reacting(r, rs))
    ensures var y := ReactStep(lib, db, r, rs, now);
            DbOk(lib, y.0) && Extends(db, y.0) && Knows(lib, y.0, Reacting(r, y.1))
  {
    if rs.Write? {
      WriteSound(lib, db, r, rs.chat, rs.emoji, now);
      var y := ReactStep(lib, db, r, rs, now);
      assert RowsOk(y.0) && LogOk(lib, y.0) by {
        SameRows(lib, db, y.0);
      }
    }
  }

  lemma SameRows(lib: Lib, a: Db, b: Db)
    requires RowsOk(a) && LogOk(lib, a) && b == a.(reactions := b.reactions)
    ensures RowsOk(b) && LogOk(lib, b)
  {
    assert forall i | 0 <= i < |a.rows| :: LinkOk(a.rows, i);
    forall m | m in b.created ensures Quoted(lib, b, m) {
      assert Quoted(lib, a, m);
    }
  }

  lemma ReadSound(lib: Lib, db: Db, c: Receipt, cs: ReceiptStage, now: Time)
    requires DbOk(lib, db) && Knows(lib, db, Reading(c, cs))
    ensures var y := ReceiptStep(db, c, cs, now);
            DbOk(lib, y.0) && Extends(db, y.0) && Knows(lib, y.0, Reading(c, y.1))
  {
    var y := ReceiptStep(db, c, cs, now);
    forall p | p in y.0.receipts ensures ByMember(y.0, p.0, p.1) {
      assert p in db.receipts || (cs.Upsert? && p == (c.message, c.user));
      assert p in db.receipts ==> ByMember(db, p.0, p.1);
    }
  }

  lemma StepSound(lib: Lib, db: Db, t: Task, id: Id, now: Time)
    requires DbOk(lib, db) && Knows(lib, db, t) && id != ""
    ensures var x := Step(lib, db, t, id, now);
            DbOk(lib, x.0) && Extends(db, x.0) && Knows(lib, x.0, x.1)
  {
    match t {
      case Posting(q, ps) => PostSound(lib, db, q, ps, id, now);
      case Reacting(r, rs) => ReactSound(lib, db, r, rs, now);
      case Reading(c, cs) => ReadSound(lib, db, c, cs, now);
    }
  }

  lemma TasksStay(lib: Lib, a: Db, b: Db, tasks: seq<Task>)
    requires RowsOk(a) && Extends(a, b) && forall t | t in tasks :: Knows(lib, a, t)
    ensures forall t | t in tasks :: Knows(lib, b, t)
  {
    forall t | t in tasks ensures Knows(lib, b, t) {
      KnowledgeStays(lib, a, b, t);
    }
  }

  lemma JoinSound(lib: Lib, s: Sys, chat: Id, user: Id)
    requires Sound(lib, s)
    ensures Sound(lib, Apply(lib, s, Join(chat, user)))
  {
    var v := Apply(lib, s, Join(chat, user));
    forall i | 0 <= i < |v.db.rows| ensures LinkOk(v.db.rows, i) {
      assert LinkOk(s.db.rows, i);
    }
    TablesStay(lib, s.db, v.db);
    TasksStay(lib, s.db, v.db, s.tasks);
  }

  lemma AdvanceSound(lib: Lib, s: Sys, k: nat, id: Id, now: Time)
    requires Sound(lib, s) && k < |s.tasks| && id != ""
    ensures Sound(lib, Apply(lib, s, Advance(k, id, now)))
  {
    var x := Step(lib, s.db, s.tasks[k], id, now);
    StepSound(lib, s.db, s.tasks[k], id, now);
    TasksStay(lib, s.db, x.0, s.tasks);
    assert forall t | t in s.tasks[k := x.1] :: t == x.1 || t in s.tasks;
  }

  lemma {:induction false} RunSound(lib: Lib, actions: seq<Action>)
    ensures Sound(lib, Run(lib, actions))
  {
    if actions != [] {
      var s, a := Run(lib, actions[..|actions| - 1]), actions[|actions| - 1];
      RunSound(lib, actions[..|actions| - 1]);
      match a {
        case Join(chat, user) => JoinSound(lib, s, chat, user);
        case Advance(k, id, now) =>
          if k < |s.tasks| && id != "" {
            AdvanceSound(lib, s, k, id, now);
          }
        case _ =>
      }
    }
  }

  // ---------- what the chat service copies ----------

  function MessageWires(ws: seq<Wire>): seq<Wire> {
    if ws == [] then []
    else
      var rest := MessageWires(ws[..|ws| - 1]);
      if ws[|ws| - 1].MessageWire? then rest + [ws[|ws| - 1]] else rest
  }

  function ReactionWires(ws: seq<Wire>): seq<Wire> {
    if ws == [] then []
    else
      var rest := ReactionWires(ws[..|ws| - 1]);
      if ws[|ws| - 1].ReactionWire? then rest + [ws[|ws| - 1]] else rest
  }

  function MessageEvents(ms: seq<Message>): (ws: seq<Wire>)
    ensures |ws| == |ms| && forall i | 0 <= i < |ms| :: ws[i] == MessageEvent(ms[i])
  {
    if ms == [] then [] else MessageEvents(ms[..|ms| - 1]) + [MessageEvent(ms[|ms| - 1])]
  }

  function UpdateEvents(us: seq<Update>): (ws: seq<Wire>)
    ensures |ws| == |us| && forall i | 0 <= i < |us| :: ws[i] == ReactionWire(us[i].chat, us[i].e)
  {
    if us == [] then [] else UpdateEvents(us[..|us| - 1]) + [ReactionWire(us[|us| - 1].chat, us[|us| - 1].e)]
  }

  predicate MessagesCopied(redis: seq<Wire>, created: seq<Message>, n: nat) {
    n <= |created| && MessageWires(redis) == MessageEvents(created[..n])
  }

  predicate UpdatesCopied(redis: seq<Wire>, updated: seq<Update>, n: nat) {
    n <= |updated| && ReactionWires(redis) == UpdateEvents(updated[..n])
  }

  predicate Copied(s: Sys) {
    MessagesCopied(s.redis, s.db.created, s.fanned) && UpdatesCopied(s.redis, s.db.updated, s.fannedUpdates)
  }

  lemma WireAppended(ws: seq<Wire>, w: Wire)
    ensures MessageWires(ws + [w]) == if w.MessageWire? then MessageWires(ws) + [w] else MessageWires(ws)
    ensures ReactionWires(ws + [w]) == if w.ReactionWire? then ReactionWires(ws) + [w] else ReactionWires(ws)
  {
    assert (ws + [w])[..|ws|] == ws;
  }

  lemma LogsGrow(lib: Lib, db: Db, t: Task, id: Id, now: Time)
    ensures db.created <= Step(lib, db, t, id, now).0.created
    ensures db.updated <= Step(lib, db, t, id, now).0.updated
  {
  }

  /** Nothing published lacks the identifiers the chat service insists on. */
  predicate Copyable(s: Sys) {
    && (forall m | m in s.db.created :: m.row.id != "" && m.row.chat != "")
    && (forall u | u in s.db.updated :: UpdateNamed(u))
  }

  lemma SoundIsCopyable(lib: Lib, s: Sys)
    requires Sound(lib, s)
    ensures Copyable(s)
  {
    forall m | m in s.db.created ensures m.row.id != "" && m.row.chat != "" {
      assert Quoted(lib, s.db, m);
      var i :| 0 <= i < |s.db.rows| && s.db.rows[i] == m.row;
      assert (s.db.rows[i].chat, s.db.rows[i].sender) in s.db.members;
    }
  }

  lemma NextMessageEvent(ms: seq<Message>, n: nat)
    requires n < |ms|
    ensures MessageEvents(ms[..n + 1]) == MessageEvents(ms[..n]) + [MessageEvent(ms[n])]
  {
    assert ms[..n + 1][..n] == ms[..n];
  }

  lemma NextUpdateEvent(us: seq<Update>, n: nat)
    requires n < |us|
    ensures UpdateEvents(us[..n + 1]) == UpdateEvents(us[..n]) + [ReactionWire(us[n].chat, us[n].e)]
  {
    assert us[..n + 1][..n] == us[..n];
  }

  lemma MessageCopied(redis: seq<Wire>, created: seq<Message>, n: nat)
    requires n < |created| && MessagesCopied(redis, created, n)
    ensures MessagesCopied(redis + [MessageEvent(created[n])], created, n + 1)
  {
    WireAppended(redis, MessageEvent(created[n]));
    NextMessageEvent(created, n);
  }

  lemma UpdateCopied(redis: seq<Wire>, updated: seq<Update>, n: nat)
    requires n < |updated| && UpdatesCopied(redis, updated, n)
    ensures UpdatesCopied(redis + [ReactionWire(updated[n].chat, updated[n].e)], updated, n + 1)
  {
    WireAppended(redis, ReactionWire(updated[n].chat, updated[n].e));
    NextUpdateEvent(updated, n);
  }

  lemma OtherWireCopied(redis: seq<Wire>, created: seq<Message>, n: nat, updated: seq<Update>, m: nat, w: Wire)
    ensures !w.MessageWire? && MessagesCopied(redis, created, n) ==> MessagesCopied(redis + [w], created, n)
    ensures !w.ReactionWire? && UpdatesCopied(redis, updated, m) ==> UpdatesCopied(redis + [w], updated, m)
  {
    WireAppended(redis, w);
  }

  lemma LongerLogs(redis: seq<Wire>, created: seq<Message>, n: nat, updated: seq<Update>, m: nat,
                   created': seq<Message>, updated': seq<Update>)
    requires MessagesCopied(redis, created, n) && UpdatesCopied(redis, updated, m)
    requires created <= created' && updated <= updated'
    ensures MessagesCopied(redis, created', n) && UpdatesCopied(redis, updated', m)
  {
    assert created'[..n] == created[..n] && updated'[..m] == updated[..m];
  }

  lemma FanCopies(s: Sys)
    requires Copyable(s) && Copied(s) && s.fanned < |s.db.created|
    ensures Copied(FanStep(s))
  {
    var m := s.db.created[s.fanned];
    assert m in s.db.created;
    MessageCopied(s.redis, s.db.created, s.fanned);
    OtherWireCopied(s.redis, s.db.created, s.fanned, s.db.updated, s.fannedUpdates, MessageEvent(m));
  }

  lemma FanUpdateCopies(s: Sys)
    requires Copyable(s) && Copied(s) && s.fannedUpdates < |s.db.updated|
    ensures Copied(FanUpdateStep(s))
  {
    var u := s.db.updated[s.fannedUpdates];
    assert UpdateNamed(u);
    UpdateCopied(s.redis, s.db.updated, s.fannedUpdates);
    OtherWireCopied(s.redis, s.db.created, s.fanned, s.db.updated, s.fannedUpdates, ReactionWire(u.chat, u.e));
  }

  lemma AdvanceCopies(lib: Lib, s: Sys, k: nat, id: Id, now: Time)
    requires Copied(s) && k < |s.tasks|
    ensures Copied(Apply(lib, s, Advance(k, id, now)))
  {
    LogsGrow(lib, s.db, s.tasks[k], id, now);
    var v := Apply(lib, s, Advance(k, id, now));
    LongerLogs(s.redis, s.db.created, s.fanned, s.db.updated, s.fannedUpdates, v.db.created, v.db.updated);
  }

  lemma DirectCopies(lib: Lib, s: Sys, chat: Id, user: Id, kind: string)
    requires Copied(s)
    ensures Copied(Apply(lib, s, Direct(chat, user, kind)))
  {
    OtherWireCopied(s.redis, s.db.created, s.fanned, s.db.updated, s.fannedUpdates, OtherWire(chat, user, kind));
  }

  lemma ApplyCopied(lib: Lib, s: Sys, a: Action)
    requires Copied(s) && Copyable(s)
    ensures Copied(Apply(lib, s, a))
  {
    match a {
      case Advance(k, id, now) => if k < |s.tasks| { AdvanceCopies(lib, s, k, id, now); }
      case Fan => if s.fanned < |s.db.created| { FanCopies(s); }
      case FanUpdate => if s.fannedUpdates < |s.db.updated| { FanUpdateCopies(s); }
      case Direct(chat, user, kind) => DirectCopies(lib, s, chat, user, kind);
      case Join(chat, user) => assert Apply(lib, s, a) == s.(db := Apply(lib, s, a).db);
      case Begin(t) => assert Apply(lib, s, a) == s.(tasks := Apply(lib, s, a).tasks);
    }
  }

  lemma {:induction false} RunCopied(lib: Lib, actions: seq<Action>)
    ensures Copied(Run(lib, actions))
  {
    if actions != [] {
      var s, a := Run(lib, actions[..|actions| - 1]), actions[|actions| - 1];
      RunCopied(lib, actions[..|actions| - 1]);
      RunSound(lib, actions[..|actions| - 1]);
      SoundIsCopyable(lib, s);
      ApplyCopied(lib, s, a);
    }
  }

  // ---------- results ----------

  /** At most one row per identifier and per set idempotency key, in every reachable state. */
  lemma {:induction false} RowsAreKeyed(lib: Lib, actions: seq<Action>)
    ensures Keyed(Run(lib, actions).db.rows)
  {
    RunSound(lib, actions);
  }

  /** Every row is published exactly once or owed by exactly one handler, and nothing else is published or owed. */
  lemma PublishedOrOwedOnce(lib: Lib, actions: seq<Action>, id: Id)
    ensures var s := Run(lib, actions);
            Published(s.db.created, id) + Owed(s.tasks, id) == if FindRow(s.db.rows, id).Some? then 1 else 0
  {
    RunMessagesBalanced(lib, actions, id);
  }

  predicate Quiet(tasks: seq<Task>) {
    forall i | 0 <= i < |tasks| ::
      match tasks[i]
      case Posting(_, ps) => ps.Answer?
      case Reacting(_, rs) => rs.Finished?
      case Reading(_, cs) => cs.Over?
  }

  function RowsOf(ms: seq<Message>): (rows: seq<Row>)
    ensures |rows| == |ms| && forall i | 0 <= i < |ms| :: rows[i] == ms[i].row
  {
    if ms == [] then [] else RowsOf(ms[..|ms| - 1]) + [ms[|ms| - 1].row]
  }

  /** Among messages whose rows are stored, a row occurs as often as its identifier was published. */
  lemma {:induction false} CountMessages(rows: seq<Row>, ms: seq<Message>, row: Row)
    requires Keyed(rows) && row in rows && forall m | m in ms :: m.row in rows
    ensures multiset(RowsOf(ms))[row] == Published(ms, row.id)
  {
    if ms != [] {
      CountMessages(rows, ms[..|ms| - 1], row);
      RowById(rows, row);
      RowById(rows, ms[|ms| - 1].row);
    }
  }

  lemma LastIsNew(rows: seq<Row>)
    requires Keyed(rows) && rows != []
    ensures rows[|rows| - 1] !in rows[..|rows| - 1]
  {
  }

  lemma {:induction false} CountRows(rows: seq<Row>, row: Row)
    requires Keyed(rows)
    ensures multiset(rows)[row] == if row in rows then 1 else 0
  {
    if rows != [] {
      var most, last := rows[..|rows| - 1], rows[|rows| - 1];
      assert forall i | 0 <= i < |most| :: most[i] == rows[i];
      CountRows(most, row);
      LastIsNew(rows);
      assert rows == most + [last];
    }
  }

  lemma {:induction false} QuietOwesNothing(tasks: seq<Task>, id: Id, e: Reactions.Event)
    requires Quiet(tasks)
    ensures Owed(tasks, id) == 0 && OwedChange(tasks, e) == 0
  {
    if tasks != [] {
      assert forall i | 0 <= i < |tasks| - 1 :: tasks[..|tasks| - 1][i] == tasks[i];
      QuietOwesNothing(tasks[..|tasks| - 1], id, e);
    }
  }

  lemma PublishedRows(lib: Lib, actions: seq<Action>, row: Row)
    requires Quiet(Run(lib, actions).tasks)
    ensures var s := Run(lib, actions); multiset(RowsOf(s.db.created))[row] == multiset(s.db.rows)[row]
  {
    var s := Run(lib, actions);
    RunSound(lib, actions);
    forall m | m in s.db.created ensures m.row in s.db.rows {
      assert Quoted(lib, s.db, m);
    }
    CountRows(s.db.rows, row);
    if row in s.db.rows {
      PublishedOrOwedOnce(lib, actions, row.id);
      QuietOwesNothing(s.tasks, row.id, Reactions.Event(Key("", "", []), true));
      CountMessages(s.db.rows, s.db.created, row);
      RowById(s.db.rows, row);
    } else {
      assert forall i | 0 <= i < |s.db.created| :: RowsOf(s.db.created)[i] == s.db.created[i].row && s.db.created[i] in s.db.created;
      assert row !in RowsOf(s.db.created);
    }
  }

  /**
    Exactly-once publication: when all handlers are done, the published rows are a permutation of the stored
    ones.
  */
  lemma ExactlyOnce(lib: Lib, actions: seq<Action>)
    requires Quiet(Run(lib, actions).tasks)
    ensures multiset(RowsOf(Run(lib, actions).db.created)) == multiset(Run(lib, actions).db.rows)
  {
    forall row ensures multiset(RowsOf(Run(lib, actions).db.created))[row] == multiset(Run(lib, actions).db.rows)[row] {
      PublishedRows(lib, actions, row);
    }
  }

  /** All handlers that answered for the same idempotency key answered with the same message. */
  lemma SameKeySameAnswer(lib: Lib, actions: seq<Action>, i: nat, j: nat)
    requires i < |Run(lib, actions).tasks| && j < |Run(lib, actions).tasks|
    requires var t, u := Run(lib, actions).tasks[i], Run(lib, actions).tasks[j];
             && t.Posting? && t.ps.Answer? && t.ps.r.Some?
             && u.Posting? && u.ps.Answer? && u.ps.r.Some?
             && t.q.key == u.q.key != ""
    ensures Run(lib, actions).tasks[i].ps.r == Run(lib, actions).tasks[j].ps.r
  {
    var s := Run(lib, actions);
    RunSound(lib, actions);
    var t, u := s.tasks[i], s.tasks[j];
    assert t in s.tasks && u in s.tasks;
    assert Knows(lib, s.db, t) && Knows(lib, s.db, u);
    RowByKey(s.db.rows, t.ps.r.value.row);
    RowByKey(s.db.rows, u.ps.r.value.row);
  }

  /**
    The message events on Redis are the published messages, in order, as far as the chat service has got, and
    each copies a stored row onto its own chat's channel.
  */
  lemma RedisCopiesRows(lib: Lib, actions: seq<Action>, i: nat)
    requires i < |MessageWires(Run(lib, actions).redis)|
    ensures var s := Run(lib, actions); var w := MessageWires(s.redis)[i];
            && i < s.fanned <= |s.db.created|
            && s.db.created[i].row in s.db.rows
            && w == MessageEvent(s.db.created[i])
            && w.chat == s.db.created[i].row.chat
  {
    RunCopied(lib, actions);
    RunSound(lib, actions);
    var s := Run(lib, actions);
    assert MessageWires(s.redis) == MessageEvents(s.db.created[..s.fanned]);
    assert Quoted(lib, s.db, s.db.created[i]);
  }

  /** Senders, readers and reactors are members of the chat their row belongs to, whichever path wrote it. */
  lemma OnlyMembersWrite(lib: Lib, actions: seq<Action>)
    ensures var db := Run(lib, actions).db;
            && (forall row | row in db.rows :: (row.chat, row.sender) in db.members)
            && (forall r | r in db.reactions :: ByMember(db, r.message, r.user))
            && (forall p | p in db.receipts :: ByMember(db, p.0, p.1))
  {
    RunSound(lib, actions);
  }

  /** The row a message answers, if any. */
  function ParentOf(rows: seq<Row>, i: nat): Option<nat>
    requires i < |rows|
  {
    if rows[i].replyTo == "" then None else IndexOf(rows, rows[i].replyTo)
  }

  function IndexOf(rows: seq<Row>, id: Id): (r: Option<nat>)
    ensures r.Some? ==> r.value < |rows| && rows[r.value].id == id
    ensures r.None? ==> forall i | 0 <= i < |rows| :: rows[i].id != id
  {
    if rows == [] then None
    else if rows[|rows| - 1].id == id then Some(|rows| - 1)
    else IndexOf(rows[..|rows| - 1], id)
  }

  /** Reply links go back in insertion order and stay in the chat, so no chain of replies comes back to its start. */
  lemma RepliesGoBack(lib: Lib, actions: seq<Action>, i: nat)
    requires i < |Run(lib, actions).db.rows| && Run(lib, actions).db.rows[i].replyTo != ""
    ensures var rows := Run(lib, actions).db.rows;
            ParentOf(rows, i).Some? && ParentOf(rows, i).value < i && rows[ParentOf(rows, i).value].chat == rows[i].chat
  {
    RunSound(lib, actions);
    var rows := Run(lib, actions).db.rows;
    assert LinkOk(rows, i);
    var j :| 0 <= j < |rows[..i]| && rows[..i][j].id == rows[i].replyTo && rows[..i][j].chat == rows[i].chat;
    assert rows[j].id == rows[i].replyTo;
    var k := ParentOf(rows, i).value;
    assert rows[k].id == rows[j].id;
    assert k == j;
  }

  /** The nth message up the chain of replies. */
  function Ancestor(rows: seq<Row>, i: nat, n: nat): (r: Option<nat>)
    requires i < |rows|
    ensures r.Some? ==> r.value < |rows|
    decreases n
  {
    if n == 0 then Some(i)
    else
      match ParentOf(rows, i)
      case None => None
      case Some(p) => Ancestor(rows, p, n - 1)
  }

  /** A chain of replies ends: after n steps it is at least n rows further back, in the same chat. */
  lemma {:induction false} ReplyChainsEnd(lib: Lib, actions: seq<Action>, i: nat, n: nat)
    requires i < |Run(lib, actions).db.rows|
    ensures var rows := Run(lib, actions).db.rows;
            match Ancestor(rows, i, n)
            case None => true
            case Some(a) => a + n <= i && rows[a].chat == rows[i].chat
    ensures n > i ==> Ancestor(Run(lib, actions).db.rows, i, n).None?
    decreases n
  {
    var rows := Run(lib, actions).db.rows;
    if n > 0 && ParentOf(rows, i).Some? {
      RepliesGoBack(lib, actions, i);
      ReplyChainsEnd(lib, actions, ParentOf(rows, i).value, n - 1);
    }
  }

  /**
    Live preview equals history preview: whatever History later computes for a published message, with its
    own join and its own text rule, is the quote the live event carried.
  */
  lemma LiveQuoteIsHistoryQuote(lib: Lib, actions: seq<Action>, i: nat)
    requires i < |Run(lib, actions).db.created|
    ensures var db := Run(lib, actions).db;
            HistoryItem(lib, db.rows, db.created[i].row) == db.created[i]
  {
    RunSound(lib, actions);
    var db := Run(lib, actions).db;
    var m := db.created[i];
    assert Quoted(lib, db, m);
    if m.row.replyTo != "" {
      var j :| 0 <= j < |db.rows| && db.rows[j] == m.row;
      RepliesGoBack(lib, actions, j);
      var p := db.rows[ParentOf(db.rows, j).value];
      RowById(db.rows, p);
    }
  }

  /** Balance of a reaction's changes, over every interleaving of writes and publications. */
  lemma ReactionChangesBalance(lib: Lib, actions: seq<Action>, k: Key)
    ensures var s := Run(lib, actions);
            var add, remove := Reactions.Event(k, true), Reactions.Event(k, false);
            PublishedChange(s.db.updated, add) + OwedChange(s.tasks, add)
            == PublishedChange(s.db.updated, remove) + OwedChange(s.tasks, remove)
               + if Reactions.Has(s.db.reactions, k) then 1 else 0
  {
    RunReactionsBalanced(lib, actions, k);
  }
}
