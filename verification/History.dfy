/** Loading a chat's history: quotes, receipts and reactions joined onto a page of messages (message_service.go). */
module History {
  import opened Common
  import opened Store
  import R = Reactions

  datatype ReadReceipt = ReadReceipt(user: Id, at: Time)

  datatype ReceiptRow = ReceiptRow(message: Id, user: Id, at: Option<Time>)

  /** A message as the history endpoint returns it. */
  datatype Loaded = Loaded(m: Message, readBy: seq<ReadReceipt>, reactions: seq<R.Bucket>)

  /** A missing time reads as the zero time. */
  function ReadBy(rows: seq<ReceiptRow>, id: Id): seq<ReadReceipt> {
    if rows == [] then []
    else
      var rest, last := ReadBy(rows[..|rows| - 1], id), rows[|rows| - 1];
      if last.message == id then rest + [ReadReceipt(last.user, if last.at.Some? then last.at.value else 0)] else rest
  }

  /** How many of the rows name the message. */
  function Naming(rows: seq<ReceiptRow>, id: Id): nat {
    if rows == [] then 0 else Naming(rows[..|rows| - 1], id) + if rows[|rows| - 1].message == id then 1 else 0
  }

  /** Each row that names the message is listed, behind the rows before it that do. */
  lemma {:induction false} ReadByHas(rows: seq<ReceiptRow>, id: Id, i: nat)
    requires i < |rows| && rows[i].message == id
    ensures Naming(rows[..i], id) < |ReadBy(rows, id)|
    ensures ReadBy(rows, id)[Naming(rows[..i], id)] == ReadReceipt(rows[i].user, if rows[i].at.Some? then rows[i].at.value else 0)
    ensures ReadBy(rows[..i], id) <= ReadBy(rows, id)
  {
    var last := |rows| - 1;
    if i < last {
      ReadByHas(rows[..last], id, i);
      assert rows[..last][..i] == rows[..i];
    } else {
      ReadByCounts(rows[..i], id);
    }
  }

  /** And nothing else is: a reader is listed once per row that names the message. */
  lemma {:induction false} ReadByCounts(rows: seq<ReceiptRow>, id: Id)
    ensures |ReadBy(rows, id)| == Naming(rows, id)
  {
    if rows != [] {
      ReadByCounts(rows[..|rows| - 1], id);
    }
  }

  /** A reader is listed exactly if some row names the reader and the message, with that row's time. */
  lemma {:induction false} ReadByMeans(rows: seq<ReceiptRow>, id: Id, r: ReadReceipt)
    ensures r in ReadBy(rows, id) <==>
            exists i :: 0 <= i < |rows| && rows[i].message == id && rows[i].user == r.user
                        && r.at == if rows[i].at.Some? then rows[i].at.value else 0
  {
    if rows != [] {
      var most := rows[..|rows| - 1];
      ReadByMeans(most, id, r);
      assert forall i | 0 <= i < |most| :: most[i] == rows[i];
      if i :| 0 <= i < |rows| && rows[i].message == id && rows[i].user == r.user
              && r.at == if rows[i].at.Some? then rows[i].at.value else 0 {
        assert i < |most| ==> most[i].message == id;
      }
    }
  }

  function Get<T>(m: map<Id, seq<T>>, id: Id): seq<T> {
    if id in m then m[id] else []
  }

  ghost predicate Grouped(rows: seq<ReceiptRow>, out: map<Id, seq<ReadReceipt>>) {
    forall id :: Get(out, id) == ReadBy(rows, id)
  }

  class HistoryService {
    const messages: MessageRepository
    const reactions: R.ReactionRepository
    var members: set<(Id, Id)>

    constructor (messages: MessageRepository, reactions: R.ReactionRepository, members: set<(Id, Id)>)
      ensures this.messages == messages && this.reactions == reactions && this.members == members
    {
      this.messages, this.reactions, this.members := messages, reactions, members;
    }

    /** ListByMessageIDs: receipts grouped by message, in the order the query returned them. */
    method ListReceipts(rows: seq<ReceiptRow>) returns (out: map<Id, seq<ReadReceipt>>)
      ensures Grouped(rows, out)
    {
      out := map[];
      for i := 0 to |rows|
        invariant Grouped(rows[..i], out)
      {
        var row := rows[i];
        assert rows[..i + 1][..i] == rows[..i];
        var rr := ReadReceipt(row.user, 0);
        if row.at.Some? {
          rr := rr.(at := row.at.value);
        }
        ghost var was := out;
        out := out[row.message := Get(out, row.message) + [rr]];
        assert forall id :: Get(out, id) == if id == row.message then Get(was, id) + [rr] else Get(was, id);
      }
      assert rows[..|rows|] == rows;
    }

    /** The two loops that fill in receipts and reactions, item by item and in place. */
    method Annotate(items: array<Loaded>, byMsg: map<Id, seq<ReadReceipt>>, byReact: map<Id, seq<R.Bucket>>)
      modifies items
      ensures forall i | 0 <= i < items.Length ::
                items[i] == Loaded(old(items[i].m), Get(byMsg, old(items[i].m).row.id), Get(byReact, old(items[i].m).row.id))
    {
      for i := 0 to items.Length
        invariant forall j | 0 <= j < items.Length ::
                    items[j] == if j < i then old(items[j]).(readBy := Get(byMsg, old(items[j].m).row.id)) else old(items[j])
      {
        items[i] := items[i].(readBy := Get(byMsg, items[i].m.row.id));
      }
      for i := 0 to items.Length
        invariant forall j | 0 <= j < items.Length ::
                    items[j] == if j < i
                                then Loaded(old(items[j].m), Get(byMsg, old(items[j].m).row.id), Get(byReact, old(items[j].m).row.id))
                                else old(items[j]).(readBy := Get(byMsg, old(items[j].m).row.id))
      {
        items[i] := items[i].(reactions := Get(byReact, items[i].m.row.id));
      }
    }

    /**
      all, receipts and groups are what the three queries work on and return; the answer is None for a
      stranger.
    */
    method Load(chat: Id, user: Id, all: seq<Row>, limit: nat, offset: nat, receipts: seq<ReceiptRow>, groups: seq<R.Group>,
                trim: string -> string)
      returns (r: Option<array<Loaded>>)
      ensures r.None? <==> (chat, user) !in members
      ensures r.Some? ==>
                fresh(r.value)
                && Answers(messages.lib, messages.rows, Page(all, limit, offset), receipts, groups, trim, r.value[..])
    {
      if (chat, user) !in members {
        return None;
      }
      var found := messages.History(all, limit, offset);
      ghost var page := Page(all, limit, offset);
      var items := new Loaded[|found|](i requires 0 <= i < |found| => Loaded(found[i], [], []));
      if |found| == 0 {
        return Some(items);
      }
      var ids := seq(|found|, i requires 0 <= i < |found| => found[i].row.id);
      var byMsg := ListReceipts(receipts);
      var byReact := reactions.ListAggregated(trim, ids, groups);
      Annotate(items, byMsg, byReact);
      forall i | 0 <= i < |page| ensures Answer(messages.lib, messages.rows, page[i], receipts, groups, trim, items[i]) {
        assert Get(byReact, page[i].id) == R.BucketsOf(trim, groups, page[i].id);
      }
      return Some(items);
    }
  }

  predicate Answer(lib: Lib, rows: seq<Row>, row: Row, receipts: seq<ReceiptRow>, groups: seq<R.Group>,
                   trim: string -> string, x: Loaded) {
    && x.m == HistoryItem(lib, rows, row)
    && x.readBy == ReadBy(receipts, row.id)
    && x.reactions == R.BucketsOf(trim, groups, row.id)
  }

  predicate Answers(lib: Lib, rows: seq<Row>, page: seq<Row>, receipts: seq<ReceiptRow>, groups: seq<R.Group>,
                    trim: string -> string, xs: seq<Loaded>) {
    |xs| == |page| && forall i | 0 <= i < |page| :: Answer(lib, rows, page[i], receipts, groups, trim, xs[i])
  }

  // ---------- what a client makes of the answer ----------

  function Items(xs: seq<Loaded>): seq<R.Item> {
    if xs == [] then [] else [R.Item(xs[0].m.row.id, xs[0].reactions)] + Items(xs[1..])
  }

  lemma {:induction false} ItemFound(lib: Lib, rows: seq<Row>, page: seq<Row>, receipts: seq<ReceiptRow>,
                                     groups: seq<R.Group>, trim: string -> string, xs: seq<Loaded>, i: nat)
    requires Answers(lib, rows, page, receipts, groups, trim, xs) && i < |page|
    ensures R.FindItem(Items(xs), page[i].id) == Some(R.Item(page[i].id, R.BucketsOf(trim, groups, page[i].id)))
  {
    assert xs[0].m.row == page[0];
    if xs[0].m.row.id != page[i].id {
      assert forall j | 0 <= j < |page[1..]| :: xs[1..][j] == xs[j + 1] && page[1..][j] == page[j + 1];
      ItemFound(lib, rows, page[1..], receipts, groups, trim, xs[1..], i - 1);
    }
  }

  /**
    A freshly loaded history shows, for every message on the page, exactly the reactions in the table, in
    their order: it is a snapshot from which later events can be folded.
  */
  lemma LoadedHistoryIsSnapshot(lib: Lib, rows: seq<Row>, page: seq<Row>, receipts: seq<ReceiptRow>, groups: seq<R.Group>,
                                trim: string -> string, xs: seq<Loaded>, table: seq<Reaction>, ids: seq<Id>, i: nat)
    requires Answers(lib, rows, page, receipts, groups, trim, xs) && i < |page| && page[i].id in ids
    requires R.Grouped(table, ids, groups) && R.PlainRows(trim, table)
    ensures R.Snapshot(Items(xs), table, page[i].id)
  {
    ItemFound(lib, rows, page, receipts, groups, trim, xs, i);
    R.HistoryIsSnapshot(trim, table, ids, groups, Items(xs), page[i].id);
  }
}
