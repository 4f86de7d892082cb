/** The tables of the message service and the statements that read and write them. */
module Store {
  import opened Common
  import opened Runes

  type Id = string
  type Time = int

  /** A messages row; "" stands for a NULL idempotency key or reply link. */
  datatype Row = Row(id: Id, chat: Id, sender: Id, mtype: string, content: Bytes, key: string, replyTo: Id, at: Time)

  datatype Quote = Quote(id: Id, sender: Id, content: Bytes, at: Time)

  datatype Message = Message(row: Row, quote: Option<Quote>)

  datatype Reaction = Reaction(message: Id, user: Id, emoji: Bytes, at: Time)

  /** The primary key of a reaction. */
  datatype Key = Key(message: Id, user: Id, emoji: Bytes)

  /** Library calls: white space trimming, and the file name read out of a file message's JSON body. */
  datatype Lib = Lib(trim: Bytes -> Bytes, filename: Bytes -> Option<Bytes>)

  const CLIP: Bytes := [0xF0, 0x9F, 0x93, 0x8E, 0x20]
  const CLIP_FILE: Bytes := [0xF0, 0x9F, 0x93, 0x8E, 0x20, 0x46, 0x69, 0x6C, 0x65]

  // ---------- messages ----------

  function FindRow(rows: seq<Row>, id: Id): (r: Option<Row>)
    ensures r.Some? <==> exists i :: 0 <= i < |rows| && rows[i].id == id
    ensures r.Some? ==> r.value in rows && r.value.id == id
  {
    if rows == [] then None
    else if rows[|rows| - 1].id == id then Some(rows[|rows| - 1])
    else FindRow(rows[..|rows| - 1], id)
  }

  function FindKey(rows: seq<Row>, key: string): (r: Option<Row>)
    ensures r.Some? <==> exists i :: 0 <= i < |rows| && rows[i].key == key
    ensures r.Some? ==> r.value in rows && r.value.key == key
  {
    if rows == [] then None
    else if rows[|rows| - 1].key == key then Some(rows[|rows| - 1])
    else FindKey(rows[..|rows| - 1], key)
  }

  predicate InChat(rows: seq<Row>, id: Id, chat: Id) {
    exists i :: 0 <= i < |rows| && rows[i].id == id && rows[i].chat == chat
  }

  /** Identifiers are a primary key, and set idempotency keys are unique. */
  ghost predicate Keyed(rows: seq<Row>) {
    && (forall i | 0 <= i < |rows| :: rows[i].id != "")
    && (forall i, j | 0 <= i < j < |rows| :: rows[i].id != rows[j].id)
    && (forall i, j | 0 <= i < j < |rows| && rows[i].key != "" :: rows[i].key != rows[j].key)
  }

  lemma RowById(rows: seq<Row>, row: Row)
    requires Keyed(rows) && row in rows
    ensures FindRow(rows, row.id) == Some(row)
  {
    var r := FindRow(rows, row.id);
    var i :| 0 <= i < |rows| && rows[i] == row;
    var j :| 0 <= j < |rows| && rows[j] == r.value;
    assert i == j;
  }

  lemma RowByKey(rows: seq<Row>, row: Row)
    requires Keyed(rows) && row in rows && row.key != ""
    ensures FindKey(rows, row.key) == Some(row)
  {
    var r := FindKey(rows, row.key);
    var i :| 0 <= i < |rows| && rows[i] == row;
    var j :| 0 <= j < |rows| && rows[j] == r.value;
    assert i == j;
  }

  // ---------- quotes ----------

  /** The text of a quote as GetReplyPreview computes it. */
  function LiveText(lib: Lib, content: Bytes, mtype: string): Bytes {
    if mtype == "file" then
      var meta := lib.filename(content);
      if meta.Some? && lib.trim(meta.value) != [] then Truncated(CLIP + meta.value, 280) else CLIP_FILE
    else Truncated(content, 280)
  }

  /** GetReplyPreview: the parent is looked up by identifier and chat. */
  function LiveQuote(lib: Lib, rows: seq<Row>, parent: Id, chat: Id): Option<Quote> {
    match FindRow(rows, parent)
    case None => None
    case Some(p) =>
      if p.chat != chat then None else Some(Quote(p.id, p.sender, LiveText(lib, p.content, p.mtype), p.at))
  }

  /** attachReplyPreview: what a published message carries. */
  function Attached(lib: Lib, rows: seq<Row>, row: Row): Message {
    Message(row, if row.replyTo == "" then None else LiveQuote(lib, rows, row.replyTo, row.chat))
  }

  /** History's left join: the parent is looked up by identifier alone. */
  function Joined(rows: seq<Row>, row: Row): Option<Row> {
    if row.replyTo == "" then None else FindRow(rows, row.replyTo)
  }

  class MessageRepository {
    var rows: seq<Row>
    const lib: Lib

    constructor (lib: Lib)
      ensures rows == [] && this.lib == lib
    {
      this.lib := lib;
      rows := [];
    }

    method MessageInChat(id: Id, chat: Id) returns (ok: bool)
      ensures ok <==> InChat(rows, id, chat)
    {
      ok := false;
      var i := 0;
      while i < |rows|
        invariant 0 <= i <= |rows|
        invariant ok <==> InChat(rows[..i], id, chat)
      {
        assert forall j :: 0 <= j < i + 1 ==> rows[..i + 1][j] == if j < i then rows[..i][j] else rows[i];
        if rows[i].id == id && rows[i].chat == chat {
          assert rows[..i + 1][i].id == id && rows[..i + 1][i].chat == chat;
          ok := true;
        } else if ok {
          var j :| 0 <= j < |rows[..i]| && rows[..i][j].id == id && rows[..i][j].chat == chat;
          assert rows[..i + 1][j].id == id && rows[..i + 1][j].chat == chat;
        }
        i := i + 1;
      }
      assert rows[..i] == rows;
    }

    method GetReplyPreview(parent: Id, chat: Id) returns (q: Option<Quote>)
      ensures q == LiveQuote(lib, rows, parent, chat)
    {
      var row := FindRow(rows, parent);
      if row.None? || row.value.chat != chat {
        return None;
      }
      var text: Bytes;
      if row.value.mtype == "file" {
        var meta := lib.filename(row.value.content);
        if meta.Some? && lib.trim(meta.value) != [] {
          text := TruncateRunes(CLIP + meta.value, 280);
        } else {
          text := CLIP_FILE;
        }
      } else {
        text := TruncateRunes(row.value.content, 280);
      }
      return Some(Quote(row.value.id, row.value.sender, text, row.value.at));
    }

    /**
      The idempotent insert: one row per key, whoever comes first; everybody gets that row back.
      A primary key clash, which a fresh identifier never causes, is the only failure.
    */
    method Create(row: Row) returns (r: Option<(Row, bool)>)
      modifies this`rows
      ensures r.None? <==> FindRow(old(rows), row.id).Some? && (row.key == "" || FindKey(old(rows), row.key).None?)
      ensures r.None? ==> rows == old(rows)
      ensures r.Some? && r.value.1 ==> rows == old(rows) + [row] && r.value.0 == row
      ensures r.Some? && !r.value.1 ==>
                rows == old(rows) && row.key != "" && FindKey(rows, row.key) == Some(r.value.0)
      ensures row.key != "" && r.Some? ==> (r.value.1 <==> FindKey(old(rows), row.key).None?)
      ensures Keyed(old(rows)) && row.id != "" ==> Keyed(rows)
    {
      if row.key != "" {
        var existing := FindKey(rows, row.key);
        if existing.Some? {
          return Some((existing.value, false));
        }
      }
      if FindRow(rows, row.id).Some? {
        return None;
      }
      rows := rows + [row];
      return Some((row, true));
    }

    /**
      One page of a chat's history. all is the order in which the database arranges the chat's rows; the loop
      joins each row of the page with its parent.
    */
    method History(all: seq<Row>, limit: nat, offset: nat) returns (out: seq<Message>)
      ensures |out| == |Page(all, limit, offset)|
      ensures forall i | 0 <= i < |out| :: out[i] == HistoryItem(lib, rows, Page(all, limit, offset)[i])
    {
      var page := Page(all, limit, offset);
      out := [];
      for i := 0 to |page|
        invariant |out| == i
        invariant forall j | 0 <= j < i :: out[j] == HistoryItem(lib, rows, page[j])
      {
        var parent := Joined(rows, page[i]);
        var quote: Option<Quote> := None;
        if parent.Some? {
          var text := HistoryQuote(parent.value);
          quote := Some(Quote(parent.value.id, parent.value.sender, text, parent.value.at));
        }
        out := out + [Message(page[i], quote)];
      }
    }

    method HistoryQuote(p: Row) returns (quote: Bytes)
      ensures quote == HistoryText(lib, p)
    {
      quote := TruncateRunes(p.content, 280);
      if p.mtype == "file" {
        var meta := lib.filename(p.content);
        if meta.Some? && lib.trim(meta.value) != [] {
          quote := TruncateRunes(CLIP + meta.value, 280);
        } else {
          quote := CLIP_FILE;
        }
      }
    }
  }

  /** The text of a quote as History computes it: the plain text first, overwritten for a file. */
  function HistoryText(lib: Lib, p: Row): Bytes {
    var plain := Truncated(p.content, 280);
    if p.mtype != "file" then plain
    else
      var meta := lib.filename(p.content);
      if meta.Some? && lib.trim(meta.value) != [] then Truncated(CLIP + meta.value, 280) else CLIP_FILE
  }

  function HistoryItem(lib: Lib, rows: seq<Row>, row: Row): Message {
    match Joined(rows, row)
    case None => Message(row, None)
    case Some(p) => Message(row, Some(Quote(p.id, p.sender, HistoryText(lib, p), p.at)))
  }

  // ---------- what a quote shows ----------

  /** The word File in ASCII. */
  const FILE: Bytes := [0x46, 0x69, 0x6C, 0x65]

  /** The text has these runes, or the first 280 of them and the mark. */
  predicate Shows(text: Bytes, runes: seq<Bytes>) {
    Split(text) == if |runes| <= 280 then runes else runes[..280] + [ELLIPSIS]
  }

  /** What is to be shown of a message: a clip, a space and the file's name or the word File; else its text. */
  function ShownOf(lib: Lib, content: Bytes, mtype: string): seq<Bytes> {
    if mtype != "file" then Split(content)
    else if lib.filename(content).Some? && lib.trim(lib.filename(content).value) != [] then
      [Encode(0x1F4CE), Encode(0x20)] + Split(lib.filename(content).value)
    else [Encode(0x1F4CE), Encode(0x20)] + Split(FILE)
  }

  /** The clip and the space are runes of their own, whatever follows. */
  lemma ClipSplits(name: Bytes)
    ensures Split(CLIP + name) == [Encode(0x1F4CE), Encode(0x20)] + Split(name)
  {
    var clip, space := Encode(0x1F4CE), Encode(0x20);
    WidthOfEncoding(0x1F4CE, space + name);
    SplitCons(clip, space + name);
    WidthOfEncoding(0x20, name);
    SplitCons(space, name);
    assert CLIP + name == clip + (space + name) by {
      ClipEncodes();
    }
  }

  lemma ClipEncodes()
    ensures Encode(0x1F4CE) + Encode(0x20) == CLIP
  {
    assert Encode(0x1F4CE) == [0xF0, 0x9F, 0x93, 0x8E];
  }

  /** A truncated text shows the runes it was made of. */
  lemma TruncatedShows(text: Bytes)
    ensures Shows(Truncated(text, 280), Split(text))
  {
    TruncationKeepsFirstRunes(text, 280);
  }

  /** A short name shows whole. */
  lemma ClipShows(name: Bytes)
    requires |name| <= 200
    ensures Shows(CLIP + name, [Encode(0x1F4CE), Encode(0x20)] + Split(name))
  {
    ClipSplits(name);
  }

  /** Both rules show the same of a message, rune by rune. */
  lemma QuoteShows(lib: Lib, p: Row)
    ensures Shows(LiveText(lib, p.content, p.mtype), ShownOf(lib, p.content, p.mtype))
    ensures Shows(HistoryText(lib, p), ShownOf(lib, p.content, p.mtype))
  {
    var name := lib.filename(p.content);
    if p.mtype != "file" {
      TruncatedShows(p.content);
    } else if name.Some? && lib.trim(name.value) != [] {
      ClipSplits(name.value);
      TruncatedShows(CLIP + name.value);
    } else {
      ClipShows(FILE);
      assert CLIP + FILE == CLIP_FILE;
    }
  }

  /**
    A message that answers a stored message of its chat carries that message's quote, live and in the history;
    one that answers nothing carries none.
  */
  lemma QuoteIsParents(lib: Lib, rows: seq<Row>, row: Row, p: Row)
    requires Keyed(rows) && p in rows
    ensures row.replyTo == "" ==> Attached(lib, rows, row) == HistoryItem(lib, rows, row) == Message(row, None)
    ensures row.replyTo == p.id && row.chat == p.chat ==>
              var live, history := Attached(lib, rows, row), HistoryItem(lib, rows, row);
              && live.row == row == history.row && live.quote.Some? && history.quote.Some?
              && live.quote.value == Quote(p.id, p.sender, live.quote.value.content, p.at)
              && history.quote.value == Quote(p.id, p.sender, history.quote.value.content, p.at)
              && Shows(live.quote.value.content, ShownOf(lib, p.content, p.mtype))
              && Shows(history.quote.value.content, ShownOf(lib, p.content, p.mtype))
  {
    RowById(rows, p);
    QuoteShows(lib, p);
    var i :| 0 <= i < |rows| && rows[i] == p;
    assert p.id != "";
  }

  // ---------- pages ----------

  function OfChat(rows: seq<Row>, chat: Id): (r: seq<Row>)
    ensures forall row :: row in r <==> row in rows && row.chat == chat
  {
    if rows == [] then []
    else
      var last, rest := rows[|rows| - 1], OfChat(rows[..|rows| - 1], chat);
      if last.chat == chat then rest + [last] else rest
  }

  /** WHERE chat_id = ... ORDER BY created_at DESC: the chat's rows, newest first, ties in any order. */
  ghost predicate Arranged(rows: seq<Row>, chat: Id, all: seq<Row>) {
    multiset(all) == multiset(OfChat(rows, chat)) && forall i, j | 0 <= i < j < |all| :: all[i].at >= all[j].at
  }

  /** LIMIT and OFFSET. */
  function Page(all: seq<Row>, limit: nat, offset: nat): seq<Row> {
    if offset >= |all| then [] else if offset + limit >= |all| then all[offset..] else all[offset..offset + limit]
  }

  /** A page holds messages of its chat only, newest first, and is full unless the history ends on it. */
  lemma PageIsOfChat(rows: seq<Row>, chat: Id, all: seq<Row>, limit: nat, offset: nat)
    requires Arranged(rows, chat, all)
    ensures var page := Page(all, limit, offset);
            && (forall row | row in page :: row in rows && row.chat == chat)
            && (forall i, j | 0 <= i < j < |page| :: page[i].at >= page[j].at)
            && |page| <= limit && (offset + limit <= |all| ==> |page| == limit)
  {
    forall row | row in Page(all, limit, offset) ensures row in rows && row.chat == chat {
      assert row in all;
      assert row in multiset(all);
      assert row in OfChat(rows, chat);
    }
  }

  /** The first n pages, one after the other. */
  function Pages(all: seq<Row>, limit: nat, n: nat): seq<Row> {
    if n == 0 then [] else Pages(all, limit, n - 1) + Page(all, limit, (n - 1) * limit)
  }

  /** Paging back loses and repeats nothing: n pages are the n * limit newest messages. */
  lemma {:induction false} PagesTile(all: seq<Row>, limit: nat, n: nat)
    ensures Pages(all, limit, n) == if n * limit >= |all| then all else all[..n * limit]
  {
    if n > 0 {
      PagesTile(all, limit, n - 1);
      assert n * limit == (n - 1) * limit + limit;
    } else {
      assert all == [] || all[..0] == [];
    }
  }

  /** Enough pages show every message of the chat exactly once. */
  lemma PagesShowChat(rows: seq<Row>, chat: Id, all: seq<Row>, limit: nat, n: nat)
    requires Arranged(rows, chat, all) && n * limit >= |OfChat(rows, chat)|
    ensures multiset(Pages(all, limit, n)) == multiset(OfChat(rows, chat))
  {
    assert |all| == |multiset(all)| == |multiset(OfChat(rows, chat))|;
    PagesTile(all, limit, n);
  }
}
