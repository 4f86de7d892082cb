/** The message list of one tab: optimistic sending and the merging of live events (ChatApp.tsx). */
module ClientList {
  import opened Common

  type Id = string

  /** A list entry; ts is absent on an entry that was sent optimistically. */
  datatype Entry = Entry(id: Id, sender: Id, mtype: string, content: string, replyId: Id, pending: bool, ts: Option<int>)

  /** A live message event; "" stands for an absent identifier or reply link. */
  datatype Live = Live(id: Id, sender: Id, mtype: string, content: string, replyId: Id, at: Option<int>)

  /** What an echo is matched on. */
  datatype Sig = Sig(content: string, mtype: string, replyId: Id)

  function SigOf(e: Entry): Sig {
    Sig(e.content, e.mtype, e.replyId)
  }

  function SigOfLive(m: Live): Sig {
    Sig(m.content, m.mtype, m.replyId)
  }

  predicate Matches(e: Entry, m: Live) {
    e.pending && e.sender == m.sender && SigOf(e) == SigOfLive(m)
  }

  /** findIndex: the first matching entry, or the length if there is none. */
  function FindPending(list: seq<Entry>, m: Live): (i: nat)
    ensures i <= |list|
    ensures i < |list| ==> Matches(list[i], m)
    ensures forall j | 0 <= j < i :: !Matches(list[j], m)
  {
    if list == [] then 0 else if Matches(list[0], m) then 0 else 1 + FindPending(list[1..], m)
  }

  /** The last five entries. */
  function Recent(list: seq<Entry>): seq<Entry> {
    if |list| > 5 then list[|list| - 5..] else list
  }

  predicate SameText(e: Entry, m: Live) {
    e.sender == m.sender && SigOf(e) == SigOfLive(m)
    && (m.at.None? || e.ts.None? || -4000 < m.at.value - e.ts.value < 4000)
  }

  /** The last five entries are searched for the same text within four seconds. */
  predicate LooksRepeated(list: seq<Entry>, m: Live) {
    exists i :: 0 <= i < |Recent(list)| && SameText(Recent(list)[i], m)
  }

  function Shown(m: Live, now: int): Entry {
    Entry(m.id, m.sender, m.mtype, m.content, m.replyId, false, Some(if m.at.Some? then m.at.value else now))
  }

  /** pushMessage. */
  function Push(list: seq<Entry>, me: Id, m: Live, now: int): seq<Entry> {
    var p := FindPending(list, m);
    if m.id != "" && m.sender == me && p < |list| then list[p := Shown(m, now)]
    else if m.id != "" && exists i :: 0 <= i < |list| && list[i].id == m.id then list
    else if LooksRepeated(list, m) then list
    else list + [Shown(m, now)]
  }

  /** The optimistic part of sendText. */
  function Send(list: seq<Entry>, me: Id, pendingId: Id, text: string, replyId: Id): seq<Entry> {
    list + [Entry(pendingId, me, "text", text, replyId, true, None)]
  }

  // ---------- one tab, an open socket ----------

  /**
    sent and echoed count what was sent and what came back; known holds every identifier in the list's past.
  */
  datatype Tab = Tab(me: Id, list: seq<Entry>, sent: multiset<Sig>, echoed: multiset<Sig>, own: set<Id>, known: set<Id>)

  datatype Event =
    | Sends(pendingId: Id, text: string, replyId: Id)
    | Echo(m: Live, now: int)
    | Peer(m: Live, now: int)

  /**
    The server answers each sent message at most once, with the content, type and reply link that were sent
    and an identifier of its own; messages of others carry other senders and never an identifier of ours.
  */
  predicate Possible(t: Tab, e: Event) {
    match e
    case Sends(pendingId, _, _) => pendingId != "" && pendingId !in t.known
    case Echo(m, _) =>
      m.sender == t.me && m.id != "" && m.id !in t.known && t.echoed[SigOfLive(m)] < t.sent[SigOfLive(m)]
    case Peer(m, _) => m.sender != t.me && m.id !in t.own
  }

  function Apply(t: Tab, e: Event): Tab {
    if !Possible(t, e) then t
    else
      match e
      case Sends(pendingId, text, replyId) =>
        t.(list := Send(t.list, t.me, pendingId, text, replyId),
           sent := t.sent + multiset{Sig(text, "text", replyId)},
           known := t.known + {pendingId})
      case Echo(m, now) =>
        t.(list := Push(t.list, t.me, m, now),
           echoed := t.echoed + multiset{SigOfLive(m)},
           own := t.own + {m.id},
           known := t.known + {m.id})
      case Peer(m, now) =>
        t.(list := Push(t.list, t.me, m, now), known := t.known + {m.id})
  }

  function Run(t: Tab, events: seq<Event>): Tab {
    if events == [] then t else Apply(Run(t, events[..|events| - 1]), events[|events| - 1])
  }

  /** A list as loaded: nothing pending, nothing sent yet. */
  predicate Loaded(t: Tab) {
    && t.sent == t.echoed == multiset{} && t.own == {}
    && forall i | 0 <= i < |t.list| :: !t.list[i].pending && t.list[i].id in t.known
  }

  function PendingCount(list: seq<Entry>, sig: Sig): nat {
    if list == [] then 0
    else
      var last := list[|list| - 1];
      PendingCount(list[..|list| - 1], sig) + if last.pending && SigOf(last) == sig then 1 else 0
  }

  function IdCount(list: seq<Entry>, id: Id): nat {
    if list == [] then 0 else IdCount(list[..|list| - 1], id) + if list[|list| - 1].id == id then 1 else 0
  }

  lemma {:induction false} CountsReplaced(list: seq<Entry>, i: nat, e: Entry, sig: Sig, id: Id)
    requires i < |list|
    ensures PendingCount(list[i := e], sig) + (if list[i].pending && SigOf(list[i]) == sig then 1 else 0)
         == PendingCount(list, sig) + if e.pending && SigOf(e) == sig then 1 else 0
    ensures IdCount(list[i := e], id) + (if list[i].id == id then 1 else 0)
         == IdCount(list, id) + if e.id == id then 1 else 0
  {
    var last := |list| - 1;
    if i < last {
      CountsReplaced(list[..last], i, e, sig, id);
      assert list[i := e][..last] == list[..last][i := e];
    } else {
      assert list[i := e][..last] == list[..last];
    }
  }

  lemma CountsAppended(list: seq<Entry>, e: Entry, sig: Sig, id: Id)
    ensures PendingCount(list + [e], sig) == PendingCount(list, sig) + if e.pending && SigOf(e) == sig then 1 else 0
    ensures IdCount(list + [e], id) == IdCount(list, id) + if e.id == id then 1 else 0
  {
    assert (list + [e])[..|list|] == list;
  }

  lemma {:induction false} PendingCountMeans(list: seq<Entry>, sig: Sig)
    ensures PendingCount(list, sig) > 0 <==> exists i :: 0 <= i < |list| && list[i].pending && SigOf(list[i]) == sig
  {
    if list != [] {
      var most := list[..|list| - 1];
      PendingCountMeans(most, sig);
      assert forall i | 0 <= i < |most| :: most[i] == list[i];
      if i :| 0 <= i < |list| && list[i].pending && SigOf(list[i]) == sig {
        assert i < |most| ==> most[i].pending;
      }
    }
  }

  lemma {:induction false} IdCountMeans(list: seq<Entry>, id: Id)
    ensures IdCount(list, id) > 0 <==> exists i :: 0 <= i < |list| && list[i].id == id
  {
    if list != [] {
      var most := list[..|list| - 1];
      IdCountMeans(most, id);
      assert forall i | 0 <= i < |most| :: most[i] == list[i];
      if i :| 0 <= i < |list| && list[i].id == id {
        assert i < |most| ==> most[i].id == id;
      }
    }
  }

  ghost predicate Reconciled(t: Tab) {
    && (forall i | 0 <= i < |t.list| :: t.list[i].id in t.known)
    && (forall i | 0 <= i < |t.list| && t.list[i].pending :: t.list[i].sender == t.me && t.list[i].id !in t.own)
    && (forall sig :: PendingCount(t.list, sig) + t.echoed[sig] == t.sent[sig])
    && t.own <= t.known
    && (forall id | id in t.own :: id != "" && IdCount(t.list, id) == 1)
  }

  lemma SendsReconciled(t: Tab, pendingId: Id, text: string, replyId: Id)
    requires Reconciled(t) && Possible(t, Sends(pendingId, text, replyId))
    ensures Reconciled(Apply(t, Sends(pendingId, text, replyId)))
  {
    var e := Entry(pendingId, t.me, "text", text, replyId, true, None);
    var v := Apply(t, Sends(pendingId, text, replyId));
    assert v.list == t.list + [e];
    forall sig ensures PendingCount(v.list, sig) + v.echoed[sig] == v.sent[sig] {
      CountsAppended(t.list, e, sig, "");
    }
    forall id | id in v.own ensures id != "" && IdCount(v.list, id) == 1 {
      CountsAppended(t.list, e, SigOf(e), id);
    }
  }

  /** An echo always finds a pending entry of its own kind, so it never falls through to the other rules. */
  lemma EchoFindsPending(t: Tab, m: Live)
    requires Reconciled(t) && Possible(t, Echo(m, 0))
    ensures FindPending(t.list, m) < |t.list|
  {
    var sig := SigOfLive(m);
    assert PendingCount(t.list, sig) + t.echoed[sig] == t.sent[sig];
    PendingCountMeans(t.list, sig);
    var i :| 0 <= i < |t.list| && t.list[i].pending && SigOf(t.list[i]) == sig;
    assert Matches(t.list[i], m);
  }

  lemma EchoReconciled(t: Tab, m: Live, now: int)
    requires Reconciled(t) && Possible(t, Echo(m, now))
    ensures Reconciled(Apply(t, Echo(m, now)))
  {
    EchoFindsPending(t, m);
    var p, e := FindPending(t.list, m), Shown(m, now);
    var v := Apply(t, Echo(m, now));
    assert v.list == t.list[p := e];
    forall sig ensures PendingCount(v.list, sig) + v.echoed[sig] == v.sent[sig] {
      CountsReplaced(t.list, p, e, sig, "");
      assert PendingCount(t.list, sig) + t.echoed[sig] == t.sent[sig];
    }
    forall id | id in v.own ensures id != "" && IdCount(v.list, id) == 1 {
      CountsReplaced(t.list, p, e, SigOf(e), id);
      if id == m.id {
        IdCountMeans(t.list, id);
      }
    }
  }

  lemma PeerReconciled(t: Tab, m: Live, now: int)
    requires Reconciled(t) && Possible(t, Peer(m, now))
    ensures Reconciled(Apply(t, Peer(m, now)))
  {
    var v, e := Apply(t, Peer(m, now)), Shown(m, now);
    if v.list != t.list {
      assert v.list == t.list + [e];
      forall sig ensures PendingCount(v.list, sig) + v.echoed[sig] == v.sent[sig] {
        CountsAppended(t.list, e, sig, "");
      }
      forall id | id in v.own ensures id != "" && IdCount(v.list, id) == 1 {
        CountsAppended(t.list, e, SigOf(e), id);
      }
    }
  }

  lemma {:induction false} CountsOfLoaded(list: seq<Entry>, sig: Sig)
    requires forall i | 0 <= i < |list| :: !list[i].pending
    ensures PendingCount(list, sig) == 0
  {
    PendingCountMeans(list, sig);
  }

  lemma {:induction false} RunReconciled(t: Tab, events: seq<Event>)
    requires Loaded(t)
    ensures Reconciled(Run(t, events)) && Run(t, events).me == t.me
  {
    if events == [] {
      forall sig ensures PendingCount(t.list, sig) == 0 {
        CountsOfLoaded(t.list, sig);
      }
    } else {
      var u, e := Run(t, events[..|events| - 1]), events[|events| - 1];
      RunReconciled(t, events[..|events| - 1]);
      if Possible(u, e) {
        match e {
          case Sends(pendingId, text, replyId) => SendsReconciled(u, pendingId, text, replyId);
          case Echo(m, now) => EchoReconciled(u, m, now);
          case Peer(m, now) => PeerReconciled(u, m, now);
        }
      }
    }
  }

  /**
    Pending reconciliation: whatever peers say in between and in whatever order the echoes come, the pending
    entries of each kind are exactly the sent messages of that kind not yet echoed, and every own message
    that came back is in the list exactly once.
  */
  lemma PendingIsSentMinusEchoed(t: Tab, events: seq<Event>, sig: Sig, id: Id)
    requires Loaded(t)
    ensures var u := Run(t, events);
            && PendingCount(u.list, sig) + u.echoed[sig] == u.sent[sig]
            && (id in u.own ==> IdCount(u.list, id) == 1)
  {
    RunReconciled(t, events);
    var u := Run(t, events);
    assert PendingCount(u.list, sig) + u.echoed[sig] == u.sent[sig];
  }

  /** Once everything sent has come back, nothing is pending any more. */
  lemma NothingPendingAfterEchoes(t: Tab, events: seq<Event>)
    requires Loaded(t) && Run(t, events).sent == Run(t, events).echoed
    ensures forall i | 0 <= i < |Run(t, events).list| :: !Run(t, events).list[i].pending
  {
    RunReconciled(t, events);
    var u := Run(t, events);
    forall i | 0 <= i < |u.list| ensures !u.list[i].pending {
      var sig := SigOf(u.list[i]);
      assert PendingCount(u.list, sig) + u.echoed[sig] == u.sent[sig];
      PendingCountMeans(u.list, sig);
    }
  }

  // ---------- what one event does to the list ----------

  /** The same text of the same sender, less than four seconds away as far as the times are known. */
  predicate Near(e: Entry, m: Live) {
    e.sender == m.sender && e.content == m.content && e.mtype == m.mtype && e.replyId == m.replyId
    && (m.at.Some? && e.ts.Some? ==> -4000 < m.at.value - e.ts.value < 4000)
  }

  /** The message is near one of the last five entries. */
  predicate Repeats(list: seq<Entry>, m: Live) {
    exists i :: 0 <= i < |list| && |list| - 5 <= i && Near(list[i], m)
  }

  lemma RepeatsMeans(list: seq<Entry>, m: Live)
    ensures LooksRepeated(list, m) <==> Repeats(list, m)
  {
    var from := |list| - |Recent(list)|;
    assert forall e :: SameText(e, m) <==> Near(e, m);
    if LooksRepeated(list, m) {
      var i :| 0 <= i < |Recent(list)| && SameText(Recent(list)[i], m);
      assert Near(list[from + i], m);
    }
    if Repeats(list, m) {
      var i :| 0 <= i < |list| && |list| - 5 <= i && Near(list[i], m);
      assert SameText(Recent(list)[i - from], m);
    }
  }

  lemma RunPlus(t: Tab, events: seq<Event>, e: Event)
    ensures Run(t, events + [e]) == Apply(Run(t, events), e)
  {
    assert (events + [e])[..|events|] == events;
  }

  /** A sent text is listed at once, at the end and as pending. */
  lemma SentIsListed(t: Tab, events: seq<Event>, pendingId: Id, text: string, replyId: Id)
    requires Possible(Run(t, events), Sends(pendingId, text, replyId))
    ensures var u, v := Run(t, events), Run(t, events + [Sends(pendingId, text, replyId)]);
            v.list == u.list + [Entry(pendingId, u.me, "text", text, replyId, true, None)]
  {
    RunPlus(t, events, Sends(pendingId, text, replyId));
  }

  /**
    An echo, over every run: it takes the place of the first pending entry with its content, type and reply
    link, carrying the message's own identifier and fields, and every other entry stays where it is.
  */
  lemma EchoReplaces(t: Tab, events: seq<Event>, m: Live, now: int) returns (i: nat)
    requires Loaded(t) && Possible(Run(t, events), Echo(m, now))
    ensures var u, v := Run(t, events), Run(t, events + [Echo(m, now)]);
            && i < |u.list| && u.list[i].pending && SigOf(u.list[i]) == Sig(m.content, m.mtype, m.replyId)
            && (forall j | 0 <= j < i :: !u.list[j].pending || SigOf(u.list[j]) != Sig(m.content, m.mtype, m.replyId))
            && v.list == u.list[i := Entry(m.id, t.me, m.mtype, m.content, m.replyId, false,
                                           Some(if m.at.Some? then m.at.value else now))]
  {
    var u := Run(t, events);
    RunReconciled(t, events);
    EchoFindsPending(u, m);
    RunPlus(t, events, Echo(m, now));
    i := FindPending(u.list, m);
    forall j | 0 <= j < i ensures !u.list[j].pending || SigOf(u.list[j]) != Sig(m.content, m.mtype, m.replyId) {
      assert !Matches(u.list[j], m);
    }
  }

  /**
    A message of somebody else, over every run: it is listed at the end with its own fields unless its
    identifier is in the list or it repeats one of the last five entries; then the list stays as it is.
  */
  lemma PeerIsListed(t: Tab, events: seq<Event>, m: Live, now: int)
    requires Loaded(t) && Possible(Run(t, events), Peer(m, now))
    ensures var u, v := Run(t, events), Run(t, events + [Peer(m, now)]);
            v.list ==
            if (m.id != "" && exists i :: 0 <= i < |u.list| && u.list[i].id == m.id) || Repeats(u.list, m) then u.list
            else u.list + [Entry(m.id, m.sender, m.mtype, m.content, m.replyId, false,
                                 Some(if m.at.Some? then m.at.value else now))]
  {
    RunPlus(t, events, Peer(m, now));
    RepeatsMeans(Run(t, events).list, m);
  }
}
