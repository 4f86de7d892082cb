/** The chat hub's session registry and the streams that write to its connections (hub.go, websocket_handler.go). */
module SessionHub {
  type User = string
  type Chat = string
  type Key = string

  /** Connections and contexts are numbered in the order of their creation. */
  datatype Session = Session(conn: nat, ctx: nat)

  datatype Registry = Registry(sessions: map<Key, Session>, cancelled: set<nat>)

  datatype Payload = Payload(chat: Chat, data: string)

  function ConnKey(user: User, chat: Chat): Key {
    user + ":" + chat
  }

  /** Keys tell users and chats apart as long as user identifiers contain no colon. */
  lemma {:induction false} ConnKeyInjective(u: User, c: Chat, v: User, d: Chat)
    requires ':' !in u && ':' !in v && ConnKey(u, c) == ConnKey(v, d)
    ensures u == v && c == d
  {
    var k := ConnKey(u, c);
    assert k[0] == if u == "" then ':' else u[0];
    assert k[0] == if v == "" then ':' else v[0];
    if u == "" {
      assert k[1..] == c && k[1..] == d;
    } else {
      assert k[1..] == ConnKey(u[1..], c) == ConnKey(v[1..], d);
      ConnKeyInjective(u[1..], c, v[1..], d);
      assert u == [u[0]] + u[1..] && v == [v[0]] + v[1..];
    }
  }

  // ---------- the registry's operations ----------

  function Begin(r: Registry, key: Key, conn: nat, ctx: nat): Registry {
    Registry(r.sessions[key := Session(conn, ctx)],
             if key in r.sessions then r.cancelled + {r.sessions[key].ctx} else r.cancelled)
  }

  function UnregisterIf(r: Registry, key: Key, conn: nat): Registry {
    if key !in r.sessions || r.sessions[key].conn != conn then r
    else Registry(r.sessions - {key}, r.cancelled + {r.sessions[key].ctx})
  }

  function Cancel(r: Registry, ctx: nat): Registry {
    r.(cancelled := r.cancelled + {ctx})
  }

  /** A delivery: to which connection which payload was written. */
  datatype Delivery = Delivery(conn: nat, p: Payload)

  /**
    The loop alone. views holds what the session map was at each look-up, as others change it meanwhile: a
    payload goes to the connection registered for the key at that moment; a failed write ends the loop.
  */
  function Delivered(views: seq<map<Key, Session>>, key: Key, inbox: seq<Payload>, writeFails: set<nat>, n: nat): seq<Delivery>
    requires n <= |inbox| == |views|
  {
    if n == 0 then []
    else
      var before := Delivered(views, key, inbox, writeFails, n - 1);
      if key !in views[n - 1] || Failed(views, key, writeFails, n - 1) then before
      else before + [Delivery(views[n - 1][key].conn, inbox[n - 1])]
  }

  /** One of the first n receives led to a write, and that write failed. */
  predicate Failed(views: seq<map<Key, Session>>, key: Key, writeFails: set<nat>, n: nat)
    requires n <= |views|
  {
    exists m :: 0 <= m < n && m in writeFails && key in views[m]
  }

  class Hub {
    var sessions: map<Key, Session>
    var cancelled: set<nat>
    var nextCtx: nat
    var written: seq<Delivery>

    ghost function View(): Registry
      reads this
    {
      Registry(sessions, cancelled)
    }

    constructor ()
      ensures View() == Registry(map[], {}) && nextCtx == 0 && written == []
    {
      sessions, cancelled, nextCtx, written := map[], {}, 0, [];
    }

    method BeginSession(key: Key, conn: nat) returns (ctx: nat)
      modifies this`sessions, this`cancelled, this`nextCtx
      ensures ctx == old(nextCtx) && nextCtx == old(nextCtx) + 1
      ensures View() == Begin(old(View()), key, conn, ctx)
      ensures sessions == old(sessions)[key := Session(conn, ctx)]
      ensures cancelled == old(cancelled) + if key in old(sessions) then {old(sessions)[key].ctx} else {}
    {
      ctx := nextCtx;
      nextCtx := nextCtx + 1;
      if key in sessions {
        cancelled := cancelled + {sessions[key].ctx};
      }
      sessions := sessions[key := Session(conn, ctx)];
    }

    method Unregister(key: Key, conn: nat)
      modifies this`sessions, this`cancelled
      ensures View() == UnregisterIf(old(View()), key, conn)
      ensures if key in old(sessions) && old(sessions)[key].conn == conn
              then sessions == old(sessions) - {key} && cancelled == old(cancelled) + {old(sessions)[key].ctx}
              else sessions == old(sessions) && cancelled == old(cancelled)
    {
      if key !in sessions || sessions[key].conn != conn {
        return;
      }
      cancelled := cancelled + {sessions[key].ctx};
      sessions := sessions - {key};
    }

    /** Receives until the subscription ends; a write for receive number n fails if n is in writeFails. */
    method StreamChat(key: Key, inbox: seq<Payload>, views: seq<map<Key, Session>>, writeFails: set<nat>)
      requires |views| == |inbox|
      modifies this`written
      ensures written == old(written) + Delivered(views, key, inbox, writeFails, |inbox|)
    {
      var i := 0;
      while i < |inbox|
        invariant 0 <= i <= |inbox|
        invariant !Failed(views, key, writeFails, i)
        invariant written == old(written) + Delivered(views, key, inbox, writeFails, i)
      {
        var p, sessions := inbox[i], views[i];
        if key !in sessions {
          i := i + 1;
          continue;
        }
        written := written + [Delivery(sessions[key].conn, p)];
        i := i + 1;
        if i - 1 in writeFails {
          assert Failed(views, key, writeFails, i);
          NothingAfterFailure(views, key, inbox, writeFails, i, |inbox|);
          return;
        }
      }
    }
  }

  lemma {:induction false} NothingAfterFailure(views: seq<map<Key, Session>>, key: Key, inbox: seq<Payload>,
                                               writeFails: set<nat>, i: nat, n: nat)
    requires i <= n <= |inbox| == |views| && Failed(views, key, writeFails, i)
    ensures Delivered(views, key, inbox, writeFails, n) == Delivered(views, key, inbox, writeFails, i)
  {
    if i < n {
      NothingAfterFailure(views, key, inbox, writeFails, i, n - 1);
      var m :| 0 <= m < i && m in writeFails && key in views[m];
      assert Failed(views, key, writeFails, n - 1);
    }
  }

  /**
    What a stream delivers: one write per receive at which the key was registered, to the connection then
    registered, with nothing after a failure.
  */
  lemma {:induction false} DeliveredMeans(views: seq<map<Key, Session>>, key: Key, inbox: seq<Payload>, writeFails: set<nat>, n: nat, d: Delivery)
    requires n <= |inbox| == |views|
    ensures d in Delivered(views, key, inbox, writeFails, n)
       <==> exists m :: 0 <= m < n && key in views[m] && !Failed(views, key, writeFails, m)
                        && d == Delivery(views[m][key].conn, inbox[m])
  {
    if n > 0 {
      DeliveredMeans(views, key, inbox, writeFails, n - 1, d);
      if key in views[n - 1] && !Failed(views, key, writeFails, n - 1) && d == Delivery(views[n - 1][key].conn, inbox[n - 1]) {
        assert d in Delivered(views, key, inbox, writeFails, n);
      }
    }
  }

  /** Receive number m leads to a write. */
  predicate Hands(views: seq<map<Key, Session>>, key: Key, writeFails: set<nat>, m: nat)
    requires m < |views|
  {
    key in views[m] && !Failed(views, key, writeFails, m)
  }

  /** Deliveries keep the order of the receives: each has its place behind those of the receives before it. */
  lemma {:induction false} DeliveredInOrder(views: seq<map<Key, Session>>, key: Key, inbox: seq<Payload>, writeFails: set<nat>, m: nat, n: nat)
    requires m < n <= |inbox| == |views|
    ensures var before, all := Delivered(views, key, inbox, writeFails, m), Delivered(views, key, inbox, writeFails, n);
            && before <= all
            && (Hands(views, key, writeFails, m) ==>
                  |before| < |all| && all[|before|] == Delivery(views[m][key].conn, inbox[m]))
  {
    if m < n - 1 {
      DeliveredInOrder(views, key, inbox, writeFails, m, n - 1);
    }
  }

  /** And there is one for each of them. */
  lemma {:induction false} DeliveredOnce(views: seq<map<Key, Session>>, key: Key, inbox: seq<Payload>, writeFails: set<nat>, n: nat)
    requires n <= |inbox| == |views|
    ensures |Delivered(views, key, inbox, writeFails, n)| == |set m | 0 <= m < n && Hands(views, key, writeFails, m)|
  {
    if n > 0 {
      DeliveredOnce(views, key, inbox, writeFails, n - 1);
      var before := set m | 0 <= m < n - 1 && Hands(views, key, writeFails, m);
      var all := set m | 0 <= m < n && Hands(views, key, writeFails, m);
      assert all == if Hands(views, key, writeFails, n - 1) then before + {n - 1} else before;
    }
  }

  // ---------- everything at once ----------

  datatype Life = Live | Unregistered | Closed

  /** Where a stream is: between receive and write it holds a payload, then the session it looked up. */
  datatype Stream =
    | Waiting
    | Got(p: Payload)
    | Found(p: Payload, target: Session)
    | Writing(p: Payload, target: Session)
    | Stopped

  /** late counts the writes this connection's stream made after its own context was cancelled. */
  datatype Conn = Conn(user: User, chat: Chat, life: Life, stream: Stream, late: nat)

  /**
    Each connection begins exactly one session, so a session, its connection and its context share a number.
    locks says which stream holds the write lock of the session with a given context.
  */
  datatype World = World(reg: Registry, conns: seq<Conn>, locks: map<nat, nat>, writes: seq<(nat, Delivery)>)

  datatype Action =
    | Open(user: User, chat: Chat)
    | Leave(i: nat)
    | CancelOwn(i: nat)
    | Receive(i: nat, p: Payload)
    | ReceiveFails(i: nat)
    | LookUp(i: nat)
    | Lock(i: nat)
    | WriteEnds(i: nat, ok: bool)

  const EMPTY := World(Registry(map[], {}), [], map[], [])

  function KeyOf(c: Conn): Key {
    ConnKey(c.user, c.chat)
  }

  function SetStream(w: World, i: nat, s: Stream): World
    requires i < |w.conns|
  {
    w.(conns := w.conns[i := w.conns[i].(stream := s)])
  }

  function EndWrite(w: World, i: nat, ok: bool): World
    requires i < |w.conns| && w.conns[i].stream.Writing?
  {
    var c := w.conns[i];
    w.(conns := w.conns[i := c.(stream := if ok then Waiting else Stopped,
                                late := if i in w.reg.cancelled then c.late + 1 else c.late)],
       locks := w.locks - {c.stream.target.ctx},
       writes := w.writes + [(i, Delivery(c.stream.target.conn, c.stream.p))])
  }

  function Apply(w: World, a: Action): World {
    match a
    case Open(user, chat) =>
      var i := |w.conns|;
      if ':' in user then w
      else w.(reg := Begin(w.reg, ConnKey(user, chat), i, i), conns := w.conns + [Conn(user, chat, Live, Waiting, 0)])
    case Leave(i) =>
      if i >= |w.conns| || w.conns[i].life != Live then w
      else w.(reg := UnregisterIf(w.reg, KeyOf(w.conns[i]), i), conns := w.conns[i := w.conns[i].(life := Unregistered)])
    case CancelOwn(i) =>
      if i >= |w.conns| || w.conns[i].life != Unregistered then w
      else w.(reg := Cancel(w.reg, i), conns := w.conns[i := w.conns[i].(life := Closed)])
    case Receive(i, p) =>
      // the subscription is to the connection's own chat, and fails once the context is cancelled
      if i >= |w.conns| || w.conns[i].stream != Waiting || p.chat != w.conns[i].chat then w
      else SetStream(w, i, if i in w.reg.cancelled then Stopped else Got(p))
    case ReceiveFails(i) =>
      if i >= |w.conns| || w.conns[i].stream != Waiting then w else SetStream(w, i, Stopped)
    case LookUp(i) =>
      if i >= |w.conns| || !w.conns[i].stream.Got? then w
      else
        var k := KeyOf(w.conns[i]);
        SetStream(w, i, if k in w.reg.sessions then Found(w.conns[i].stream.p, w.reg.sessions[k]) else Waiting)
    case Lock(i) =>
      if i >= |w.conns| || !w.conns[i].stream.Found? || w.conns[i].stream.target.ctx in w.locks then w
      else
        var s := w.conns[i].stream;
        SetStream(w, i, Writing(s.p, s.target)).(locks := w.locks[s.target.ctx := i])
    case WriteEnds(i, ok) =>
      if i >= |w.conns| || !w.conns[i].stream.Writing? then w else EndWrite(w, i, ok)
  }

  function Run(actions: seq<Action>): World {
    if actions == [] then EMPTY else Apply(Run(actions[..|actions| - 1]), actions[|actions| - 1])
  }

  // ---------- invariants ----------

  predicate Registered(w: World, i: nat)
    requires i < |w.conns|
  {
    KeyOf(w.conns[i]) in w.reg.sessions && w.reg.sessions[KeyOf(w.conns[i])].ctx == i
  }

  predicate SessionOk(w: World, s: Session) {
    s.conn == s.ctx < |w.conns|
  }

  ghost predicate RegistryOk(w: World) {
    && (forall k | k in w.reg.sessions ::
          SessionOk(w, w.reg.sessions[k]) && k == KeyOf(w.conns[w.reg.sessions[k].conn]))
    && (forall i | 0 <= i < |w.conns| :: i in w.reg.cancelled <==> !Registered(w, i))
    && (forall i | 0 <= i < |w.conns| && w.conns[i].life != Live :: !Registered(w, i))
    && (forall i | i in w.reg.cancelled :: i < |w.conns|)
    && (forall i | 0 <= i < |w.conns| :: ':' !in w.conns[i].user)
  }

  /** A payload on its way is for the stream's own chat, and goes to a connection of the same user and chat. */
  predicate StreamOk(w: World, i: nat)
    requires i < |w.conns|
  {
    var c := w.conns[i];
    match c.stream
    case Got(p) => p.chat == c.chat
    case Found(p, t) => p.chat == c.chat && SessionOk(w, t) && KeyOf(w.conns[t.conn]) == KeyOf(c)
    case Writing(p, t) =>
      p.chat == c.chat && SessionOk(w, t) && KeyOf(w.conns[t.conn]) == KeyOf(c)
      && t.ctx in w.locks && w.locks[t.ctx] == i
    case _ => true
  }

  predicate LateOk(w: World, i: nat)
    requires i < |w.conns|
  {
    var c := w.conns[i];
    var busy := c.stream.Got? || c.stream.Found? || c.stream.Writing?;
    if i in w.reg.cancelled then c.late + (if busy then 1 else 0) <= 1 else c.late == 0
  }

  predicate RoutedOk(w: World, d: (nat, Delivery)) {
    && d.0 < |w.conns| && d.1.conn < |w.conns|
    && w.conns[d.1.conn].user == w.conns[d.0].user
    && w.conns[d.1.conn].chat == w.conns[d.0].chat == d.1.p.chat
  }

  ghost predicate WorldOk(w: World) {
    && RegistryOk(w)
    && (forall i | 0 <= i < |w.conns| :: StreamOk(w, i) && LateOk(w, i))
    && (forall d | d in w.writes :: RoutedOk(w, d))
  }

  lemma OpenOk(w: World, user: User, chat: Chat)
    requires WorldOk(w)
    ensures WorldOk(Apply(w, Open(user, chat)))
  {
    var v := Apply(w, Open(user, chat));
    if v != w {
      var n := |w.conns|;
      assert forall i | 0 <= i < n :: v.conns[i] == w.conns[i];
      OpenRegistryOk(w, user, chat);
      forall i | 0 <= i < |v.conns| ensures StreamOk(v, i) && LateOk(v, i) {
        if i < n {
          assert StreamOk(w, i) && LateOk(w, i);
        }
      }
      forall d | d in v.writes ensures RoutedOk(v, d) {
        assert RoutedOk(w, d);
      }
    }
  }

  lemma OpenRegistryOk(w: World, user: User, chat: Chat)
    requires RegistryOk(w) && ':' !in user
    ensures RegistryOk(Apply(w, Open(user, chat)))
  {
    var v := Apply(w, Open(user, chat));
    var n, key := |w.conns|, ConnKey(user, chat);
    assert v.conns[n] == Conn(user, chat, Live, Waiting, 0);
    forall i | 0 <= i < |v.conns| ensures i in v.reg.cancelled <==> !Registered(v, i) {
      if i < n {
        assert i in w.reg.cancelled <==> !Registered(w, i);
      }
    }
    forall i | 0 <= i < |v.conns| && v.conns[i].life != Live ensures !Registered(v, i) {
      assert !Registered(w, i);
    }
  }

  /** The streams' and writes' part: connections and locks as they were, cancellations only of idle counts. */
  lemma StreamsStay(w: World, v: World)
    requires WorldOk(w) && |v.conns| == |w.conns| && v.locks == w.locks && v.writes == w.writes
    requires forall j | 0 <= j < |w.conns| ::
               && v.conns[j].user == w.conns[j].user && v.conns[j].chat == w.conns[j].chat
               && v.conns[j].stream == w.conns[j].stream && v.conns[j].late == w.conns[j].late
    requires w.reg.cancelled <= v.reg.cancelled
    ensures forall j | 0 <= j < |v.conns| :: StreamOk(v, j) && LateOk(v, j)
    ensures forall d | d in v.writes :: RoutedOk(v, d)
  {
    forall j | 0 <= j < |v.conns| ensures StreamOk(v, j) && LateOk(v, j) {
      assert StreamOk(w, j) && LateOk(w, j);
    }
    forall d | d in v.writes ensures RoutedOk(v, d) {
      assert RoutedOk(w, d);
    }
  }

  lemma LeaveRegistryOk(w: World, i: nat)
    requires RegistryOk(w) && i < |w.conns| && w.conns[i].life == Live
    ensures RegistryOk(Apply(w, Leave(i)))
  {
    var v := Apply(w, Leave(i));
    assert forall j | 0 <= j < |w.conns| :: KeyOf(v.conns[j]) == KeyOf(w.conns[j]);
    forall j | 0 <= j < |v.conns| ensures j in v.reg.cancelled <==> !Registered(v, j) {
      assert j in w.reg.cancelled <==> !Registered(w, j);
    }
  }

  lemma LeaveOk(w: World, i: nat)
    requires WorldOk(w) && i < |w.conns| && w.conns[i].life == Live
    ensures WorldOk(Apply(w, Leave(i)))
  {
    LeaveRegistryOk(w, i);
    StreamsStay(w, Apply(w, Leave(i)));
  }

  lemma CancelRegistryOk(w: World, i: nat)
    requires RegistryOk(w) && i < |w.conns| && w.conns[i].life == Unregistered
    ensures RegistryOk(Apply(w, CancelOwn(i))) && Apply(w, CancelOwn(i)).reg == w.reg
  {
    var v := Apply(w, CancelOwn(i));
    assert !Registered(w, i) && v.reg == w.reg;
    forall j | 0 <= j < |v.conns| ensures Registered(v, j) <==> Registered(w, j) {
    }
  }

  lemma CancelOwnOk(w: World, i: nat)
    requires WorldOk(w) && i < |w.conns| && w.conns[i].life == Unregistered
    ensures WorldOk(Apply(w, CancelOwn(i)))
  {
    CancelRegistryOk(w, i);
    StreamsStay(w, Apply(w, CancelOwn(i)));
  }

  /** A step of one stream: everybody else's connection and the registry stay as they are. */
  lemma StreamStepOk(w: World, v: World, i: nat)
    requires WorldOk(w) && i < |w.conns| == |v.conns| && v.reg == w.reg
    requires v.conns == w.conns[i := w.conns[i].(stream := v.conns[i].stream, late := v.conns[i].late)]
    requires StreamOk(v, i) && LateOk(v, i)
    requires forall c | c in w.locks && w.locks[c] != i :: c in v.locks && v.locks[c] == w.locks[c]
    requires forall d | d in v.writes :: d in w.writes || RoutedOk(w, d)
    ensures WorldOk(v)
  {
    forall j | 0 <= j < |v.conns| ensures StreamOk(v, j) && LateOk(v, j) {
      if j != i {
        assert StreamOk(w, j) && LateOk(w, j);
      }
    }
    forall j | 0 <= j < |v.conns| ensures Registered(v, j) <==> Registered(w, j) {
    }
    forall d | d in v.writes ensures RoutedOk(v, d) {
      assert RoutedOk(w, d);
    }
  }

  lemma EndWriteOk(w: World, i: nat, ok: bool)
    requires WorldOk(w) && i < |w.conns| && w.conns[i].stream.Writing?
    ensures WorldOk(EndWrite(w, i, ok))
  {
    var c := w.conns[i];
    var t := c.stream.target;
    assert StreamOk(w, i) && LateOk(w, i);
    ConnKeyInjective(c.user, c.chat, w.conns[t.conn].user, w.conns[t.conn].chat);
    assert RoutedOk(w, (i, Delivery(t.conn, c.stream.p)));
    StreamStepOk(w, EndWrite(w, i, ok), i);
  }

  lemma LookUpOk(w: World, i: nat)
    requires WorldOk(w) && i < |w.conns| && w.conns[i].stream.Got?
    ensures WorldOk(Apply(w, LookUp(i)))
  {
    assert StreamOk(w, i) && LateOk(w, i);
    StreamStepOk(w, Apply(w, LookUp(i)), i);
  }

  lemma LockOk(w: World, i: nat)
    requires WorldOk(w) && i < |w.conns| && w.conns[i].stream.Found? && w.conns[i].stream.target.ctx !in w.locks
    ensures WorldOk(Apply(w, Lock(i)))
  {
    assert StreamOk(w, i) && LateOk(w, i);
    StreamStepOk(w, Apply(w, Lock(i)), i);
  }

  lemma ApplyOk(w: World, a: Action)
    requires WorldOk(w)
    ensures WorldOk(Apply(w, a))
  {
    if Apply(w, a) != w {
      match a {
        case Open(user, chat) => OpenOk(w, user, chat);
        case Leave(i) => LeaveOk(w, i);
        case CancelOwn(i) => CancelOwnOk(w, i);
        case Receive(i, p) =>
          assert StreamOk(w, i) && LateOk(w, i);
          StreamStepOk(w, Apply(w, a), i);
        case ReceiveFails(i) =>
          assert LateOk(w, i);
          StreamStepOk(w, Apply(w, a), i);
        case LookUp(i) => LookUpOk(w, i);
        case Lock(i) => LockOk(w, i);
        case WriteEnds(i, ok) => EndWriteOk(w, i, ok);
      }
    }
  }

  lemma {:induction false} RunOk(actions: seq<Action>)
    ensures WorldOk(Run(actions))
  {
    if actions != [] {
      RunOk(actions[..|actions| - 1]);
      ApplyOk(Run(actions[..|actions| - 1]), actions[|actions| - 1]);
    }
  }

  // ---------- the newest connection ----------

  /** No later connection of the same user opened the same chat. */
  predicate Newest(w: World, i: nat)
    requires i < |w.conns|
  {
    forall j | i < j < |w.conns| :: KeyOf(w.conns[j]) != KeyOf(w.conns[i])
  }

  ghost predicate NewestOk(w: World) {
    forall i | 0 <= i < |w.conns| :: Registered(w, i) <==> w.conns[i].life == Live && Newest(w, i)
  }

  lemma OpenNewestOk(w: World, user: User, chat: Chat)
    requires NewestOk(w)
    ensures NewestOk(Apply(w, Open(user, chat)))
  {
    var v, n := Apply(w, Open(user, chat)), |w.conns|;
    if v != w {
      assert forall i | 0 <= i < n :: v.conns[i] == w.conns[i];
      forall i | 0 <= i < |v.conns| ensures Registered(v, i) <==> v.conns[i].life == Live && Newest(v, i) {
        if i < n {
          assert Registered(w, i) <==> w.conns[i].life == Live && Newest(w, i);
          if KeyOf(w.conns[i]) == ConnKey(user, chat) {
            assert KeyOf(v.conns[n]) == KeyOf(v.conns[i]);
          } else {
            assert Newest(v, i) <==> Newest(w, i);
          }
        }
      }
    }
  }

  /** Nothing changes who is newest but opening. */
  lemma NewestStays(w: World, v: World)
    requires |v.conns| == |w.conns| && forall j | 0 <= j < |w.conns| :: KeyOf(v.conns[j]) == KeyOf(w.conns[j])
    ensures forall i | 0 <= i < |w.conns| :: Newest(v, i) <==> Newest(w, i)
  {
  }

  lemma LeaveNewestOk(w: World, i: nat)
    requires RegistryOk(w) && NewestOk(w) && i < |w.conns| && w.conns[i].life == Live
    ensures NewestOk(Apply(w, Leave(i)))
  {
    var v := Apply(w, Leave(i));
    NewestStays(w, v);
    forall j | 0 <= j < |v.conns| ensures Registered(v, j) <==> v.conns[j].life == Live && Newest(v, j) {
      assert Registered(w, j) <==> w.conns[j].life == Live && Newest(w, j);
      assert Registered(w, i) <==> w.conns[i].life == Live && Newest(w, i);
    }
  }

  /** The other steps leave the registry and the lives of live connections alone. */
  lemma OtherNewestOk(w: World, v: World)
    requires NewestOk(w) && v.reg.sessions == w.reg.sessions && |v.conns| == |w.conns|
    requires forall j | 0 <= j < |w.conns| ::
               KeyOf(v.conns[j]) == KeyOf(w.conns[j]) && (v.conns[j].life == Live <==> w.conns[j].life == Live)
    ensures NewestOk(v)
  {
    NewestStays(w, v);
    forall j | 0 <= j < |v.conns| ensures Registered(v, j) <==> v.conns[j].life == Live && Newest(v, j) {
      assert Registered(w, j) <==> w.conns[j].life == Live && Newest(w, j);
    }
  }

  lemma ApplyNewestOk(w: World, a: Action)
    requires WorldOk(w) && NewestOk(w)
    ensures NewestOk(Apply(w, a))
  {
    if Apply(w, a) != w {
      match a {
        case Open(user, chat) => OpenNewestOk(w, user, chat);
        case Leave(i) => LeaveNewestOk(w, i);
        case _ => OtherNewestOk(w, Apply(w, a));
      }
    }
  }

  lemma {:induction false} RunNewestOk(actions: seq<Action>)
    ensures NewestOk(Run(actions))
  {
    if actions != [] {
      RunOk(actions[..|actions| - 1]);
      RunNewestOk(actions[..|actions| - 1]);
      ApplyNewestOk(Run(actions[..|actions| - 1]), actions[|actions| - 1]);
    }
  }

  // ---------- results ----------

  /**
    Over every run, a connection streams exactly while it is open and the newest of its user for its chat: then
    it is the one registered and its context is not cancelled; a later connection, or its own end, cancels it.
  */
  lemma NewestStreams(actions: seq<Action>, i: nat)
    requires i < |Run(actions).conns|
    ensures var w := Run(actions); var k := KeyOf(w.conns[i]);
            var current := w.conns[i].life == Live && forall j | i < j < |w.conns| :: KeyOf(w.conns[j]) != k;
            && (current <==> i !in w.reg.cancelled)
            && (current <==> k in w.reg.sessions && w.reg.sessions[k] == Session(i, i))
  {
    RunNewestOk(actions);
    LiveContextsAreRegistered(actions, i);
    RunOk(actions);
    var w := Run(actions);
    assert Registered(w, i) <==> w.conns[i].life == Live && Newest(w, i);
    assert i in w.reg.cancelled <==> !Registered(w, i);
  }

  lemma RunPlus(actions: seq<Action>, a: Action)
    ensures Run(actions + [a]) == Apply(Run(actions), a)
  {
    assert (actions + [a])[..|actions|] == actions;
  }

  function Passing(i: nat, p: Payload): seq<Action> {
    [Receive(i, p), LookUp(i), Lock(i), WriteEnds(i, true)]
  }

  lemma RunPassing(actions: seq<Action>, i: nat, p: Payload)
    ensures Run(actions + Passing(i, p))
         == Apply(Apply(Apply(Apply(Run(actions), Receive(i, p)), LookUp(i)), Lock(i)), WriteEnds(i, true))
  {
    var m1 := actions + [Receive(i, p)];
    RunPlus(actions, Receive(i, p));
    RunPlus(m1, LookUp(i));
    RunPlus(m1 + [LookUp(i)], Lock(i));
    RunPlus(m1 + [LookUp(i)] + [Lock(i)], WriteEnds(i, true));
    assert m1 + [LookUp(i)] + [Lock(i)] + [WriteEnds(i, true)] == actions + Passing(i, p);
  }

  /**
    What is published on a chat reaches its open connections: from every reachable state a waiting stream of a
    current connection writes the payload to that very connection, once, and waits again.
  */
  lemma CurrentConnectionGets(actions: seq<Action>, i: nat, p: Payload)
    requires i < |Run(actions).conns| && i !in Run(actions).reg.cancelled && i !in Run(actions).locks
    requires Run(actions).conns[i].stream.Waiting? && p.chat == Run(actions).conns[i].chat
    ensures var w, v := Run(actions), Run(actions + Passing(i, p));
            && v.writes == w.writes + [(i, Delivery(i, p))]
            && v.conns == w.conns && v.locks == w.locks && v.reg == w.reg
  {
    var w := Run(actions);
    LiveContextsAreRegistered(actions, i);
    RunPassing(actions, i, p);
    var a := SetStream(w, i, Got(p));
    assert Apply(w, Receive(i, p)) == a;
    var b := SetStream(w, i, Found(p, Session(i, i)));
    assert Apply(a, LookUp(i)) == b;
    var c := SetStream(w, i, Writing(p, Session(i, i))).(locks := w.locks[i := i]);
    assert Apply(b, Lock(i)) == c;
    assert w.conns[i := w.conns[i]] == w.conns;
    assert w.locks[i := i] - {i} == w.locks;
  }

  /**
    Over every interleaving of connects, reconnects and late closes, the contexts that are not cancelled are
    exactly those stored in the map, each under its own connection's key: at most one per key.
  */
  lemma LiveContextsAreRegistered(actions: seq<Action>, i: nat)
    requires i < |Run(actions).conns|
    ensures var w := Run(actions); var k := KeyOf(w.conns[i]);
            i !in w.reg.cancelled <==> k in w.reg.sessions && w.reg.sessions[k] == Session(i, i)
  {
    RunOk(actions);
    var w := Run(actions);
    var k := KeyOf(w.conns[i]);
    assert i in w.reg.cancelled <==> !Registered(w, i);
    assert k in w.reg.sessions ==> SessionOk(w, w.reg.sessions[k]);
  }

  /** The deferred cleanup of one connection neither removes nor cancels any other session. */
  lemma StaleCloseIsHarmless(actions: seq<Action>, i: nat, j: nat)
    requires i < |Run(actions).conns| && j < |Run(actions).conns| && i != j
    ensures var w := Run(actions); var v := Apply(Apply(w, Leave(i)), CancelOwn(i)); var k := KeyOf(w.conns[j]);
            && (j in v.reg.cancelled <==> j in w.reg.cancelled)
            && (k in w.reg.sessions && w.reg.sessions[k].conn == j ==> k in v.reg.sessions && v.reg.sessions[k].conn == j)
  {
    RunOk(actions);
    var w := Run(actions);
    var k := KeyOf(w.conns[i]);
    assert k in w.reg.sessions ==> SessionOk(w, w.reg.sessions[k]);
  }

  /** Whatever a stream writes was published on its own chat and goes to a connection of its own user for that chat. */
  lemma StreamsRouteToOwner(actions: seq<Action>, n: nat)
    requires n < |Run(actions).writes|
    ensures var w := Run(actions); var d := w.writes[n];
            && d.0 < |w.conns| && d.1.conn < |w.conns|
            && w.conns[d.1.conn].user == w.conns[d.0].user
            && w.conns[d.1.conn].chat == d.1.p.chat
  {
    RunOk(actions);
    assert RoutedOk(Run(actions), Run(actions).writes[n]);
  }

  /** Two streams never write to the same connection at the same time. */
  lemma WritesExclude(actions: seq<Action>, i: nat, j: nat)
    requires i < |Run(actions).conns| && j < |Run(actions).conns|
    requires Run(actions).conns[i].stream.Writing? && Run(actions).conns[j].stream.Writing?
    requires Run(actions).conns[i].stream.target.conn == Run(actions).conns[j].stream.target.conn
    ensures i == j
  {
    RunOk(actions);
    assert StreamOk(Run(actions), i) && StreamOk(Run(actions), j);
  }

  /** A cancelled stream makes at most one more write. */
  lemma AtMostOneLateWrite(actions: seq<Action>, i: nat)
    requires i < |Run(actions).conns|
    ensures Run(actions).conns[i].late <= 1
    ensures i !in Run(actions).reg.cancelled ==> Run(actions).conns[i].late == 0
  {
    RunOk(actions);
    assert LateOk(Run(actions), i);
  }

  /** A failed write has been made, frees the lock and ends the stream. */
  lemma FailedWriteStops(actions: seq<Action>, i: nat)
    requires i < |Run(actions).conns| && Run(actions).conns[i].stream.Writing?
    ensures var w, v := Run(actions), Run(actions + [WriteEnds(i, false)]);
            var t := w.conns[i].stream.target;
            && i < |v.conns| && v.conns[i].stream.Stopped? && t.ctx !in v.locks
            && v.writes == w.writes + [(i, Delivery(t.conn, w.conns[i].stream.p))]
  {
    RunPlus(actions, WriteEnds(i, false));
  }

  lemma StoppedStays(w: World, a: Action, i: nat)
    requires i < |w.conns| && w.conns[i].stream.Stopped?
    ensures var v := Apply(w, a);
            && i < |v.conns| && v.conns[i].stream.Stopped? && w.writes <= v.writes
            && forall n | |w.writes| <= n < |v.writes| :: v.writes[n].0 != i
  {
  }

  /** A stream that has ended never writes again, whatever happens. */
  lemma {:induction false} StoppedWritesNothing(actions: seq<Action>, more: seq<Action>, i: nat)
    requires i < |Run(actions).conns| && Run(actions).conns[i].stream.Stopped?
    ensures var w, v := Run(actions), Run(actions + more);
            && i < |v.conns| && v.conns[i].stream.Stopped? && w.writes <= v.writes
            && forall n | |w.writes| <= n < |v.writes| :: v.writes[n].0 != i
  {
    if more == [] {
      assert actions + more == actions;
    } else {
      var last := |more| - 1;
      StoppedWritesNothing(actions, more[..last], i);
      StoppedStays(Run(actions + more[..last]), more[last], i);
      RunPlus(actions + more[..last], more[last]);
      assert actions + more[..last] + [more[last]] == actions + more;
    }
  }
}
