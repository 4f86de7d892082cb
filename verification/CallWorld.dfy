/**
  Any number of tabs exchanging call signals through the server.

  The server checks and stamps each message (signaling_handler.go) and copies it to every tab of the target
  user (signaling_hub.go). Messages may be lost and may overtake one another, but are never duplicated.
*/
module CallWorld {
  import opened Common
  import opened VoiceCall
  import Friends

  /** Atomic runs each method to its end in one step; Interleaved lets other steps in at every await. */
  datatype Mode = Atomic | Interleaved

  datatype Node = Node(user: User, s: Session, conts: seq<Cont>)

  /** A message on its way to the server from tab src, or from the server to tab dst. */
  datatype Packet = Up(src: nat, raw: Raw) | Down(dst: nat, sig: Signal)

  /** History of a placed call: the tab and user that placed it, whom it was for, and its kind. */
  datatype Call = Call(tab: nat, caller: User, callee: User, video: bool)

  /** accepted records which tab ran acceptIncoming for which call. */
  datatype World = World(nodes: seq<Node>, wire: multiset<Packet>, placed: map<CallId, Call>,
                         accepted: set<(CallId, nat)>)

  datatype Action =
    | Join(user: User)
    | Start(i: nat, peer: User, video: bool, call: CallId, env: Env)
    | PressAccept(i: nat, env: Env)
    | PressDecline(i: nat)
    | PressEnd(i: nat)
    | Forward(p: Packet, friendships: Friends.Rows)
    | Deliver(p: Packet, env: Env)
    | Settled(i: nat, k: nat, outcome: Option<string>)
    | Connection(i: nat, connected: bool)
    | LocalIce(i: nat, call: CallId, peer: User, cand: Candidate)
    | Lose(p: Packet)

  const EMPTY := World([], multiset{}, map[], {})

  // ---------- the server ----------

  /** What the server relays: allowed types, both ids present, friends only, the true sender stamped. */
  function Relay(friendships: Friends.Rows, from: User, raw: Raw): Option<Signal> {
    if raw.kind.Unknown? || raw.to == "" || raw.call == "" || !Friends.AreFriends(friendships, from, raw.to)
    then None
    else Some(Relayed(from, raw))
  }

  function FanOut(nodes: seq<Node>, to: User, sig: Signal): (ps: multiset<Packet>)
    ensures forall p | p in ps ::
              p.Down? && p.sig == sig && p.dst < |nodes| && nodes[p.dst].user == to && ps[p] == 1
  {
    if nodes == [] then multiset{}
    else
      var last := |nodes| - 1;
      FanOut(nodes[..last], to, sig) + if nodes[last].user == to then multiset{Down(last, sig)} else multiset{}
  }

  /** Every tab of the user gets exactly one copy, and nobody else gets any. */
  lemma {:induction false} FanOutReachesAllTabs(nodes: seq<Node>, to: User, sig: Signal, i: nat)
    requires i < |nodes|
    ensures FanOut(nodes, to, sig)[Down(i, sig)] == if nodes[i].user == to then 1 else 0
  {
    var last := |nodes| - 1;
    if i < last {
      FanOutReachesAllTabs(nodes[..last], to, sig, i);
    } else {
      assert Down(i, sig) !in FanOut(nodes[..last], to, sig);
    }
  }

  function Ups(i: nat, sent: seq<Raw>): (ps: multiset<Packet>)
    ensures forall p | p in ps :: p.Up? && p.src == i && p.raw in sent
  {
    if sent == [] then multiset{} else multiset{Up(i, sent[0])} + Ups(i, sent[1..])
  }

  lemma {:induction false} UpsHas(i: nat, sent: seq<Raw>, r: Raw)
    requires r in sent
    ensures Up(i, r) in Ups(i, sent)
  {
    if sent[0] != r {
      UpsHas(i, sent[1..], r);
    }
  }

  // ---------- steps ----------

  function Run1(x: Susp, mode: Mode, env: Env): Susp {
    if mode.Atomic? then Settle(x, env) else x
  }

  function Put(w: World, i: nat, x: Susp): (v: World)
    requires i < |w.nodes|
    ensures |v.nodes| == |w.nodes| && forall j | 0 <= j < |w.nodes| :: v.nodes[j].user == w.nodes[j].user
  {
    var n := w.nodes[i];
    w.(nodes := w.nodes[i := Node(n.user, x.s, n.conts + if x.next.Some? then [x.next.value] else [])],
       wire := w.wire + Ups(i, x.sent))
  }

  const DONE := Env(false, None, false, false)

  function Place(w: World, i: nat, peer: User, video: bool, call: CallId): World
    requires i < |w.nodes|
  {
    w.(placed := w.placed[call := Call(i, w.nodes[i].user, peer, video)])
  }

  function Take(w: World, p: Packet): World
    requires p in w.wire
  {
    w.(wire := w.wire - multiset{p})
  }

  function ForwardStep(w: World, p: Packet, friendships: Friends.Rows): World
    requires p in w.wire && p.Up? && p.src < |w.nodes|
  {
    match Relay(friendships, w.nodes[p.src].user, p.raw)
    case Some(sig) => Take(w, p).(wire := Take(w, p).wire + FanOut(w.nodes, p.raw.to, sig))
    case None => Take(w, p).(wire := Take(w, p).wire + multiset{Down(p.src, ServerError)})
  }

  /** The Accept button passes on the call and the peer that the tab shows as incoming. */
  function AcceptStep(w: World, i: nat, mode: Mode, env: Env): World
    requires i < |w.nodes|
  {
    var s := w.nodes[i].s;
    if s.phase != Incoming || !Truthy(s.callId) || !Truthy(s.peerId) then w
    else Put(w.(accepted := w.accepted + {(s.callId.value, i)}), i,
             Run1(BeginAccept(s, s.callId.value, s.peerId.value), mode, env))
  }

  function JoinStep(w: World, user: User): World {
    w.(nodes := w.nodes + [Node(user, FRESH, [])])
  }

  function StartStep(w: World, i: nat, peer: User, video: bool, call: CallId, mode: Mode, env: Env): World
    requires i < |w.nodes|
  {
    if call in w.placed || call == "" || w.nodes[i].s.phase != Idle then w
    else Put(Place(w, i, peer, video, call), i, Run1(BeginStart(w.nodes[i].s, peer, video, call), mode, env))
  }

  function DeclineStep(w: World, i: nat): World
    requires i < |w.nodes|
  {
    var s := w.nodes[i].s;
    if s.phase != Incoming || !Truthy(s.callId) || !Truthy(s.peerId) then w
    else Put(w, i, RejectIncoming(s, s.callId.value, s.peerId.value))
  }

  function DeliverStep(w: World, p: Packet, mode: Mode, env: Env): World
    requires p in w.wire && p.Down? && p.dst < |w.nodes|
  {
    Put(Take(w, p), p.dst, Run1(BeginSignal(w.nodes[p.dst].s, p.sig), mode, env))
  }

  /** A continuation leaves its tab, as the step takes it out before resuming it. */
  function Without(w: World, i: nat, k: nat): World
    requires i < |w.nodes| && k < |w.nodes[i].conts|
  {
    w.(nodes := w.nodes[i := w.nodes[i].(conts := w.nodes[i].conts[..k] + w.nodes[i].conts[k + 1..])])
  }

  function SettledStep(w: World, i: nat, k: nat, outcome: Option<string>): World
    requires i < |w.nodes| && k < |w.nodes[i].conts|
  {
    Put(Without(w, i, k), i, Resume(w.nodes[i].s, w.nodes[i].conts[k], outcome))
  }

  function ConnectionStep(w: World, i: nat, connected: bool): World
    requires i < |w.nodes|
  {
    if connected && !BothDescriptions(w.nodes[i].s) then w
    else Put(w, i, Stay(ConnectionChange(w.nodes[i].s, connected)))
  }

  /** An interleaved tab may also send for a connection that was replaced while it was suspended. */
  function LocalIceStep(w: World, i: nat, mode: Mode, call: CallId, peer: User, cand: Candidate): World
    requires i < |w.nodes|
  {
    if mode.Interleaved? then Put(w, i, Susp(w.nodes[i].s, [Raw(Ice, call, peer, false, "", Some(cand))], None))
    else if w.nodes[i].s.pc.Some? && w.nodes[i].s.pc.value.hasLocal then Put(w, i, LocalCandidate(w.nodes[i].s, cand))
    else w
  }

  function Apply(w: World, a: Action, mode: Mode): World {
    match a
    case Join(user) => JoinStep(w, user)
    case Start(i, peer, video, call, env) => if i >= |w.nodes| then w else StartStep(w, i, peer, video, call, mode, env)
    case PressAccept(i, env) => if i >= |w.nodes| then w else AcceptStep(w, i, mode, env)
    case PressDecline(i) => if i >= |w.nodes| then w else DeclineStep(w, i)
    case PressEnd(i) => if i >= |w.nodes| then w else Put(w, i, EndCall(w.nodes[i].s))
    case Forward(p, friendships) =>
      if p !in w.wire || !p.Up? || p.src >= |w.nodes| then w else ForwardStep(w, p, friendships)
    case Deliver(p, env) => if p !in w.wire || !p.Down? || p.dst >= |w.nodes| then w else DeliverStep(w, p, mode, env)
    case Settled(i, k, outcome) =>
      if i >= |w.nodes| || k >= |w.nodes[i].conts| then w else SettledStep(w, i, k, outcome)
    case Connection(i, connected) => if i >= |w.nodes| then w else ConnectionStep(w, i, connected)
    case LocalIce(i, call, peer, cand) => if i >= |w.nodes| then w else LocalIceStep(w, i, mode, call, peer, cand)
    case Lose(p) => if p !in w.wire then w else Take(w, p)
  }

  /** The browser connects, and gathers candidates, only after the descriptions it needs. */
  predicate BothDescriptions(s: Session) {
    s.pc.Some? && s.pc.value.hasLocal && s.pc.value.hasRemote
  }

  function Run(actions: seq<Action>, mode: Mode): World {
    if actions == [] then EMPTY
    else Apply(Run(actions[..|actions| - 1], mode), actions[|actions| - 1], mode)
  }

  lemma RunPlus(actions: seq<Action>, a: Action, mode: Mode)
    ensures Run(actions + [a], mode) == Apply(Run(actions, mode), a, mode)
  {
    assert (actions + [a])[..|actions|] == actions;
  }

  // ---------- who is in a call ----------

  predicate HoldsRight(p: Call, i: nat, user: User, s: Session) {
    && s.video == p.video
    && if p.tab == i then user == p.caller && s.peerId == Some(p.callee)
       else user == p.callee && s.peerId == Some(p.caller) && p.caller != p.callee
  }

  predicate SessionOk(placed: map<CallId, Call>, i: nat, user: User, s: Session) {
    && (s.phase == Idle <==> s.callId.None?)
    && (s.phase == Idle <==> s.peerId.None?)
    && (s.callId.Some? ==> s.callId.value in placed && HoldsRight(placed[s.callId.value], i, user, s))
  }

  predicate ContOk(placed: map<CallId, Call>, i: nat, user: User, k: Cont) {
    k.MediaOut? ==> k.call in placed && placed[k.call] == Call(i, user, k.peer, k.video)
  }

  predicate RawOk(placed: map<CallId, Call>, i: nat, user: User, r: Raw) {
    r.kind.Invite? ==> r.call in placed && placed[r.call] == Call(i, user, r.to, r.video)
  }

  predicate SignalOk(placed: map<CallId, Call>, user: User, sig: Signal) {
    sig.Relayed? && sig.raw.kind.Invite? ==>
      && sig.raw.call in placed
      && var p := placed[sig.raw.call];
      p.caller == sig.from && p.callee == user && p.video == sig.raw.video && p.caller != p.callee
  }

  predicate SuspOk(placed: map<CallId, Call>, i: nat, user: User, x: Susp) {
    && SessionOk(placed, i, user, x.s)
    && (forall r | r in x.sent :: RawOk(placed, i, user, r))
    && (x.next.Some? ==> ContOk(placed, i, user, x.next.value))
  }

  predicate NodeOk(placed: map<CallId, Call>, i: nat, n: Node) {
    SessionOk(placed, i, n.user, n.s) && forall k | k in n.conts :: ContOk(placed, i, n.user, k)
  }

  predicate PacketOk(w: World, p: Packet) {
    match p
    case Up(i, raw) => i < |w.nodes| && RawOk(w.placed, i, w.nodes[i].user, raw)
    case Down(i, sig) => i < |w.nodes| && SignalOk(w.placed, w.nodes[i].user, sig)
  }

  ghost predicate WorldOk(w: World) {
    && (forall i | 0 <= i < |w.nodes| :: NodeOk(w.placed, i, w.nodes[i]))
    && (forall p | p in w.wire :: PacketOk(w, p))
    && (forall c | c in w.placed :: w.placed[c].tab < |w.nodes| && w.nodes[w.placed[c].tab].user == w.placed[c].caller)
  }

  lemma BeginSignalOk(placed: map<CallId, Call>, i: nat, user: User, s: Session, sig: Signal)
    requires SessionOk(placed, i, user, s) && SignalOk(placed, user, sig)
    requires sig.Relayed? && sig.raw.kind.Invite? ==> placed[sig.raw.call].tab != i
    ensures SuspOk(placed, i, user, BeginSignal(s, sig))
  {
  }

  lemma AfterFlushOk(placed: map<CallId, Call>, i: nat, user: User, s: Session, answering: bool)
    requires SessionOk(placed, i, user, s)
    ensures SuspOk(placed, i, user, AfterFlush(s, answering))
  {
  }

  lemma FlushNextOk(placed: map<CallId, Call>, i: nat, user: User, s: Session, rest: seq<Candidate>, answering: bool)
    requires SessionOk(placed, i, user, s)
    ensures SuspOk(placed, i, user, FlushNext(s, rest, answering))
  {
    AfterFlushOk(placed, i, user, s, answering);
  }

  lemma ResumeOk(placed: map<CallId, Call>, i: nat, user: User, s: Session, k: Cont, outcome: Option<string>)
    requires SessionOk(placed, i, user, s) && ContOk(placed, i, user, k)
    ensures SuspOk(placed, i, user, Resume(s, k, outcome))
  {
    match k {
      case SettingRemote(pc, answering) =>
        if outcome.Some? {
          var m := MarkRemote(s, pc);
          AfterFlushOk(placed, i, user, m, answering);
          FlushNextOk(placed, i, user, m.(pendingIce := []), m.pendingIce, answering);
        }
      case Flushing(_, rest, answering) => FlushNextOk(placed, i, user, s, rest, answering);
      case _ =>
    }
  }

  lemma {:induction false} SettleOk(placed: map<CallId, Call>, i: nat, user: User, x: Susp, env: Env)
    requires SuspOk(placed, i, user, x)
    ensures SuspOk(placed, i, user, Settle(x, env))
    decreases Rank(x.next), if x.next.Some? && x.next.value.Flushing? then |x.next.value.rest| else 0
  {
    if x.next.Some? {
      var k := x.next.value;
      ResumeOk(placed, i, user, x.s, k, OutcomeFor(k, env));
      var y := Resume(x.s, k, OutcomeFor(k, env));
      SettleOk(placed, i, user, Susp(y.s, x.sent + y.sent, y.next), env);
    }
  }

  lemma PutOk(w: World, i: nat, x: Susp)
    requires WorldOk(w) && i < |w.nodes| && SuspOk(w.placed, i, w.nodes[i].user, x)
    ensures WorldOk(Put(w, i, x))
  {
    var v := Put(w, i, x);
    forall p | p in v.wire ensures PacketOk(v, p) {
      assert p in w.wire || p in Ups(i, x.sent);
    }
  }

  lemma PutRunOk(w: World, i: nat, x: Susp, mode: Mode, env: Env)
    requires WorldOk(w) && i < |w.nodes| && SuspOk(w.placed, i, w.nodes[i].user, x)
    ensures WorldOk(Put(w, i, Run1(x, mode, env)))
  {
    SettleOk(w.placed, i, w.nodes[i].user, x, env);
    PutOk(w, i, Run1(x, mode, env));
  }

  lemma TakeOk(w: World, p: Packet)
    requires WorldOk(w) && p in w.wire
    ensures WorldOk(Take(w, p))
  {
    forall q | q in Take(w, p).wire ensures PacketOk(Take(w, p), q) {
      assert q in w.wire;
    }
  }

  lemma ForwardOk(w: World, p: Packet, friendships: Friends.Rows)
    requires WorldOk(w) && p in w.wire && p.Up? && p.src < |w.nodes|
    ensures WorldOk(ForwardStep(w, p, friendships))
  {
    var v := ForwardStep(w, p, friendships);
    TakeOk(w, p);
    assert PacketOk(w, p);
    forall q | q in v.wire ensures PacketOk(v, q) {
      if q in Take(w, p).wire {
        assert PacketOk(Take(w, p), q);
      }
    }
  }

  lemma PlaceOk(w: World, i: nat, peer: User, video: bool, call: CallId)
    requires WorldOk(w) && i < |w.nodes| && call !in w.placed
    ensures WorldOk(Place(w, i, peer, video, call))
  {
    var v := Place(w, i, peer, video, call);
    forall p | p in v.wire ensures PacketOk(v, p) {
      assert PacketOk(w, p);
    }
    forall j | 0 <= j < |v.nodes| ensures NodeOk(v.placed, j, v.nodes[j]) {
      assert NodeOk(w.placed, j, w.nodes[j]);
    }
  }

  lemma DeliverOk(w: World, p: Packet, mode: Mode, env: Env)
    requires WorldOk(w) && p in w.wire && p.Down? && p.dst < |w.nodes|
    ensures WorldOk(DeliverStep(w, p, mode, env))
  {
    TakeOk(w, p);
    assert PacketOk(w, p);
    assert NodeOk(w.placed, p.dst, w.nodes[p.dst]);
    BeginSignalOk(w.placed, p.dst, w.nodes[p.dst].user, w.nodes[p.dst].s, p.sig);
    PutRunOk(Take(w, p), p.dst, BeginSignal(w.nodes[p.dst].s, p.sig), mode, env);
  }

  lemma WithoutOk(w: World, i: nat, k: nat)
    requires WorldOk(w) && i < |w.nodes| && k < |w.nodes[i].conts|
    ensures WorldOk(Without(w, i, k))
  {
    var n := w.nodes[i];
    assert NodeOk(w.placed, i, n);
    forall c | c in n.conts[..k] + n.conts[k + 1..] ensures c in n.conts {
    }
    SamePackets(w, Without(w, i, k));
  }

  lemma SettledOk(w: World, i: nat, k: nat, outcome: Option<string>)
    requires WorldOk(w) && i < |w.nodes| && k < |w.nodes[i].conts|
    ensures WorldOk(SettledStep(w, i, k, outcome))
  {
    var n := w.nodes[i];
    WithoutOk(w, i, k);
    assert NodeOk(w.placed, i, n) && n.conts[k] in n.conts;
    ResumeOk(w.placed, i, n.user, n.s, n.conts[k], outcome);
    PutOk(Without(w, i, k), i, Resume(n.s, n.conts[k], outcome));
  }

  lemma StartOk(w: World, i: nat, peer: User, video: bool, call: CallId, mode: Mode, env: Env)
    requires WorldOk(w) && i < |w.nodes|
    ensures WorldOk(StartStep(w, i, peer, video, call, mode, env))
  {
    if call !in w.placed && w.nodes[i].s.phase == Idle {
      assert NodeOk(w.placed, i, w.nodes[i]);
      PlaceOk(w, i, peer, video, call);
      PutRunOk(Place(w, i, peer, video, call), i, BeginStart(w.nodes[i].s, peer, video, call), mode, env);
    }
  }

  lemma SamePackets(w: World, v: World)
    requires WorldOk(w) && v.wire == w.wire && v.placed == w.placed
    requires |w.nodes| <= |v.nodes| && forall i | 0 <= i < |w.nodes| :: v.nodes[i].user == w.nodes[i].user
    ensures forall p | p in v.wire :: PacketOk(v, p)
  {
    forall p | p in v.wire ensures PacketOk(v, p) {
      assert PacketOk(w, p);
    }
  }

  lemma AcceptOk(w: World, i: nat, mode: Mode, env: Env)
    requires WorldOk(w) && i < |w.nodes|
    ensures WorldOk(AcceptStep(w, i, mode, env))
  {
    var s := w.nodes[i].s;
    assert NodeOk(w.placed, i, w.nodes[i]);
    if s.phase == Incoming && Truthy(s.callId) && Truthy(s.peerId) {
      var v := w.(accepted := w.accepted + {(s.callId.value, i)});
      SamePackets(w, v);
      PutRunOk(v, i, BeginAccept(s, s.callId.value, s.peerId.value), mode, env);
    }
  }

  lemma DeclineOk(w: World, i: nat)
    requires WorldOk(w) && i < |w.nodes|
    ensures WorldOk(DeclineStep(w, i))
  {
    var s := w.nodes[i].s;
    assert NodeOk(w.placed, i, w.nodes[i]);
    if s.phase == Incoming && Truthy(s.callId) && Truthy(s.peerId) {
      PutOk(w, i, RejectIncoming(s, s.callId.value, s.peerId.value));
    }
  }

  lemma EndOk(w: World, i: nat)
    requires WorldOk(w) && i < |w.nodes|
    ensures WorldOk(Put(w, i, EndCall(w.nodes[i].s)))
  {
    assert NodeOk(w.placed, i, w.nodes[i]);
    PutOk(w, i, EndCall(w.nodes[i].s));
  }

  lemma ConnectionOk(w: World, i: nat, connected: bool)
    requires WorldOk(w) && i < |w.nodes|
    ensures WorldOk(ConnectionStep(w, i, connected))
  {
    assert NodeOk(w.placed, i, w.nodes[i]);
    PutOk(w, i, Stay(ConnectionChange(w.nodes[i].s, connected)));
  }

  lemma LocalIceOk(w: World, i: nat, mode: Mode, call: CallId, peer: User, cand: Candidate)
    requires WorldOk(w) && i < |w.nodes|
    ensures WorldOk(LocalIceStep(w, i, mode, call, peer, cand))
  {
    assert NodeOk(w.placed, i, w.nodes[i]);
    PutOk(w, i, Susp(w.nodes[i].s, [Raw(Ice, call, peer, false, "", Some(cand))], None));
    PutOk(w, i, LocalCandidate(w.nodes[i].s, cand));
  }

  lemma JoinOk(w: World, user: User)
    requires WorldOk(w)
    ensures WorldOk(JoinStep(w, user))
  {
    SamePackets(w, JoinStep(w, user));
  }

  lemma ApplyOkWire(w: World, a: Action, mode: Mode)
    requires WorldOk(w)
    requires a.Join? || a.Forward? || a.Deliver? || a.Lose?
    ensures WorldOk(Apply(w, a, mode))
  {
    var v := Apply(w, a, mode);
    if v != w {
      match a {
        case Join(user) =>
          assert v == JoinStep(w, user);
          JoinOk(w, user);
        case Forward(p, friendships) =>
          assert v == ForwardStep(w, p, friendships);
          ForwardOk(w, p, friendships);
        case Deliver(p, env) =>
          assert v == DeliverStep(w, p, mode, env);
          DeliverOk(w, p, mode, env);
        case Lose(p) =>
          assert v == Take(w, p);
          TakeOk(w, p);
      }
    }
  }

  lemma ApplyOkCall(w: World, a: Action, mode: Mode)
    requires WorldOk(w)
    requires a.Start? || a.PressAccept? || a.Settled?
    ensures WorldOk(Apply(w, a, mode))
  {
    var v := Apply(w, a, mode);
    if v != w {
      match a {
        case Start(i, peer, video, call, env) =>
          assert v == StartStep(w, i, peer, video, call, mode, env);
          StartOk(w, i, peer, video, call, mode, env);
        case PressAccept(i, env) =>
          assert v == AcceptStep(w, i, mode, env);
          AcceptOk(w, i, mode, env);
        case Settled(i, k, outcome) =>
          assert v == SettledStep(w, i, k, outcome);
          SettledOk(w, i, k, outcome);
      }
    }
  }

  lemma ApplyOkTab(w: World, a: Action, mode: Mode)
    requires WorldOk(w)
    requires a.PressDecline? || a.PressEnd? || a.Connection? || a.LocalIce?
    ensures WorldOk(Apply(w, a, mode))
  {
    var v := Apply(w, a, mode);
    if v != w {
      match a {
        case PressDecline(i) =>
          assert v == DeclineStep(w, i);
          DeclineOk(w, i);
        case PressEnd(i) =>
          assert v == Put(w, i, EndCall(w.nodes[i].s));
          EndOk(w, i);
        case Connection(i, connected) =>
          assert v == ConnectionStep(w, i, connected);
          ConnectionOk(w, i, connected);
        case LocalIce(i, call, peer, cand) =>
          assert v == LocalIceStep(w, i, mode, call, peer, cand);
          LocalIceOk(w, i, mode, call, peer, cand);
      }
    }
  }

  lemma ApplyOk(w: World, a: Action, mode: Mode)
    requires WorldOk(w)
    ensures WorldOk(Apply(w, a, mode))
  {
    if a.Join? || a.Forward? || a.Deliver? || a.Lose? {
      ApplyOkWire(w, a, mode);
    } else if a.Start? || a.PressAccept? || a.Settled? {
      ApplyOkCall(w, a, mode);
    } else {
      ApplyOkTab(w, a, mode);
    }
  }

  lemma {:induction false} RunOk(actions: seq<Action>, mode: Mode)
    ensures WorldOk(Run(actions, mode))
  {
    if actions != [] {
      var last := |actions| - 1;
      RunOk(actions[..last], mode);
      ApplyOk(Run(actions[..last], mode), actions[last], mode);
    }
  }

  /**
    Call agreement, over every run and with other steps let in at every await: a tab is idle exactly when it
    has no call and exactly when it has no peer, and a tab that shares a call with the tab that placed it
    belongs to the invited user, names the caller as its peer, and agrees on the kind of call.
  */
  lemma CallAgreement(actions: seq<Action>, mode: Mode, i: nat, j: nat)
    requires i < |Run(actions, mode).nodes| && j < |Run(actions, mode).nodes| && i != j
    ensures var w := Run(actions, mode); var a, b := w.nodes[i], w.nodes[j];
            && (a.s.phase == Idle <==> a.s.callId.None?)
            && (a.s.phase == Idle <==> a.s.peerId.None?)
            && (a.s.callId.Some? ==> a.s.callId.value in w.placed)
            && (a.s.callId.Some? && a.s.callId == b.s.callId && w.placed[a.s.callId.value].tab == i ==>
                && w.placed[a.s.callId.value].callee == b.user
                && a.s.peerId == Some(b.user)
                && b.s.peerId == Some(a.user)
                && a.user != b.user
                && a.s.video == b.s.video == w.placed[a.s.callId.value].video)
  {
    RunOk(actions, mode);
    var w := Run(actions, mode);
    assert NodeOk(w.placed, i, w.nodes[i]) && NodeOk(w.placed, j, w.nodes[j]);
  }
}
