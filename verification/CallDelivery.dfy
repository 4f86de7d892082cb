/** With one tab per user, no candidate of a live call meets a tab that has no connection yet. */
module CallDelivery {
  import opened Common
  import opened VoiceCall
  import opened CallWorld
  import opened CallSafety
  import Friends

  predicate OneTab(w: World) {
    forall i, j | 0 <= i < |w.nodes| && 0 <= j < |w.nodes| && w.nodes[i].user == w.nodes[j].user :: i == j
  }

  predicate InviteFor(p: Packet, c: CallId) {
    match p
    case Up(_, raw) => raw.kind.Invite? && raw.call == c
    case Down(_, sig) => sig.Relayed? && sig.raw.kind.Invite? && sig.raw.call == c
  }

  /** A tab other than the placing one holds the call. */
  predicate Invited(w: World, i: nat, c: CallId)
    requires i < |w.nodes|
  {
    w.nodes[i].s.callId == Some(c) && (c in w.placed ==> w.placed[c].tab != i)
  }

  /** At most one invitation of a call is on its way. */
  ghost predicate Unique(wire: multiset<Packet>) {
    forall p, q, c | p in wire && q in wire && InviteFor(p, c) && InviteFor(q, c) :: p == q && wire[p] == 1
  }

  /** Once a tab took a call up, its invitation is gone. */
  ghost predicate NotTakenUp(w: World, c: CallId) {
    forall i | 0 <= i < |w.nodes| :: (c, i) !in w.accepted && !Invited(w, i, c)
  }

  ghost predicate InvitesPending(w: World) {
    forall p, c | p in w.wire && InviteFor(p, c) :: NotTakenUp(w, c)
  }

  ghost predicate RingingUnaccepted(w: World) {
    forall i | 0 <= i < |w.nodes| && w.nodes[i].s.phase.Incoming? ::
      w.nodes[i].s.callId.Some? && (w.nodes[i].s.callId.value, i) !in w.accepted
  }

  ghost predicate AcceptedKnown(w: World) {
    forall c, i | (c, i) in w.accepted :: c in w.placed && 0 <= i < |w.nodes|
  }

  ghost predicate OneInvite(w: World) {
    Unique(w.wire) && InvitesPending(w) && RingingUnaccepted(w) && AcceptedKnown(w)
  }

  /** The step invites nobody and takes up no other call. */
  predicate Tame(s: Session, x: Susp) {
    && (x.s.callId == s.callId || x.s.callId == None)
    && (x.s.phase.Incoming? ==> s.phase.Incoming? && x.s.callId == s.callId)
    && (forall r | r in x.sent :: !r.kind.Invite?)
    && (x.next.Some? ==> !x.next.value.MediaOut?)
  }

  lemma ResumeTame(s: Session, k: Cont, outcome: Option<string>)
    requires !k.MediaOut?
    ensures Tame(s, Resume(s, k, outcome))
  {
  }

  lemma {:induction false} SettleTame(s: Session, x: Susp, env: Env)
    requires Tame(s, x)
    ensures Tame(s, Settle(x, env))
    decreases Rank(x.next), if x.next.Some? && x.next.value.Flushing? then |x.next.value.rest| else 0
  {
    if x.next.Some? {
      var y := Resume(x.s, x.next.value, OutcomeFor(x.next.value, env));
      ResumeTame(x.s, x.next.value, OutcomeFor(x.next.value, env));
      SettleTame(s, Susp(y.s, x.sent + y.sent, y.next), env);
    }
  }

  lemma FewerInvites(w: World, v: World)
    requires OneInvite(w) && v.nodes == w.nodes && v.placed == w.placed && v.accepted == w.accepted
    requires forall p, c | p in v.wire && InviteFor(p, c) :: p in w.wire && v.wire[p] <= w.wire[p]
    ensures OneInvite(v)
  {
    forall p, c | p in v.wire && InviteFor(p, c) ensures NotTakenUp(v, c) {
      assert NotTakenUp(w, c);
    }
  }

  lemma TakeOnce(w: World, p: Packet)
    requires OneInvite(w) && p in w.wire
    ensures OneInvite(Take(w, p))
  {
    FewerInvites(w, Take(w, p));
  }

  lemma PutOnce(w: World, i: nat, x: Susp)
    requires OneInvite(w) && i < |w.nodes| && Tame(w.nodes[i].s, x)
    ensures OneInvite(Put(w, i, x))
  {
    var v := Put(w, i, x);
    var u := w.(wire := v.wire);
    FewerInvites(w, u);
    forall p, c | p in v.wire && InviteFor(p, c) ensures NotTakenUp(v, c) {
      assert NotTakenUp(u, c);
    }
  }

  lemma PutSettledOnce(w: World, i: nat, x: Susp, env: Env)
    requires OneInvite(w) && i < |w.nodes| && Tame(w.nodes[i].s, x)
    ensures OneInvite(Put(w, i, Settle(x, env)))
  {
    SettleTame(w.nodes[i].s, x, env);
    PutOnce(w, i, Settle(x, env));
  }

  /** No message and no tab mentions the new call yet. */
  ghost predicate Unheard(w: World, call: CallId) {
    && call !in w.placed
    && (forall p, c | p in w.wire && InviteFor(p, c) :: c in w.placed)
    && (forall j | 0 <= j < |w.nodes| :: w.nodes[j].s.callId != Some(call))
  }

  lemma NewCallIsUnheard(w: World, call: CallId)
    requires WorldOk(w) && call !in w.placed
    ensures Unheard(w, call)
  {
    forall p, c | p in w.wire && InviteFor(p, c) ensures c in w.placed {
      assert PacketOk(w, p);
    }
    forall j | 0 <= j < |w.nodes| ensures w.nodes[j].s.callId != Some(call) {
      assert NodeOk(w.placed, j, w.nodes[j]);
    }
  }

  lemma PlaceOnce(w: World, i: nat, peer: User, video: bool, call: CallId)
    requires OneInvite(w) && i < |w.nodes| && Unheard(w, call)
    ensures OneInvite(Place(w, i, peer, video, call))
    ensures NotTakenUp(Place(w, i, peer, video, call), call)
  {
    var v := Place(w, i, peer, video, call);
    forall p, c | p in v.wire && InviteFor(p, c) ensures NotTakenUp(v, c) {
      assert NotTakenUp(w, c);
    }
  }

  /** The placing tab takes the state x and its invitation, if any, goes out. */
  lemma PutInviteOnce(w: World, i: nat, call: CallId, x: Susp)
    requires OneInvite(w) && i < |w.nodes| && call in w.placed && w.placed[call].tab == i
    requires NotTakenUp(w, call) && forall p | p in w.wire :: !InviteFor(p, call)
    requires w.nodes[i].s.callId.None? && !x.s.phase.Incoming? && (x.s.callId == Some(call) || x.s.callId.None?)
    requires forall p, q | p in Ups(i, x.sent) && q in Ups(i, x.sent) ::
               InviteFor(p, call) && p == q && Ups(i, x.sent)[p] == 1
    ensures OneInvite(Put(w, i, x))
  {
    JoinedUnique(w.wire, Ups(i, x.sent), call);
    PutInvitePending(w, i, call, x);
  }

  lemma PutInvitePending(w: World, i: nat, call: CallId, x: Susp)
    requires InvitesPending(w) && i < |w.nodes| && call in w.placed && w.placed[call].tab == i
    requires NotTakenUp(w, call) && forall p | p in w.wire :: !InviteFor(p, call)
    requires x.s.callId == Some(call) || x.s.callId.None?
    requires forall p | p in Ups(i, x.sent) :: InviteFor(p, call)
    ensures InvitesPending(Put(w, i, x))
  {
    var v := Put(w, i, x);
    forall p, c | p in v.wire && InviteFor(p, c) ensures NotTakenUp(v, c) {
      if p in w.wire {
        assert NotTakenUp(w, c);
      } else {
        assert c == call;
      }
      PutTakesUpNothing(w, i, call, x, c);
    }
  }

  lemma PutTakesUpNothing(w: World, i: nat, call: CallId, x: Susp, c: CallId)
    requires NotTakenUp(w, c) && i < |w.nodes| && call in w.placed && w.placed[call].tab == i
    requires x.s.callId.None? || x.s.callId == Some(call)
    requires c == call || x.s.callId != Some(c)
    ensures NotTakenUp(Put(w, i, x), c)
  {
  }

  /** New invitations of one call join a wire that has none of it. */
  lemma JoinedUnique(wire: multiset<Packet>, more: multiset<Packet>, call: CallId)
    requires Unique(wire) && forall p | p in wire :: !InviteFor(p, call)
    requires forall p, q | p in more && q in more :: InviteFor(p, call) && p == q && more[p] == 1
    ensures Unique(wire + more)
  {
    forall p, c | p in wire + more && InviteFor(p, c)
      ensures if c == call then p in more && p !in wire else p in wire && p !in more
    {
    }
  }

  lemma StartedSession(s: Session, i: nat, peer: User, video: bool, call: CallId, env: Env)
    requires s.phase.Idle?
    ensures var x := Settle(BeginStart(s, peer, video, call), env);
            && !x.s.phase.Incoming? && (x.s.callId == Some(call) || x.s.callId == None)
            && (Ups(i, x.sent) == multiset{} ||
                Ups(i, x.sent) == multiset{Up(i, Plain(Invite, call, peer).(video := video))})
  {
    var x := BeginStart(s, peer, video, call);
    var k := x.next.value;
    SettleWait(x, Resume(x.s, k, OutcomeFor(k, env)), env);
    var r := Plain(Invite, call, peer).(video := video);
    assert [r][1..] == [];
    assert Ups(i, [r]) == multiset{Up(i, r)} + Ups(i, []);
  }

  lemma StartOnce(w: World, i: nat, peer: User, video: bool, call: CallId, env: Env)
    requires OneInvite(w) && i < |w.nodes| && w.nodes[i].s.phase.Idle? && w.nodes[i].s.callId.None?
    requires Unheard(w, call) && call != ""
    ensures OneInvite(StartStep(w, i, peer, video, call, Atomic, env))
  {
    PlaceOnce(w, i, peer, video, call);
    StartedSession(w.nodes[i].s, i, peer, video, call, env);
    PutInviteOnce(Place(w, i, peer, video, call), i, call, Settle(BeginStart(w.nodes[i].s, peer, video, call), env));
  }

  /** Accepting is recorded while the tab rings, so nobody can be invited to that call again. */
  lemma AcceptOnce(w: World, i: nat, x: Susp, c: CallId)
    requires OneInvite(w) && i < |w.nodes| && c in w.placed && Invited(w, i, c)
    requires Tame(w.nodes[i].s, x) && !x.s.phase.Incoming?
    ensures OneInvite(Put(w.(accepted := w.accepted + {(c, i)}), i, x))
  {
    PutOnce(w, i, x);
    var u := Put(w, i, x);
    var v := Put(w.(accepted := w.accepted + {(c, i)}), i, x);
    assert v.nodes == u.nodes && v.wire == u.wire;
    assert !NotTakenUp(w, c);
    assert forall p | p in v.wire && InviteFor(p, c) :: p in w.wire;
    forall p, d | p in v.wire && InviteFor(p, d) ensures NotTakenUp(v, d) {
      assert NotTakenUp(u, d);
    }
  }

  lemma AcceptStepOnce(w: World, i: nat, env: Env)
    requires OneInvite(w) && i < |w.nodes|
    requires w.nodes[i].s.phase.Incoming? ==>
               w.nodes[i].s.callId.Some? && w.nodes[i].s.callId.value in w.placed
               && Invited(w, i, w.nodes[i].s.callId.value)
    ensures OneInvite(AcceptStep(w, i, Atomic, env))
  {
    var s := w.nodes[i].s;
    if s.phase == Incoming && Truthy(s.callId) && Truthy(s.peerId) {
      var c := s.callId.value;
      var x := BeginAccept(s, c, s.peerId.value);
      SettleTame(x.s, x, env);
      AcceptOnce(w, i, Settle(x, env), c);
    }
  }

  lemma ForwardOnce(w: World, p: Packet, friendships: Friends.Rows)
    requires OneInvite(w) && OneTab(w) && p in w.wire && p.Up? && p.src < |w.nodes|
    ensures OneInvite(ForwardStep(w, p, friendships))
  {
    var u := Take(w, p);
    TakeOnce(w, p);
    match Relay(friendships, w.nodes[p.src].user, p.raw) {
      case None => FewerInvites(u, ForwardStep(w, p, friendships));
      case Some(sig) =>
        var copies := FanOut(w.nodes, p.raw.to, sig);
        if p.raw.kind.Invite? {
          TakenInvite(w, p, p.raw.call);
          CopiesOnce(u, copies, p.raw.call);
        } else {
          FewerInvites(u, ForwardStep(w, p, friendships));
        }
    }
  }

  /** Taking the one invitation of a call off the wire leaves none. */
  lemma TakenInvite(w: World, p: Packet, c: CallId)
    requires OneInvite(w) && p in w.wire && InviteFor(p, c)
    ensures forall q | q in Take(w, p).wire :: !InviteFor(q, c)
    ensures NotTakenUp(w, c)
  {
    assert forall q | q in Take(w, p).wire :: q in w.wire && (q == p ==> w.wire[p] > 1);
  }

  lemma CopiesOnce(u: World, copies: multiset<Packet>, call: CallId)
    requires OneInvite(u) && OneTab(u) && NotTakenUp(u, call)
    requires forall q | q in u.wire :: !InviteFor(q, call)
    requires forall q | q in copies :: InviteFor(q, call) && copies[q] == 1 && q.Down? && q.dst < |u.nodes|
    requires forall q, r | q in copies && r in copies :: q.sig == r.sig && u.nodes[q.dst].user == u.nodes[r.dst].user
    ensures OneInvite(u.(wire := u.wire + copies))
  {
    var v := u.(wire := u.wire + copies);
    forall q, c | q in v.wire && InviteFor(q, c)
      ensures (c == call && q in copies && q !in u.wire) || (c != call && q in u.wire && q !in copies)
      ensures NotTakenUp(v, c)
    {
      if q in u.wire {
        assert NotTakenUp(u, c);
      }
    }
    forall q, r | q in copies && r in copies ensures q == r {
      assert q.dst == r.dst;
    }
    JoinedUnique(u.wire, copies, call);
  }

  predicate TakesInvite(s: Session, sig: Signal) {
    sig.Relayed? && sig.from != "" && sig.raw.kind.Invite? && sig.raw.call != "" && s.phase.Idle?
  }

  lemma OtherSignalsTame(s: Session, sig: Signal)
    requires !TakesInvite(s, sig)
    ensures Tame(s, BeginSignal(s, sig))
  {
  }

  lemma DeliverOnce(w: World, p: Packet, env: Env)
    requires OneInvite(w) && p in w.wire && p.Down? && p.dst < |w.nodes|
    ensures OneInvite(DeliverStep(w, p, Atomic, env))
  {
    var s := w.nodes[p.dst].s;
    if TakesInvite(s, p.sig) {
      SettleNone(BeginSignal(s, p.sig), env);
      RingOnce(w, p);
    } else {
      TakeOnce(w, p);
      OtherSignalsTame(s, p.sig);
      PutSettledOnce(Take(w, p), p.dst, BeginSignal(s, p.sig), env);
    }
  }

  lemma RingOnce(w: World, p: Packet)
    requires OneInvite(w) && p in w.wire && p.Down? && p.dst < |w.nodes|
    requires TakesInvite(w.nodes[p.dst].s, p.sig)
    ensures OneInvite(Put(Take(w, p), p.dst, BeginSignal(w.nodes[p.dst].s, p.sig)))
  {
    var u := Take(w, p);
    TakeOnce(w, p);
    var c := p.sig.raw.call;
    TakenInvite(w, p, c);
    var v := Put(u, p.dst, BeginSignal(w.nodes[p.dst].s, p.sig));
    assert v.wire == u.wire;
    forall q, d | q in v.wire && InviteFor(q, d) ensures NotTakenUp(v, d) {
      assert NotTakenUp(u, d);
    }
  }

  lemma TabTame(s: Session, connected: bool, cand: Candidate)
    ensures Tame(s, EndCall(s)) && Tame(s, Stay(ConnectionChange(s, connected))) && Tame(s, LocalCandidate(s, cand))
    ensures s.callId.Some? && s.peerId.Some? ==> Tame(s, RejectIncoming(s, s.callId.value, s.peerId.value))
  {
  }

  lemma DeclineOnce(w: World, i: nat)
    requires OneInvite(w) && i < |w.nodes|
    ensures OneInvite(DeclineStep(w, i))
  {
    var s := w.nodes[i].s;
    TabTame(s, false, 0);
    if s.callId.Some? && s.peerId.Some? {
      PutOnce(w, i, RejectIncoming(s, s.callId.value, s.peerId.value));
    }
  }

  lemma EndOnce(w: World, i: nat)
    requires OneInvite(w) && i < |w.nodes|
    ensures OneInvite(Put(w, i, EndCall(w.nodes[i].s)))
  {
    TabTame(w.nodes[i].s, false, 0);
    PutOnce(w, i, EndCall(w.nodes[i].s));
  }

  lemma ConnectionOnce(w: World, i: nat, connected: bool)
    requires OneInvite(w) && i < |w.nodes|
    ensures OneInvite(ConnectionStep(w, i, connected))
  {
    TabTame(w.nodes[i].s, connected, 0);
    PutOnce(w, i, Stay(ConnectionChange(w.nodes[i].s, connected)));
  }

  lemma LocalIceOnce(w: World, i: nat, call: CallId, peer: User, cand: Candidate)
    requires OneInvite(w) && i < |w.nodes|
    ensures OneInvite(LocalIceStep(w, i, Atomic, call, peer, cand))
  {
    TabTame(w.nodes[i].s, false, cand);
    PutOnce(w, i, LocalCandidate(w.nodes[i].s, cand));
  }

  lemma JoinOnce(w: World, user: User)
    requires OneInvite(w)
    ensures OneInvite(JoinStep(w, user))
  {
    var v := JoinStep(w, user);
    forall p, c | p in v.wire && InviteFor(p, c) ensures NotTakenUp(v, c) {
      assert NotTakenUp(w, c);
    }
  }

  /** What the other invariants say about one tab. */
  lemma TabFacts(w: World, i: nat)
    requires Safe(w) && i < |w.nodes|
    ensures w.nodes[i].conts == []
    ensures w.nodes[i].s.phase.Idle? <==> w.nodes[i].s.callId.None?
    ensures w.nodes[i].s.phase.Incoming? ==>
              w.nodes[i].s.callId.value in w.placed && Invited(w, i, w.nodes[i].s.callId.value)
  {
    assert NodeOk(w.placed, i, w.nodes[i]) && TabSafe(w, i, w.nodes[i].s, None);
  }

  lemma PlacedOnce(w: World, i: nat, peer: User, video: bool, call: CallId, env: Env)
    requires Safe(w) && OneInvite(w) && i < |w.nodes|
    ensures OneInvite(StartStep(w, i, peer, video, call, Atomic, env))
  {
    if call !in w.placed && call != "" && w.nodes[i].s.phase == Idle {
      TabFacts(w, i);
      NewCallIsUnheard(w, call);
      StartOnce(w, i, peer, video, call, env);
    }
  }

  lemma TakenUpOnce(w: World, i: nat, env: Env)
    requires Safe(w) && OneInvite(w) && i < |w.nodes|
    ensures OneInvite(AcceptStep(w, i, Atomic, env))
  {
    TabFacts(w, i);
    AcceptStepOnce(w, i, env);
  }

  lemma ApplyOnceWire(w: World, a: Action)
    requires Safe(w) && OneInvite(w) && OneTab(w)
    requires a.Join? || a.Forward? || a.Deliver? || a.Lose?
    ensures OneInvite(Apply(w, a, Atomic))
  {
    var v := Apply(w, a, Atomic);
    if v != w {
      match a {
        case Join(user) =>
          assert v == JoinStep(w, user);
          JoinOnce(w, user);
        case Forward(p, friendships) =>
          assert v == ForwardStep(w, p, friendships);
          ForwardOnce(w, p, friendships);
        case Deliver(p, env) =>
          assert v == DeliverStep(w, p, Atomic, env);
          DeliverOnce(w, p, env);
        case Lose(p) =>
          assert v == Take(w, p);
          TakeOnce(w, p);
      }
    }
  }

  lemma ApplyOnceCall(w: World, a: Action)
    requires Safe(w) && OneInvite(w) && OneTab(w)
    requires a.Start? || a.PressAccept? || a.Settled?
    ensures OneInvite(Apply(w, a, Atomic))
  {
    var v := Apply(w, a, Atomic);
    if v != w {
      match a {
        case Start(i, peer, video, call, env) =>
          assert v == StartStep(w, i, peer, video, call, Atomic, env);
          PlacedOnce(w, i, peer, video, call, env);
        case PressAccept(i, env) =>
          assert v == AcceptStep(w, i, Atomic, env);
          TakenUpOnce(w, i, env);
        case Settled(i, k, outcome) =>
          TabFacts(w, i);
      }
    }
  }

  lemma ApplyOnceTab(w: World, a: Action)
    requires Safe(w) && OneInvite(w) && OneTab(w)
    requires a.PressDecline? || a.PressEnd? || a.Connection? || a.LocalIce?
    ensures OneInvite(Apply(w, a, Atomic))
  {
    var v := Apply(w, a, Atomic);
    if v != w {
      match a {
        case PressDecline(i) =>
          assert v == DeclineStep(w, i);
          DeclineOnce(w, i);
        case PressEnd(i) =>
          assert v == Put(w, i, EndCall(w.nodes[i].s));
          EndOnce(w, i);
        case Connection(i, connected) =>
          assert v == ConnectionStep(w, i, connected);
          ConnectionOnce(w, i, connected);
        case LocalIce(i, call, peer, cand) =>
          assert v == LocalIceStep(w, i, Atomic, call, peer, cand);
          LocalIceOnce(w, i, call, peer, cand);
      }
    }
  }

  lemma ApplyOnce(w: World, a: Action)
    requires Safe(w) && OneInvite(w) && OneTab(w)
    ensures OneInvite(Apply(w, a, Atomic))
  {
    if a.Join? || a.Forward? || a.Deliver? || a.Lose? {
      ApplyOnceWire(w, a);
    } else if a.Start? || a.PressAccept? || a.Settled? {
      ApplyOnceCall(w, a);
    } else {
      ApplyOnceTab(w, a);
    }
  }

  lemma ApplyKeepsUsers(w: World, a: Action, mode: Mode)
    ensures |w.nodes| <= |Apply(w, a, mode).nodes|
    ensures forall i | 0 <= i < |w.nodes| :: Apply(w, a, mode).nodes[i].user == w.nodes[i].user
  {
    match a {
      case Deliver(p, env) => assert p in w.wire ==> Take(w, p).nodes == w.nodes;
      case _ =>
    }
  }

  lemma {:induction false} RunOnce(actions: seq<Action>)
    requires OneTab(Run(actions, Atomic))
    ensures OneInvite(Run(actions, Atomic))
  {
    if actions != [] {
      var last := |actions| - 1;
      var w := Run(actions[..last], Atomic);
      ApplyKeepsUsers(w, actions[last], Atomic);
      assert OneTab(w) by {
        var v := Run(actions, Atomic);
        forall i, j | 0 <= i < |w.nodes| && 0 <= j < |w.nodes| && w.nodes[i].user == w.nodes[j].user ensures i == j {
          assert v.nodes[i].user == v.nodes[j].user;
        }
      }
      RunOnce(actions[..last]);
      RunSafe(actions[..last]);
      ApplyOnce(w, actions[last]);
    }
  }

  /**
    No dropped candidate, over every run with one tab per user: whenever a candidate message reaches a tab
    that holds its call with its sender as peer, that tab already has a connection, so the candidate is kept.
  */
  lemma NoCandidateDropped(actions: seq<Action>, i: nat, from: User, raw: Raw)
    requires OneTab(Run(actions, Atomic)) && i < |Run(actions, Atomic).nodes|
    requires Down(i, Relayed(from, raw)) in Run(actions, Atomic).wire && raw.kind.Ice?
    requires Run(actions, Atomic).nodes[i].s.callId == Some(raw.call)
    requires Run(actions, Atomic).nodes[i].s.peerId == Some(from)
    ensures Run(actions, Atomic).nodes[i].s.pc.Some?
  {
    var w := Run(actions, Atomic);
    var s, c := w.nodes[i].s, raw.call;
    RunSafe(actions);
    RunOnce(actions);
    assert PacketSafe(w, Down(i, Relayed(from, raw)));
    assert NodeOk(w.placed, i, w.nodes[i]) && TabSafe(w, i, s, None);
    if w.placed[c].tab != i {
      SoleTabAccepted(w, i, c);
    }
  }

  lemma SoleTabAccepted(w: World, i: nat, c: CallId)
    requires OneTab(w) && i < |w.nodes| && Consented(w, c) && w.nodes[i].user == w.placed[c].callee
    ensures (c, i) in w.accepted
  {
    var j :| 0 <= j < |w.nodes| && (c, j) in w.accepted && w.nodes[j].user == w.placed[c].callee;
    assert w.nodes[i].user == w.nodes[j].user;
  }

  /**
    Exactly which tabs drop a candidate of their call, with any number of tabs per user: a tab that holds a
    call has no connection if and only if it only rings.
  */
  lemma DropsExactlyWhenRinging(actions: seq<Action>, i: nat)
    requires i < |Run(actions, Atomic).nodes| && Run(actions, Atomic).nodes[i].s.callId.Some?
    ensures var s := Run(actions, Atomic).nodes[i].s; s.pc.None? <==> s.phase.Incoming?
  {
    ConnectionOnlyInCall(actions, i);
    RunSafe(actions);
    var w := Run(actions, Atomic);
    assert NodeOk(w.placed, i, w.nodes[i]);
  }
}
