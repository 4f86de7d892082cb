/**
  Runs of the whole world that get somewhere: from any reachable world a call can be completed, and a second
  tab of the invited user can meet candidates of a call it only rings for.
*/
module CallRuns {
  import opened Common
  import opened VoiceCall
  import opened CallWorld
  import opened CallHandshake
  import CallSafety
  import Friends

  function At(actions: seq<Action>): World {
    Run(actions, Atomic)
  }

  function Tab(actions: seq<Action>, i: nat): Session
    requires i < |At(actions).nodes|
  {
    At(actions).nodes[i].s
  }

  ghost predicate SameUsers(w: World, v: World) {
    |w.nodes| == |v.nodes| && forall k | 0 <= k < |w.nodes| :: v.nodes[k].user == w.nodes[k].user
  }

  // ---------- one step ----------

  /** Tab i went on to x: it sent x.sent, nothing was lost, and no other tab moved. */
  ghost predicate Went(w: World, v: World, i: nat, x: Susp) {
    && SameUsers(w, v) && i < |w.nodes|
    && (forall k | 0 <= k < |w.nodes| :: v.nodes[k].s == if k == i then x.s else w.nodes[k].s)
    && (forall r | r in x.sent :: Up(i, r) in v.wire)
    && (forall p | p in w.wire :: p in v.wire)
  }

  lemma PutWent(w: World, i: nat, x: Susp)
    requires i < |w.nodes|
    ensures Went(w, Put(w, i, x), i, x)
  {
    forall r | r in x.sent ensures Up(i, r) in Put(w, i, x).wire {
      UpsHas(i, x.sent, r);
    }
  }

  /** The server took p and relayed it to every tab of the target. */
  ghost predicate Relays(w: World, v: World, p: Packet, to: User, sig: Signal) {
    && v.nodes == w.nodes
    && (forall k | 0 <= k < |w.nodes| && w.nodes[k].user == to :: Down(k, sig) in v.wire)
    && (forall q | q in w.wire && q != p :: q in v.wire)
  }

  lemma ForwardRelays(actions: seq<Action>, i: nat, raw: Raw, friendships: Friends.Rows)
    requires i < |At(actions).nodes| && Up(i, raw) in At(actions).wire
    requires Relay(friendships, At(actions).nodes[i].user, raw).Some?
    ensures Relays(At(actions), At(actions + [Forward(Up(i, raw), friendships)]), Up(i, raw), raw.to,
                   Relayed(At(actions).nodes[i].user, raw))
  {
    var w, sig := At(actions), Relayed(At(actions).nodes[i].user, raw);
    RunPlus(actions, Forward(Up(i, raw), friendships), Atomic);
    forall k | 0 <= k < |w.nodes| && w.nodes[k].user == raw.to ensures Down(k, sig) in FanOut(w.nodes, raw.to, sig) {
      FanOutReachesAllTabs(w.nodes, raw.to, sig, k);
    }
  }

  /** Tab j handled p. */
  ghost predicate Heard(w: World, v: World, p: Packet, j: nat, x: Susp) {
    && SameUsers(w, v) && j < |w.nodes|
    && (forall k | 0 <= k < |w.nodes| :: v.nodes[k].s == if k == j then x.s else w.nodes[k].s)
    && (forall r | r in x.sent :: Up(j, r) in v.wire)
    && (forall q | q in w.wire && q != p :: q in v.wire)
  }

  lemma DeliverHeard(actions: seq<Action>, j: nat, sig: Signal, env: Env)
    requires j < |At(actions).nodes| && Down(j, sig) in At(actions).wire
    ensures Heard(At(actions), At(actions + [Deliver(Down(j, sig), env)]), Down(j, sig), j,
                  Settle(BeginSignal(Tab(actions, j), sig), env))
  {
    var w, p := At(actions), Down(j, sig);
    RunPlus(actions, Deliver(p, env), Atomic);
    TakenAndWent(w, DeliverStep(w, p, Atomic, env), p, j, Settle(BeginSignal(Tab(actions, j), sig), env));
  }

  lemma TakenAndWent(w: World, v: World, p: Packet, j: nat, x: Susp)
    requires p in w.wire && j < |w.nodes| && v == Put(Take(w, p), j, x)
    ensures Heard(w, v, p, j, x)
  {
    PutWent(Take(w, p), j, x);
  }

  /** A message passed from tab i to tab j; other tabs of the target have their copies under way. */
  ghost predicate Passed(w: World, v: World, i: nat, j: nat, raw: Raw, x: Susp) {
    && SameUsers(w, v) && i < |w.nodes| && j < |w.nodes|
    && (forall k | 0 <= k < |w.nodes| :: v.nodes[k].s == if k == j then x.s else w.nodes[k].s)
    && (forall r | r in x.sent :: Up(j, r) in v.wire)
    && (forall k | 0 <= k < |w.nodes| && k != j && w.nodes[k].user == raw.to ::
          Down(k, Relayed(w.nodes[i].user, raw)) in v.wire)
    && (forall q | q in w.wire && q.Up? && q != Up(i, raw) :: q in v.wire)
    && (forall q | q in w.wire && q.Down? && q.dst != j :: q in v.wire)
  }

  lemma Passes(actions: seq<Action>, i: nat, j: nat, raw: Raw, friendships: Friends.Rows, env: Env)
      returns (more: seq<Action>)
    requires i < |At(actions).nodes| && j < |At(actions).nodes| && Up(i, raw) in At(actions).wire
    requires Relay(friendships, At(actions).nodes[i].user, raw).Some? && At(actions).nodes[j].user == raw.to
    ensures actions <= more
    ensures Passed(At(actions), At(more), i, j, raw, Hear(friendships, Tab(actions, j), At(actions).nodes[i].user, raw, env))
  {
    var sig := Relayed(At(actions).nodes[i].user, raw);
    var mid := actions + [Forward(Up(i, raw), friendships)];
    ForwardRelays(actions, i, raw, friendships);
    DeliverHeard(mid, j, sig, env);
    more := mid + [Deliver(Down(j, sig), env)];
  }

  // ---------- the parts of a call ----------

  /** Tab i placed the call and its invitation is on its way. */
  ghost predicate Invited(actions: seq<Action>, i: nat, peer: User, video: bool, call: CallId) {
    i < |At(actions).nodes| && Calling(Tab(actions, i), peer, video, call)
    && Up(i, Plain(Invite, call, peer).(video := video)) in At(actions).wire
  }

  /** The caller's side before negotiation. */
  predicate Calling(s: Session, peer: User, video: bool, call: CallId) {
    s.phase.Outgoing? && s.callId == Some(call) && s.peerId == Some(peer) && s.video == video
    && s.pc.Some? && !s.pc.value.hasRemote && s.pc.value.call == call && s.pc.value.peer == peer
  }

  lemma Place(actions: seq<Action>, i: nat, peer: User, video: bool, call: CallId, ea: Env) returns (more: seq<Action>)
    requires i < |At(actions).nodes| && Tab(actions, i).phase.Idle? && call != "" && call !in At(actions).placed && Willing(ea)
    ensures actions <= more && SameUsers(At(actions), At(more)) && Invited(more, i, peer, video, call)
    ensures forall k | 0 <= k < |At(actions).nodes| && k != i :: At(more).nodes[k].s == At(actions).nodes[k].s
  {
    var a := Start(i, peer, video, call, ea);
    more := actions + [a];
    RunPlus(actions, a, Atomic);
    Placing(Tab(actions, i), peer, video, call, ea);
    PutWent(CallWorld.Place(At(actions), i, peer, video, call), i, Settle(BeginStart(Tab(actions, i), peer, video, call), ea));
  }

  /** Tab j rings for the call and does nothing else yet. */
  predicate Rings(s: Session, from: User, video: bool, call: CallId) {
    s.phase.Incoming? && s.callId == Some(call) && s.peerId == Some(from) && s.video == video && s.pc.None? && s.pendingIce == []
  }

  /** The callee's side before the offer. */
  predicate Taken(s: Session, from: User, video: bool, call: CallId) {
    s.phase.Connecting? && s.callId == Some(call) && s.peerId == Some(from) && s.video == video && s.pendingIce == []
    && s.pc.Some? && !s.pc.value.hasRemote && s.pc.value.given == []
  }

  lemma Accept(actions: seq<Action>, j: nat, from: User, video: bool, call: CallId, eb: Env) returns (more: seq<Action>)
    requires j < |At(actions).nodes| && Rings(Tab(actions, j), from, video, call) && call != "" && from != "" && Willing(eb)
    ensures actions <= more && SameUsers(At(actions), At(more)) && Taken(Tab(more, j), from, video, call)
    ensures Up(j, Plain(VoiceCall.Accept, call, from)) in At(more).wire
    ensures forall k | 0 <= k < |At(actions).nodes| && k != j :: At(more).nodes[k].s == At(actions).nodes[k].s
    ensures forall p | p in At(actions).wire :: p in At(more).wire
  {
    var a := PressAccept(j, eb);
    more := actions + [a];
    RunPlus(actions, a, Atomic);
    Accepting(Tab(actions, j), from, call, eb);
    var w := At(actions);
    PutWent(w.(accepted := w.accepted + {(call, j)}), j, Settle(BeginAccept(Tab(actions, j), call, from), eb));
  }

  /** An idle tab of a reachable world has nothing queued. */
  lemma IdleIsEmpty(actions: seq<Action>, i: nat)
    requires i < |At(actions).nodes| && Tab(actions, i).phase.Idle?
    ensures Tab(actions, i).pendingIce == [] && Tab(actions, i).pc.None?
  {
    CallSafety.RunSafe(actions);
    assert CallSafety.TabSafe(At(actions), i, Tab(actions, i), None);
  }

  /** The invitation reaches an idle tab, which rings. */
  lemma Ring(actions: seq<Action>, i: nat, j: nat, video: bool, call: CallId, friendships: Friends.Rows, env: Env)
      returns (more: seq<Action>)
    requires i < |At(actions).nodes| && j < |At(actions).nodes| && i != j && call != ""
    requires var u, v := At(actions).nodes[i].user, At(actions).nodes[j].user;
             && u != "" && v != "" && Friends.AreFriends(friendships, u, v)
             && Up(i, Plain(Invite, call, v).(video := video)) in At(actions).wire
    requires Tab(actions, j).phase.Idle?
    ensures actions <= more && |At(more).nodes| == |At(actions).nodes|
    ensures var x := Stay(Tab(more, j)); var u, v := At(actions).nodes[i].user, At(actions).nodes[j].user;
            && Passed(At(actions), At(more), i, j, Plain(Invite, call, v).(video := video), x)
            && Rings(x.s, u, video, call)
  {
    var u, v := At(actions).nodes[i].user, At(actions).nodes[j].user;
    IdleIsEmpty(actions, j);
    Ringing(friendships, Tab(actions, j), u, v, video, call, env);
    more := Passes(actions, i, j, Plain(Invite, call, v).(video := video), friendships, env);
  }

  /** Two idle tabs of friends, a fresh call, and willing browsers. */
  ghost predicate CanCall(actions: seq<Action>, i: nat, j: nat, call: CallId, friendships: Friends.Rows, ea: Env, eb: Env) {
    var w := At(actions);
    && i < |w.nodes| && j < |w.nodes| && i != j && w.nodes[i].user != "" && w.nodes[j].user != ""
    && Friends.AreFriends(friendships, w.nodes[i].user, w.nodes[j].user)
    && w.nodes[i].s.phase.Idle? && w.nodes[j].s.phase.Idle?
    && call != "" && call !in w.placed && Willing(ea) && Willing(eb)
  }

  /** Tab i called and tab j rings; the invitation is on its way to the user's other tabs. */
  ghost predicate Dialled(actions: seq<Action>, more: seq<Action>, i: nat, j: nat, video: bool, call: CallId) {
    var w, v := At(actions), At(more);
    && SameUsers(w, v) && i < |w.nodes| && j < |w.nodes| && i != j
    && var u, peer := w.nodes[i].user, w.nodes[j].user;
      && Calling(v.nodes[i].s, peer, video, call) && Rings(v.nodes[j].s, u, video, call)
      && (forall k | 0 <= k < |w.nodes| && k != i && k != j :: v.nodes[k].s == w.nodes[k].s)
      && (forall k | 0 <= k < |w.nodes| && k != j && w.nodes[k].user == peer ::
            Down(k, Relayed(u, Plain(Invite, call, peer).(video := video))) in v.wire)
  }

  lemma Dial(actions: seq<Action>, i: nat, j: nat, video: bool, call: CallId, friendships: Friends.Rows, ea: Env, eb: Env)
      returns (more: seq<Action>)
    requires CanCall(actions, i, j, call, friendships, ea, eb)
    ensures actions <= more && Dialled(actions, more, i, j, video, call)
  {
    var mid := Place(actions, i, At(actions).nodes[j].user, video, call, ea);
    more := Ring(mid, i, j, video, call, friendships, eb);
  }

  /** Tab j accepted, and tab i has made its offer. */
  ghost predicate Offered(actions: seq<Action>, more: seq<Action>, i: nat, j: nat, video: bool, call: CallId, sdp: string) {
    var w, v := At(actions), At(more);
    && SameUsers(w, v) && i < |w.nodes| && j < |w.nodes| && i != j
    && w.nodes[i].s.pc.Some? && v.nodes[i].s == MarkLocal(w.nodes[i].s, w.nodes[i].s.pc.value.id)
    && Taken(v.nodes[j].s, w.nodes[i].user, video, call)
    && (forall k | 0 <= k < |w.nodes| && k != i && k != j :: v.nodes[k].s == w.nodes[k].s)
    && Up(i, Plain(Offer, call, w.nodes[j].user).(sdp := sdp)) in v.wire
  }

  lemma PickUp(actions: seq<Action>, i: nat, j: nat, video: bool, call: CallId, friendships: Friends.Rows, ea: Env, eb: Env)
      returns (more: seq<Action>)
    requires i < |At(actions).nodes| && j < |At(actions).nodes| && i != j && call != "" && Willing(ea) && Willing(eb)
    requires var u, v := At(actions).nodes[i].user, At(actions).nodes[j].user;
             && u != "" && v != "" && Friends.AreFriends(friendships, v, u)
             && Calling(Tab(actions, i), v, video, call) && Rings(Tab(actions, j), u, video, call)
    ensures actions <= more && Offered(actions, more, i, j, video, call, ea.create.value)
  {
    var u, v := At(actions).nodes[i].user, At(actions).nodes[j].user;
    var mid := Accept(actions, j, u, video, call, eb);
    Offering(friendships, Tab(actions, i), u, v, call, ea);
    more := Passes(mid, j, i, Plain(VoiceCall.Accept, call, u), friendships, ea);
  }

  lemma Gather(actions: seq<Action>, i: nat, c: Candidate) returns (more: seq<Action>)
    requires i < |At(actions).nodes| && Tab(actions, i).pc.Some? && Tab(actions, i).pc.value.hasLocal && Truthy(Tab(actions, i).callId)
    ensures var pc := Tab(actions, i).pc.value;
            actions <= more
            && Went(At(actions), At(more), i, Susp(Tab(actions, i), [Raw(Ice, pc.call, pc.peer, false, "", Some(c))], None))
  {
    var a := LocalIce(i, "", "", c);
    more := actions + [a];
    RunPlus(actions, a, Atomic);
    PutWent(At(actions), i, LocalCandidate(Tab(actions, i), c));
  }

  /** Candidates of tab i overtake whatever else it has under way. */
  lemma {:induction false} Trickle(actions: seq<Action>, i: nat, j: nat, call: CallId, cs: seq<Candidate>, friendships: Friends.Rows, env: Env)
      returns (more: seq<Action>)
    requires i < |At(actions).nodes| && j < |At(actions).nodes| && i != j && call != ""
    requires Tab(actions, i).pc.Some? && Tab(actions, i).pc.value.hasLocal && Tab(actions, i).callId == Some(call)
    requires var u, v := At(actions).nodes[i].user, At(actions).nodes[j].user;
             && v != "" && Friends.AreFriends(friendships, u, v)
             && Tab(actions, i).pc.value.call == call && Tab(actions, i).pc.value.peer == v
    ensures actions <= more && SameUsers(At(actions), At(more))
    ensures forall k | 0 <= k < |At(actions).nodes| && k != j :: At(more).nodes[k].s == At(actions).nodes[k].s
    ensures Tab(more, j) == HearIce(friendships, Tab(actions, j), At(actions).nodes[i].user, At(actions).nodes[j].user, call, cs, env)
    ensures forall q | q in At(actions).wire && q.Up? && !q.raw.kind.Ice? :: q in At(more).wire
    decreases |cs|
  {
    if cs == [] {
      more := actions;
    } else {
      var c, v := cs[|cs| - 1], At(actions).nodes[j].user;
      var m1 := Trickle(actions, i, j, call, cs[..|cs| - 1], friendships, env);
      var m2 := Gather(m1, i, c);
      more := Passes(m2, i, j, Raw(Ice, call, v, false, "", Some(c)), friendships, env);
    }
  }

  /** Offer and answer pass, and the browser connects both tabs. */
  lemma Negotiates(actions: seq<Action>, i: nat, j: nat, video: bool, call: CallId, sdp: string, friendships: Friends.Rows, ea: Env, eb: Env)
      returns (more: seq<Action>)
    requires i < |At(actions).nodes| && j < |At(actions).nodes| && i != j && call != "" && sdp != "" && Willing(ea) && Willing(eb)
    requires var u, v := At(actions).nodes[i].user, At(actions).nodes[j].user;
             && u != "" && v != "" && Friends.AreFriends(friendships, u, v) && Friends.AreFriends(friendships, v, u)
             && Calling(Tab(actions, i), v, video, call) && Tab(actions, i).pc.value.hasLocal
             && Up(i, Plain(Offer, call, v).(sdp := sdp)) in At(actions).wire
             && Tab(actions, j).phase.Connecting? && Tab(actions, j).callId == Some(call) && Tab(actions, j).peerId == Some(u)
             && Tab(actions, j).video == video && Tab(actions, j).pc.Some?
    ensures actions <= more && SameUsers(At(actions), At(more))
    ensures var u, v := At(actions).nodes[i].user, At(actions).nodes[j].user;
            InCall(Tab(more, i), v, video, call) && InCall(Tab(more, j), u, video, call)
    ensures Tab(more, j) == MarkLocal(Flushed(Tab(actions, j)), Tab(actions, j).pc.value.id)
  {
    var u, v := At(actions).nodes[i].user, At(actions).nodes[j].user;
    Answering(friendships, Tab(actions, j), v, u, call, sdp, eb);
    var mid := Passes(actions, i, j, Plain(Offer, call, v).(sdp := sdp), friendships, eb);
    Completing(friendships, Tab(actions, i), u, v, call, eb.create.value, ea);
    more := Passes(mid, j, i, Plain(Answer, call, u).(sdp := eb.create.value), friendships, ea);
  }

  lemma Connects(actions: seq<Action>, i: nat) returns (more: seq<Action>)
    requires i < |At(actions).nodes| && BothDescriptions(Tab(actions, i)) && !Tab(actions, i).phase.Idle?
    ensures actions <= more && SameUsers(At(actions), At(more))
    ensures forall k | 0 <= k < |At(actions).nodes| ::
              At(more).nodes[k].s == if k == i then Tab(actions, i).(phase := Active) else At(actions).nodes[k].s
  {
    more := actions + [Connection(i, true)];
    RunPlus(actions, Connection(i, true), Atomic);
    PutWent(At(actions), i, Stay(ConnectionChange(Tab(actions, i), true)));
  }

  // ---------- results ----------

  /** Both tabs are active in the call, and the candidates that overtook the offer were given in order. */
  ghost predicate Connected(w: World, i: nat, j: nat, video: bool, call: CallId, cs: seq<Candidate>) {
    && i < |w.nodes| && j < |w.nodes|
    && w.nodes[i].s.phase.Active? && w.nodes[j].s.phase.Active?
    && InCall(w.nodes[i].s, w.nodes[j].user, video, call) && InCall(w.nodes[j].s, w.nodes[i].user, video, call)
    && w.nodes[j].s.pc.value.given == cs && w.nodes[j].s.pendingIce == []
  }

  /** Tab i has made its offer for a call that tab j took up; the other tabs are as before the call. */
  ghost predicate Open(w: World, v: World, i: nat, j: nat, video: bool, call: CallId, sdp: string) {
    && SameUsers(w, v) && i < |w.nodes| && j < |w.nodes| && i != j
    && Calling(v.nodes[i].s, w.nodes[j].user, video, call) && v.nodes[i].s.pc.value.hasLocal
    && Taken(v.nodes[j].s, w.nodes[i].user, video, call)
    && Up(i, Plain(Offer, call, w.nodes[j].user).(sdp := sdp)) in v.wire
  }

  lemma Opens(actions: seq<Action>, i: nat, j: nat, video: bool, call: CallId, friendships: Friends.Rows, ea: Env, eb: Env)
      returns (more: seq<Action>)
    requires CanCall(actions, i, j, call, friendships, ea, eb)
    ensures actions <= more && Open(At(actions), At(more), i, j, video, call, ea.create.value)
  {
    Friends.FriendshipIsSymmetric(friendships, At(actions).nodes[i].user, At(actions).nodes[j].user);
    var mid := Dial(actions, i, j, video, call, friendships, ea, eb);
    more := PickUp(mid, i, j, video, call, friendships, ea, eb);
  }

  /** From the offer on, with candidates that overtake it. */
  lemma Finishes(actions: seq<Action>, i: nat, j: nat, video: bool, call: CallId, sdp: string, cs: seq<Candidate>,
                 friendships: Friends.Rows, ea: Env, eb: Env) returns (more: seq<Action>)
    requires Open(At(actions), At(actions), i, j, video, call, sdp) && call != "" && sdp != "" && Willing(ea) && Willing(eb)
    requires At(actions).nodes[i].user != "" && At(actions).nodes[j].user != ""
    requires Friends.AreFriends(friendships, At(actions).nodes[i].user, At(actions).nodes[j].user)
    ensures actions <= more && SameUsers(At(actions), At(more)) && Connected(At(more), i, j, video, call, cs)
  {
    var u, v := At(actions).nodes[i].user, At(actions).nodes[j].user;
    Friends.FriendshipIsSymmetric(friendships, u, v);
    var m1 := Trickle(actions, i, j, call, cs, friendships, eb);
    Queueing(friendships, Tab(actions, j), v, u, call, cs, eb);
    var m2 := Negotiates(m1, i, j, video, call, sdp, friendships, ea, eb);
    assert [] + cs == cs;
    var m3 := Connects(m2, i);
    more := Connects(m3, j);
  }

  /**
    From every reachable world, with any number of other tabs and messages, a call between two idle tabs of
    friends can be completed: the run goes on to a world in which both tabs are active in it.
  */
  lemma CallConnects(actions: seq<Action>, i: nat, j: nat, video: bool, call: CallId, cs: seq<Candidate>,
                     friendships: Friends.Rows, ea: Env, eb: Env)
    requires CanCall(actions, i, j, call, friendships, ea, eb)
    ensures exists more :: actions <= more && Connected(At(more), i, j, video, call, cs)
  {
    var mid := Opens(actions, i, j, video, call, friendships, ea, eb);
    var more := Finishes(mid, i, j, video, call, ea.create.value, cs, friendships, ea, eb);
    assert actions <= more;
  }

  // ---------- a second tab of the invited user ----------

  /** A candidate is on its way to tab k, which holds its call with its sender as peer and has no connection. */
  ghost predicate MeetsRinging(w: World, k: nat, from: User, raw: Raw) {
    && k < |w.nodes| && raw.kind.Ice? && raw.cand.Some? && Down(k, Relayed(from, raw)) in w.wire
    && w.nodes[k].s.callId == Some(raw.call) && w.nodes[k].s.peerId == Some(from)
    && w.nodes[k].s.phase.Incoming? && w.nodes[k].s.pc.None?
  }

  /** The invitation of tab i reaches both tabs j and k of the invited user. */
  lemma DialBoth(actions: seq<Action>, i: nat, j: nat, k: nat, video: bool, call: CallId, friendships: Friends.Rows, ea: Env, eb: Env)
      returns (more: seq<Action>)
    requires CanCall(actions, i, j, call, friendships, ea, eb)
    requires k < |At(actions).nodes| && k != i && k != j && Tab(actions, k).phase.Idle?
    requires At(actions).nodes[k].user == At(actions).nodes[j].user
    ensures actions <= more && SameUsers(At(actions), At(more))
    ensures var u, v := At(actions).nodes[i].user, At(actions).nodes[j].user;
            && Calling(Tab(more, i), v, video, call) && Rings(Tab(more, j), u, video, call) && Rings(Tab(more, k), u, video, call)
  {
    var u, v := At(actions).nodes[i].user, At(actions).nodes[j].user;
    var invite := Plain(Invite, call, v).(video := video);
    IdleIsEmpty(actions, k);
    var mid := Dial(actions, i, j, video, call, friendships, ea, eb);
    Ringing(friendships, Tab(mid, k), u, v, video, call, eb);
    DeliverHeard(mid, k, Relayed(u, invite), eb);
    more := mid + [Deliver(Down(k, Relayed(u, invite)), eb)];
  }

  lemma CandidateMeetsRinging(actions: seq<Action>, i: nat, j: nat, k: nat, video: bool, call: CallId, c: Candidate,
                              friendships: Friends.Rows, ea: Env, eb: Env) returns (more: seq<Action>)
    requires CanCall(actions, i, j, call, friendships, ea, eb)
    requires k < |At(actions).nodes| && k != i && k != j && Tab(actions, k).phase.Idle?
    requires At(actions).nodes[k].user == At(actions).nodes[j].user
    ensures actions <= more
    ensures var u, v := At(actions).nodes[i].user, At(actions).nodes[j].user;
            MeetsRinging(At(more), k, u, Raw(Ice, call, v, false, "", Some(c)))
  {
    var u, v := At(actions).nodes[i].user, At(actions).nodes[j].user;
    Friends.FriendshipIsSymmetric(friendships, u, v);
    var m1 := DialBoth(actions, i, j, k, video, call, friendships, ea, eb);
    var m2 := PickUp(m1, i, j, video, call, friendships, ea, eb);
    var m3 := Gather(m2, i, c);
    var ice := Raw(Ice, call, v, false, "", Some(c));
    ForwardRelays(m3, i, ice, friendships);
    more := m3 + [Forward(Up(i, ice), friendships)];
  }

  /** A tab that rings drops the candidate: it stays as it is. */
  lemma RingingDrops(s: Session, from: User, raw: Raw, env: Env)
    requires raw.kind.Ice? && s.phase.Incoming? && s.pc.None?
    ensures Settle(BeginSignal(s, Relayed(from, raw)), env) == Stay(s)
  {
    SettleNone(Stay(s), env);
  }

  /** A world of one tab of u and two of v. */
  lemma ThreeTabs(u: User, v: User)
    ensures At([Join(u), Join(v), Join(v)]) == World([Node(u, FRESH, []), Node(v, FRESH, []), Node(v, FRESH, [])], multiset{}, map[], {})
  {
    JoinsAsFresh([], u);
    JoinsAsFresh([Join(u)], v);
    JoinsAsFresh([Join(u), Join(v)], v);
    assert [] + [Join(u)] == [Join(u)];
    assert [Join(u)] + [Join(v)] == [Join(u), Join(v)];
    assert [Join(u), Join(v)] + [Join(v)] == [Join(u), Join(v), Join(v)];
  }

  lemma JoinsAsFresh(actions: seq<Action>, u: User)
    ensures At(actions + [Join(u)]) == At(actions).(nodes := At(actions).nodes + [Node(u, FRESH, [])])
  {
    RunPlus(actions, Join(u), Atomic);
  }

  /**
    With a second tab the one-tab claim fails: for any two friends there is a run in which a candidate is
    relayed to a tab that rings for its call with its sender as peer, and that tab will drop it.
  */
  lemma SecondTabDropsCandidate(u: User, v: User, call: CallId, c: Candidate, friendships: Friends.Rows, env: Env)
    requires u != "" && v != "" && call != "" && Friends.AreFriends(friendships, u, v) && Willing(env)
    ensures exists actions :: MeetsRinging(Run(actions, Atomic), 2, u, Raw(Ice, call, v, false, "", Some(c)))
                && var s := Run(actions, Atomic).nodes[2].s;
                   Settle(BeginSignal(s, Relayed(u, Raw(Ice, call, v, false, "", Some(c)))), env) == Stay(s)
  {
    ThreeTabs(u, v);
    var actions := [Join(u), Join(v), Join(v)];
    var more := CandidateMeetsRinging(actions, 0, 1, 2, false, call, c, friendships, env, env);
    RingingDrops(Run(more, Atomic).nodes[2].s, u, Raw(Ice, call, v, false, "", Some(c)), env);
  }
}
