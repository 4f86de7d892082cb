/**
  A run in which a stale answer gives the placing tab a remote description that nobody consented to: a promise
  of the invited user's previous call settles while the tab rings for the next one.
*/
module CallStaleAnswer {
  import opened Common
  import opened VoiceCall
  import opened CallWorld
  import opened CallConsent
  import Friends

  function At(actions: seq<Action>): World {
    Run(actions, Interleaved)
  }

  /** What waits in a tab after a piece of a method ran. */
  function Waiting(conts: seq<Cont>, x: Susp): seq<Cont> {
    if x.next.None? then conts else if conts == [] then [x.next.value] else conts + [x.next.value]
  }

  /** The world with tab i gone on to x. */
  ghost predicate Became(w: World, v: World, i: nat, conts: seq<Cont>, x: Susp) {
    && i < |w.nodes| == |v.nodes|
    && v.nodes[i].user == w.nodes[i].user && v.nodes[i].s == x.s && v.nodes[i].conts == Waiting(conts, x)
    && (forall j | 0 <= j < |w.nodes| && j != i :: v.nodes[j] == w.nodes[j])
  }

  // ---------- steps of one tab ----------

  /** Tab i of the world moved on to x with these methods still waiting; nothing on its way was lost. */
  ghost predicate Moved(w: World, v: World, i: nat, conts: seq<Cont>, x: Susp) {
    && Became(w, v, i, conts, x)
    && (forall r | r in x.sent :: Up(i, r) in v.wire)
    && (forall p | p in w.wire :: p in v.wire)
  }

  lemma PutMoved(w: World, i: nat, x: Susp)
    requires i < |w.nodes|
    ensures Moved(w, Put(w, i, x), i, w.nodes[i].conts, x)
  {
    forall r | r in x.sent ensures Up(i, r) in Put(w, i, x).wire {
      UpsHas(i, x.sent, r);
    }
  }

  /** The only waiting method of tab i goes on. */
  lemma Resumes(actions: seq<Action>, i: nat, k: Cont, outcome: Option<string>) returns (more: seq<Action>)
    requires i < |At(actions).nodes| && At(actions).nodes[i].conts == [k]
    ensures Moved(At(actions), At(more), i, [], Resume(At(actions).nodes[i].s, k, outcome))
    ensures At(more).accepted == At(actions).accepted && At(more).placed == At(actions).placed
  {
    var w := At(actions);
    more := actions + [Settled(i, 0, outcome)];
    RunPlus(actions, Settled(i, 0, outcome), Interleaved);
    var u := w.(nodes := w.nodes[i := w.nodes[i].(conts := [])]);
    PutMoved(u, i, Resume(w.nodes[i].s, k, outcome));
    assert [k][..0] + [k][1..] == [];
  }

  lemma Begins(actions: seq<Action>, i: nat, peer: User, call: CallId) returns (more: seq<Action>)
    requires i < |At(actions).nodes| && At(actions).nodes[i].s.phase.Idle? && call !in At(actions).placed && call != ""
    ensures Moved(At(actions), At(more), i, At(actions).nodes[i].conts, BeginStart(At(actions).nodes[i].s, peer, false, call))
    ensures At(more).accepted == At(actions).accepted
    ensures At(more).placed == At(actions).placed[call := Call(i, At(actions).nodes[i].user, peer, false)]
  {
    more := actions + [Start(i, peer, false, call, DONE)];
    RunPlus(actions, Start(i, peer, false, call, DONE), Interleaved);
    PutMoved(Place(At(actions), i, peer, false, call), i, BeginStart(At(actions).nodes[i].s, peer, false, call));
  }

  lemma Accepts(actions: seq<Action>, i: nat, call: CallId, from: User) returns (more: seq<Action>)
    requires i < |At(actions).nodes| && call != "" && from != ""
    requires var s := At(actions).nodes[i].s; s.phase.Incoming? && s.callId == Some(call) && s.peerId == Some(from)
    ensures Moved(At(actions), At(more), i, At(actions).nodes[i].conts, BeginAccept(At(actions).nodes[i].s, call, from))
    ensures At(more).accepted == At(actions).accepted + {(call, i)} && At(more).placed == At(actions).placed
  {
    more := actions + [PressAccept(i, DONE)];
    RunPlus(actions, PressAccept(i, DONE), Interleaved);
    var w := At(actions);
    PutMoved(w.(accepted := w.accepted + {(call, i)}), i, BeginAccept(w.nodes[i].s, call, from));
  }

  lemma Ends(actions: seq<Action>, i: nat) returns (more: seq<Action>)
    requires i < |At(actions).nodes|
    ensures Moved(At(actions), At(more), i, At(actions).nodes[i].conts, EndCall(At(actions).nodes[i].s))
    ensures At(more).accepted == At(actions).accepted && At(more).placed == At(actions).placed
  {
    more := actions + [PressEnd(i)];
    RunPlus(actions, PressEnd(i), Interleaved);
    PutMoved(At(actions), i, EndCall(At(actions).nodes[i].s));
  }

  lemma Relays(actions: seq<Action>, i: nat, j: nat, raw: Raw, friendships: Friends.Rows) returns (more: seq<Action>)
    requires i < |At(actions).nodes| && j < |At(actions).nodes| && Up(i, raw) in At(actions).wire
    requires Relay(friendships, At(actions).nodes[i].user, raw).Some? && At(actions).nodes[j].user == raw.to
    ensures var w, v := At(actions), At(more);
            v.nodes == w.nodes && v.accepted == w.accepted && v.placed == w.placed
            && Down(j, Relayed(w.nodes[i].user, raw)) in v.wire
  {
    var w, sig := At(actions), Relayed(At(actions).nodes[i].user, raw);
    more := actions + [Forward(Up(i, raw), friendships)];
    RunPlus(actions, Forward(Up(i, raw), friendships), Interleaved);
    FanOutReachesAllTabs(w.nodes, raw.to, sig, j);
    assert Down(j, sig) in FanOut(w.nodes, raw.to, sig);
  }

  lemma Hears(actions: seq<Action>, j: nat, sig: Signal) returns (more: seq<Action>)
    requires j < |At(actions).nodes| && Down(j, sig) in At(actions).wire
    ensures var w, v := At(actions), At(more);
            && Became(w, v, j, w.nodes[j].conts, BeginSignal(w.nodes[j].s, sig))
            && v.accepted == w.accepted && v.placed == w.placed
  {
    var w := At(actions);
    more := actions + [Deliver(Down(j, sig), DONE)];
    RunPlus(actions, Deliver(Down(j, sig), DONE), Interleaved);
    PutMoved(Take(w, Down(j, sig)), j, BeginSignal(w.nodes[j].s, sig));
  }

  /** A message goes from tab i through the server to tab j, which handles it up to the first await. */
  lemma Passes(actions: seq<Action>, i: nat, j: nat, raw: Raw, friendships: Friends.Rows) returns (more: seq<Action>)
    requires i < |At(actions).nodes| && j < |At(actions).nodes| && Up(i, raw) in At(actions).wire
    requires Relay(friendships, At(actions).nodes[i].user, raw).Some? && At(actions).nodes[j].user == raw.to
    ensures var w, v := At(actions), At(more);
            var x := BeginSignal(w.nodes[j].s, Relayed(w.nodes[i].user, raw));
            && Became(w, v, j, w.nodes[j].conts, x)
            && v.accepted == w.accepted && v.placed == w.placed
  {
    var mid := Relays(actions, i, j, raw, friendships);
    more := Hears(mid, j, Relayed(At(actions).nodes[i].user, raw));
  }

  // ---------- the run ----------

  function Caller(call: CallId, peer: User, pc: nat, hasLocal: bool): Session {
    Session(Outgoing, Some(call), Some(peer), Some(Pc(pc, call, peer, hasLocal, false, [], [])), true, [], false, pc + 1)
  }

  function Callee(call: CallId, from: User, hasRemote: bool): Session {
    Session(Connecting, Some(call), Some(from), Some(Pc(0, call, from, false, hasRemote, [], [])), true, [], false, 1)
  }

  function Ended(nextPc: nat): Session {
    Session(Idle, None, None, None, false, [], false, nextPc)
  }

  function Ringing(call: CallId, from: User, nextPc: nat): Session {
    Session(Incoming, Some(call), Some(from), None, false, [], false, nextPc)
  }

  ghost predicate Pair(w: World, u: User, v: User, a: Session, ac: seq<Cont>, b: Session, bc: seq<Cont>) {
    && |w.nodes| == 2
    && w.nodes[0].user == u && w.nodes[0].s == a && w.nodes[0].conts == ac
    && w.nodes[1].user == v && w.nodes[1].s == b && w.nodes[1].conts == bc
  }

  lemma TwoTabs(u: User, v: User) returns (actions: seq<Action>)
    ensures Pair(At(actions), u, v, FRESH, [], FRESH, [])
    ensures At(actions).accepted == {} && At(actions).placed == map[]
  {
    RunPlus([], Join(u), Interleaved);
    RunPlus([] + [Join(u)], Join(v), Interleaved);
    actions := [] + [Join(u)] + [Join(v)];
    assert At([]) == EMPTY;
  }

  lemma Calls(actions: seq<Action>, u: User, v: User, call: CallId, pc: nat, b: Session, bc: seq<Cont>) returns (more: seq<Action>)
    requires call != "" && call !in At(actions).placed && Pair(At(actions), u, v, Ended(pc), [], b, bc)
    ensures Pair(At(more), u, v, Caller(call, v, pc, false), [], b, bc)
    ensures Up(0, Plain(Invite, call, v)) in At(more).wire
    ensures At(more).accepted == At(actions).accepted
    ensures At(more).placed == At(actions).placed[call := Call(0, u, v, false)]
  {
    var mid := Begins(actions, 0, v, call);
    more := Resumes(mid, 0, MediaOut(call, v, false), Some(""));
    assert Plain(Invite, call, v).(video := false) == Plain(Invite, call, v);
  }

  /** Tab 0 places a call and tab 1 rings. */
  lemma Rings(actions: seq<Action>, u: User, v: User, call: CallId, pc: nat, nextB: nat, bc: seq<Cont>, friendships: Friends.Rows)
      returns (more: seq<Action>)
    requires u != "" && v != "" && call != "" && Friends.AreFriends(friendships, u, v) && call !in At(actions).placed
    requires Pair(At(actions), u, v, Ended(pc), [], Ended(nextB), bc)
    ensures Pair(At(more), u, v, Caller(call, v, pc, false), [], Ringing(call, u, nextB), bc)
    ensures At(more).accepted == At(actions).accepted
    ensures At(more).placed == At(actions).placed[call := Call(0, u, v, false)]
  {
    var mid := Calls(actions, u, v, call, pc, Ended(nextB), bc);
    more := Passes(mid, 0, 1, Plain(Invite, call, v), friendships);
  }

  lemma Takes(actions: seq<Action>, u: User, v: User, call: CallId, a: Session) returns (more: seq<Action>)
    requires u != "" && call != "" && Pair(At(actions), u, v, a, [], Ringing(call, u, 0), [])
    ensures Pair(At(more), u, v, a, [], Callee(call, u, false), []) && Up(1, Plain(VoiceCall.Accept, call, u)) in At(more).wire
    ensures At(more).accepted == At(actions).accepted + {(call, 1)} && At(more).placed == At(actions).placed
  {
    var mid := Accepts(actions, 1, call, u);
    more := Resumes(mid, 1, MediaIn(call, u), Some(""));
  }

  lemma SendsOffer(actions: seq<Action>, u: User, v: User, call: CallId, b: Session) returns (more: seq<Action>)
    requires Pair(At(actions), u, v, Caller(call, v, 0, false), [CreatingOffer(0)], b, [])
    ensures Pair(At(more), u, v, Caller(call, v, 0, true), [], b, []) && Up(0, Plain(Offer, call, v).(sdp := "x")) in At(more).wire
    ensures At(more).accepted == At(actions).accepted && At(more).placed == At(actions).placed
  {
    var mid := Resumes(actions, 0, CreatingOffer(0), Some("x"));
    more := Resumes(mid, 0, SettingOffer(0, "x"), Some(""));
  }

  /** Tab 1 accepts, and tab 0 makes its offer. */
  lemma Offers(actions: seq<Action>, u: User, v: User, call: CallId, friendships: Friends.Rows) returns (more: seq<Action>)
    requires u != "" && v != "" && call != "" && Friends.AreFriends(friendships, v, u)
    requires Pair(At(actions), u, v, Caller(call, v, 0, false), [], Ringing(call, u, 0), [])
    ensures Pair(At(more), u, v, Caller(call, v, 0, true), [], Callee(call, u, false), [])
    ensures Up(0, Plain(Offer, call, v).(sdp := "x")) in At(more).wire
    ensures At(more).accepted == At(actions).accepted + {(call, 1)} && At(more).placed == At(actions).placed
  {
    var m1 := Takes(actions, u, v, call, Caller(call, v, 0, false));
    var m2 := Passes(m1, 1, 0, Plain(VoiceCall.Accept, call, u), friendships);
    more := SendsOffer(m2, u, v, call, Callee(call, u, false));
  }

  lemma TakesOffer(actions: seq<Action>, u: User, v: User, call: CallId, a: Session) returns (more: seq<Action>)
    requires Pair(At(actions), u, v, a, [], Callee(call, u, false), [SettingRemote(0, true)])
    ensures Pair(At(more), u, v, a, [], Callee(call, u, true), [SettingAnswer(0, "x")])
    ensures At(more).accepted == At(actions).accepted && At(more).placed == At(actions).placed
  {
    var mid := Resumes(actions, 1, SettingRemote(0, true), Some(""));
    assert Pair(At(mid), u, v, a, [], Callee(call, u, true), [CreatingAnswer(0)]);
    more := Resumes(mid, 1, CreatingAnswer(0), Some("x"));
  }

  /** Tab 1 takes the offer and starts to set its answer; both hang up before that is done. */
  lemma Abandons(actions: seq<Action>, u: User, v: User, call: CallId, friendships: Friends.Rows) returns (more: seq<Action>)
    requires u != "" && v != "" && call != "" && Friends.AreFriends(friendships, u, v)
    requires Pair(At(actions), u, v, Caller(call, v, 0, true), [], Callee(call, u, false), [])
    requires Up(0, Plain(Offer, call, v).(sdp := "x")) in At(actions).wire
    ensures Pair(At(more), u, v, Ended(1), [], Ended(1), [SettingAnswer(0, "x")])
    ensures At(more).accepted == At(actions).accepted && At(more).placed == At(actions).placed
  {
    var m1 := Passes(actions, 0, 1, Plain(Offer, call, v).(sdp := "x"), friendships);
    var m2 := TakesOffer(m1, u, v, call, Caller(call, v, 0, true));
    var m3 := Ends(m2, 1);
    more := Ends(m3, 0);
  }

  /** The old answer is sent for the new call, and the placing tab takes it. */
  lemma Misleads(actions: seq<Action>, u: User, v: User, call: CallId, friendships: Friends.Rows) returns (more: seq<Action>)
    requires u != "" && v != "" && call != "" && Friends.AreFriends(friendships, v, u)
    requires Pair(At(actions), u, v, Caller(call, v, 1, false), [], Ringing(call, u, 1), [SettingAnswer(0, "x")])
    ensures |At(more).nodes| == 2 && At(more).nodes[0].s.callId == Some(call) && Remote(At(more).nodes[0].s)
    ensures At(more).accepted == At(actions).accepted && At(more).placed == At(actions).placed
  {
    var m1 := Resumes(actions, 1, SettingAnswer(0, "x"), Some(""));
    var m2 := Passes(m1, 1, 0, Plain(Answer, call, u).(sdp := "x"), friendships);
    more := Resumes(m2, 0, SettingRemote(1, false), Some(""));
  }

  /**
    The exception is needed: for any two friends there is a run in which the tab that placed a call has a
    remote description although no tab at all accepted that call.
  */
  lemma StaleAnswerBreaksConsent(u: User, v: User, first: CallId, call: CallId, friendships: Friends.Rows)
    requires u != "" && v != "" && first != "" && call != "" && first != call && Friends.AreFriends(friendships, u, v)
    ensures exists actions ::
              var w := Run(actions, Interleaved);
              && |w.nodes| == 2 && w.nodes[0].s.callId == Some(call) && Remote(w.nodes[0].s)
              && call in w.placed && w.placed[call].tab == 0
              && forall j: nat :: (call, j) !in w.accepted
  {
    Friends.FriendshipIsSymmetric(friendships, u, v);
    var m1 := TwoTabs(u, v);
    assert FRESH == Ended(0);
    var m2 := Rings(m1, u, v, first, 0, 0, [], friendships);
    var m3 := Offers(m2, u, v, first, friendships);
    var m4 := Abandons(m3, u, v, first, friendships);
    var m5 := Rings(m4, u, v, call, 1, 1, [SettingAnswer(0, "x")], friendships);
    var m6 := Misleads(m5, u, v, call, friendships);
    assert Run(m6, Interleaved).accepted == {(first, 1)};
  }
}
