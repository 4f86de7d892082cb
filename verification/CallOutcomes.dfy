/** How a call ends or fails to come about: for every way out of it, which tabs are free afterwards. */
module CallOutcomes {
  import opened Common
  import opened VoiceCall
  import opened CallWorld
  import opened CallRuns
  import CallSafety
  import Friends

  /** Nothing of any call is left in the tab; only connections go on being numbered. */
  predicate Free(s: Session) {
    s.phase.Idle? && s.callId.None? && s.peerId.None? && s.pc.None? && !s.stream && s.pendingIce == [] && !s.video
  }

  // ---------- one tab ----------

  /** Declining works for the call that rings and for no other. */
  lemma DeclineOutcome(s: Session, call: CallId, from: User)
    ensures var x := RejectIncoming(s, call, from);
            && x.next.None?
            && if s.phase.Incoming? && s.callId == Some(call) then Free(x.s) && x.sent == [Plain(Reject, call, from)]
               else x.s == s && x.sent == []
  {
  }

  /** Hanging up frees the tab from any phase, and tells the peer in the terms of the phase. */
  lemma EndOutcome(s: Session)
    ensures var x := EndCall(s);
            && x.next.None?
            && if s.phase.Idle? then x.s == s && x.sent == []
               else
                 && Free(x.s)
                 && x.sent == if !Truthy(s.callId) || !Truthy(s.peerId) then []
                              else if s.phase.Incoming? then [Plain(Reject, s.callId.value, s.peerId.value)]
                              else [Plain(End, s.callId.value, s.peerId.value)]
  {
  }

  /** A refused camera or microphone: the placing tab just gives up, the accepting one declines. */
  lemma RefusedMedia(s: Session, peer: User, video: bool, call: CallId, env: Env)
    requires !env.media
    ensures s.phase.Idle? ==>
              var x := Settle(BeginStart(s, peer, video, call), env); Free(x.s) && x.sent == []
    ensures s.phase.Incoming? && s.callId == Some(call) ==>
              var x := Settle(BeginAccept(s, call, peer), env); Free(x.s) && x.sent == [Plain(Reject, call, peer)]
  {
    var x, y := BeginStart(s, peer, video, call), BeginAccept(s, call, peer);
    if x.next.Some? {
      SettleWait(x, Resume(x.s, x.next.value, None), env);
    }
    if y.next.Some? {
      SettleWait(y, Resume(y.s, y.next.value, None), env);
    }
  }

  /** A busy tab places no call, and a tab accepts only the call it rings for. */
  lemma BusyTabStays(s: Session, peer: User, video: bool, call: CallId, env: Env)
    ensures !s.phase.Idle? ==> Settle(BeginStart(s, peer, video, call), env) == Stay(s)
    ensures !s.phase.Incoming? || s.callId != Some(call) ==> Settle(BeginAccept(s, call, peer), env) == Stay(s)
  {
    SettleNone(Stay(s), env);
  }

  /** Whatever promise of a method rejects, the tab is free, and only an acceptance still has to tell the caller. */
  lemma RejectionFrees(s: Session, k: Cont)
    requires !k.Flushing? && !k.AddingIce?
    ensures var y := Resume(s, k, None);
            Free(y.s) && y.next.None? && y.sent == if k.MediaIn? then [Plain(Reject, k.call, k.peer)] else []
  {
  }

  /** A method that finds its connection gone when it is about to describe it gives up and says nothing. */
  lemma LostConnectionGivesUp(s: Session, k: Cont, outcome: Option<string>)
    requires s.pc.None?
    requires k.CreatingOffer? || k.CreatingAnswer? || ((k.SettingRemote? || k.Flushing?) && k.answering)
    ensures Free(Resume(s, k, outcome).s) && Resume(s, k, outcome).sent == [] && Resume(s, k, outcome).next.None?
  {
  }

  /** A candidate that the browser rejects is passed over. */
  lemma RejectedCandidateIsPassedOver(s: Session, k: Cont)
    requires k.Flushing? || k.AddingIce?
    ensures Resume(s, k, None) == Resume(s, k, Some(""))
  {
  }

  /** An error from the server frees the tab. */
  lemma ServerErrorFrees(s: Session, env: Env)
    ensures var x := Settle(BeginSignal(s, ServerError), env);
            x.sent == [] && if s.phase.Idle? then x.s == s else Free(x.s)
  {
    SettleNone(BeginSignal(s, ServerError), env);
  }

  /** So does a failed connection, and a connected one makes the call active. */
  lemma ConnectionOutcome(s: Session)
    ensures s.pc.None? ==> ConnectionChange(s, false) == s && ConnectionChange(s, true) == s
    ensures s.pc.Some? ==> Free(ConnectionChange(s, false))
    ensures s.pc.Some? && !s.phase.Idle? ==> ConnectionChange(s, true) == s.(phase := Active)
  {
  }

  /** The messages that mean something to a tab: an invitation to an idle one, anything else of its own call from its peer. */
  predicate Concerns(s: Session, from: User, raw: Raw) {
    && from != "" && raw.call != ""
    && if raw.kind.Invite? then s.phase.Idle? else s.callId == Some(raw.call) && s.peerId == Some(from)
  }

  /** Whether the tab is in a state for a message of the negotiation. */
  predicate Expects(s: Session, raw: Raw) {
    && (raw.kind.Accept? ==> s.phase.Outgoing? && s.pc.Some?)
    && (raw.kind.Offer? ==> s.phase.Connecting? && s.pc.Some? && raw.sdp != "")
    && (raw.kind.Answer? ==> (s.phase.Outgoing? || s.phase.Connecting?) && s.pc.Some? && raw.sdp != "")
    && (raw.kind.Ice? ==> raw.cand.Some? && s.pc.Some?)
    && !raw.kind.Unknown?
  }

  /** A message that is expected is taken: an invitation rings, a step of the negotiation starts the next one. */
  lemma ExpectedIsTaken(s: Session, from: User, raw: Raw)
    requires Concerns(s, from, raw) && Expects(s, raw)
    ensures var x := BeginSignal(s, Relayed(from, raw));
            && x.sent == []
            && (raw.kind.Invite? ==>
                  x.next.None? && x.s == s.(video := raw.video, phase := Incoming, callId := Some(raw.call), peerId := Some(from)))
            && (raw.kind.Accept? ==> x.s == s && x.next == Some(CreatingOffer(s.pc.value.id)))
            && (raw.kind.Offer? ==> x.s == s && x.next == Some(SettingRemote(s.pc.value.id, true)))
            && (raw.kind.Answer? ==> x.s == s && x.next == Some(SettingRemote(s.pc.value.id, false)))
  {
  }

  /** Messages of strangers, of other calls, out of turn or incomplete leave a tab as it is. */
  lemma UnexpectedIsIgnored(s: Session, from: User, raw: Raw, env: Env)
    requires !Concerns(s, from, raw) || !Expects(s, raw)
    ensures Settle(BeginSignal(s, Relayed(from, raw)), env) == Stay(s)
  {
    SettleNone(Stay(s), env);
  }

  /** The peer's rejection or end of the call frees the tab in every phase, without an answer. */
  lemma PeerEndsCall(s: Session, from: User, raw: Raw, env: Env)
    requires Concerns(s, from, raw) && (raw.kind.Reject? || raw.kind.End?)
    ensures var x := Settle(BeginSignal(s, Relayed(from, raw)), env); Free(x.s) && x.sent == []
  {
    SettleNone(BeginSignal(s, Relayed(from, raw)), env);
  }

  // ---------- both tabs ----------

  /** The steps that bring a message of tab j to tab i. */
  function Bringing(i: nat, j: nat, from: User, m: Raw, friendships: Friends.Rows, env: Env): seq<Action> {
    [Forward(Up(j, m), friendships), Deliver(Down(i, Relayed(from, m)), env)]
  }

  /** Tabs i and j are free, and no other tab has moved. */
  ghost predicate Freed(w: World, v: World, i: nat, j: nat) {
    && SameUsers(w, v) && i < |w.nodes| && j < |w.nodes| && Free(v.nodes[i].s) && Free(v.nodes[j].s)
    && forall k | 0 <= k < |w.nodes| && k != i && k != j :: v.nodes[k].s == w.nodes[k].s
  }

  /** Two tabs of friends hold a call that one of them placed. */
  ghost predicate Share(w: World, i: nat, j: nat, call: CallId, friendships: Friends.Rows) {
    && i < |w.nodes| && j < |w.nodes| && i != j && call in w.placed && call != ""
    && w.nodes[i].user != "" && w.nodes[j].user != "" && Friends.AreFriends(friendships, w.nodes[i].user, w.nodes[j].user)
    && w.nodes[i].s.callId == Some(call) && w.nodes[j].s.callId == Some(call)
    && (w.placed[call].tab == i || w.placed[call].tab == j)
  }

  /** Tab j has left the call, and its parting message is on its way to tab i. */
  ghost predicate Parted(actions: seq<Action>, i: nat, j: nat, call: CallId, m: Raw) {
    var w := At(actions);
    && i < |w.nodes| && j < |w.nodes| && i != j && Up(j, m) in w.wire && Free(w.nodes[j].s)
    && (m.kind.Reject? || m.kind.End?) && m.call == call && m.to == w.nodes[i].user
    && w.nodes[i].s.callId == Some(call) && w.nodes[i].s.peerId == Some(w.nodes[j].user)
  }

  lemma PartingFrees(actions: seq<Action>, i: nat, j: nat, call: CallId, m: Raw, friendships: Friends.Rows, env: Env)
    requires Parted(actions, i, j, call, m) && call != ""
    requires At(actions).nodes[i].user != "" && At(actions).nodes[j].user != ""
    requires Friends.AreFriends(friendships, At(actions).nodes[j].user, At(actions).nodes[i].user)
    ensures Freed(At(actions), At(actions + Bringing(i, j, At(actions).nodes[j].user, m, friendships, env)), i, j)
  {
    var u := At(actions).nodes[j].user;
    var mid := actions + [Forward(Up(j, m), friendships)];
    ForwardRelays(actions, j, m, friendships);
    DeliverHeard(mid, i, Relayed(u, m), env);
    PeerEndsCall(Tab(mid, i), u, m, env);
    assert mid + [Deliver(Down(i, Relayed(u, m)), env)] == actions + Bringing(i, j, u, m, friendships, env);
  }

  /** Who shares a call has the other as its peer. */
  lemma PeersOfShared(actions: seq<Action>, i: nat, j: nat, call: CallId, friendships: Friends.Rows)
    requires Share(At(actions), i, j, call, friendships)
    ensures var u, v := At(actions).nodes[i].user, At(actions).nodes[j].user;
            && Tab(actions, i).peerId == Some(v) && Tab(actions, j).peerId == Some(u) && Friends.AreFriends(friendships, v, u)
            && !Tab(actions, j).phase.Idle?
  {
    CallAgreement(actions, Atomic, i, j);
    CallAgreement(actions, Atomic, j, i);
    Friends.FriendshipIsSymmetric(friendships, At(actions).nodes[i].user, At(actions).nodes[j].user);
  }

  /** If the step by which tab j leaves has sent m and moved no other tab, its way to tab i ends the call. */
  lemma LeavingFrees(actions: seq<Action>, a: Action, i: nat, j: nat, call: CallId, x: Susp, m: Raw,
                     friendships: Friends.Rows, env: Env)
    requires Share(At(actions), i, j, call, friendships)
    requires Went(At(actions), At(actions + [a]), j, x) && Free(x.s) && x.sent == [m]
    requires (m.kind.Reject? || m.kind.End?) && m.call == call && m.to == At(actions).nodes[i].user
    ensures Freed(At(actions), At(actions + [a] + Bringing(i, j, At(actions).nodes[j].user, m, friendships, env)), i, j)
  {
    PeersOfShared(actions, i, j, call, friendships);
    assert m in x.sent;
    PartingFrees(actions + [a], i, j, call, m, friendships, env);
  }

  /**
    Declining, from every reachable world in which tab j rings for a call that tab i placed and still holds:
    after the button, the relay and the delivery both tabs are free, and no other tab has moved.
  */
  lemma DecliningFreesBoth(actions: seq<Action>, i: nat, j: nat, call: CallId, friendships: Friends.Rows, env: Env)
    requires Share(At(actions), i, j, call, friendships) && Tab(actions, j).phase.Incoming?
    ensures var u, v := At(actions).nodes[i].user, At(actions).nodes[j].user;
            Freed(At(actions),
                  At(actions + [PressDecline(j)] + Bringing(i, j, v, Plain(Reject, call, u), friendships, env)), i, j)
  {
    var u, x := At(actions).nodes[i].user, RejectIncoming(Tab(actions, j), call, At(actions).nodes[i].user);
    PeersOfShared(actions, i, j, call, friendships);
    RunPlus(actions, PressDecline(j), Atomic);
    PutWent(At(actions), j, x);
    LeavingFrees(actions, PressDecline(j), i, j, call, x, Plain(Reject, call, u), friendships, env);
  }

  /** What a tab sends when it hangs up. */
  function Parting(s: Session, call: CallId, peer: User): Raw {
    Plain(if s.phase.Incoming? then Reject else End, call, peer)
  }

  /** Hanging up likewise, on either side and in whatever phase. */
  lemma HangingUpFreesBoth(actions: seq<Action>, i: nat, j: nat, call: CallId, friendships: Friends.Rows, env: Env)
    requires Share(At(actions), i, j, call, friendships)
    ensures var u, v := At(actions).nodes[i].user, At(actions).nodes[j].user;
            Freed(At(actions),
                  At(actions + [PressEnd(j)] + Bringing(i, j, v, Parting(Tab(actions, j), call, u), friendships, env)), i, j)
  {
    var u, x := At(actions).nodes[i].user, EndCall(Tab(actions, j));
    PeersOfShared(actions, i, j, call, friendships);
    EndOutcome(Tab(actions, j));
    RunPlus(actions, PressEnd(j), Atomic);
    PutWent(At(actions), j, x);
    LeavingFrees(actions, PressEnd(j), i, j, call, x, Parting(Tab(actions, j), call, u), friendships, env);
  }

  lemma RefusedAccept(actions: seq<Action>, j: nat, call: CallId, u: User, refused: Env) returns (x: Susp)
    requires j < |At(actions).nodes| && call != "" && u != "" && !refused.media
    requires Tab(actions, j).phase.Incoming? && Tab(actions, j).callId == Some(call) && Tab(actions, j).peerId == Some(u)
    ensures Went(At(actions), At(actions + [PressAccept(j, refused)]), j, x)
    ensures Free(x.s) && x.sent == [Plain(Reject, call, u)]
  {
    var w := At(actions);
    x := Settle(BeginAccept(Tab(actions, j), call, u), refused);
    RefusedMedia(Tab(actions, j), u, false, call, refused);
    RunPlus(actions, PressAccept(j, refused), Atomic);
    PutWent(w.(accepted := w.accepted + {(call, j)}), j, x);
  }

  /** And a callee that accepts but is refused its microphone. */
  lemma RefusedMicrophoneFreesBoth(actions: seq<Action>, i: nat, j: nat, call: CallId, friendships: Friends.Rows,
                                   refused: Env, env: Env)
    requires Share(At(actions), i, j, call, friendships) && Tab(actions, j).phase.Incoming? && !refused.media
    ensures var u, v := At(actions).nodes[i].user, At(actions).nodes[j].user;
            Freed(At(actions),
                  At(actions + [PressAccept(j, refused)] + Bringing(i, j, v, Plain(Reject, call, u), friendships, env)), i, j)
  {
    var u := At(actions).nodes[i].user;
    PeersOfShared(actions, i, j, call, friendships);
    var x := RefusedAccept(actions, j, call, u, refused);
    LeavingFrees(actions, PressAccept(j, refused), i, j, call, x, Plain(Reject, call, u), friendships, env);
  }

  /** A failed connection, or one the browser closed, frees the tab that holds it, in every reachable world. */
  lemma FailureFrees(actions: seq<Action>, i: nat)
    requires i < |At(actions).nodes| && Tab(actions, i).pc.Some?
    ensures Freed(At(actions), At(actions + [Connection(i, false)]), i, i)
  {
    RunPlus(actions, Connection(i, false), Atomic);
    PutWent(At(actions), i, Stay(ConnectionChange(Tab(actions, i), false)));
  }

  /** A tab that an error of the server reaches is free, in every reachable world. */
  lemma ErrorReaches(actions: seq<Action>, i: nat, env: Env)
    requires i < |At(actions).nodes| && Down(i, ServerError) in At(actions).wire
    ensures Freed(At(actions), At(actions + [Deliver(Down(i, ServerError), env)]), i, i)
  {
    DeliverHeard(actions, i, ServerError, env);
    ServerErrorFrees(Tab(actions, i), env);
    CallSafety.RunSafe(actions);
    CallSafety.TabOf(At(actions), i);
  }

  /** A message that the server refuses comes back as an error, which frees the tab that sent it. */
  lemma RefusalFreesSender(actions: seq<Action>, i: nat, m: Raw, friendships: Friends.Rows, env: Env)
    requires i < |At(actions).nodes| && Up(i, m) in At(actions).wire
    requires Relay(friendships, At(actions).nodes[i].user, m).None?
    ensures Freed(At(actions), At(actions + [Forward(Up(i, m), friendships), Deliver(Down(i, ServerError), env)]), i, i)
  {
    var mid := actions + [Forward(Up(i, m), friendships)];
    RunPlus(actions, Forward(Up(i, m), friendships), Atomic);
    assert At(mid).nodes == At(actions).nodes && Down(i, ServerError) in At(mid).wire;
    ErrorReaches(mid, i, env);
    assert mid + [Deliver(Down(i, ServerError), env)]
        == actions + [Forward(Up(i, m), friendships), Deliver(Down(i, ServerError), env)];
  }
}
