/** The stages of a call that goes well, each as what one tab makes of one message. */
module CallHandshake {
  import opened Common
  import opened VoiceCall
  import opened CallWorld
  import Friends

  /** A browser that grants and succeeds in everything. */
  predicate Willing(env: Env) {
    env.media && env.create.Some? && env.create.value != "" && env.local && env.remote
  }

  /** A tab handles a message of a user as the server relays it; a refused message leaves it alone. */
  function Hear(friendships: Friends.Rows, s: Session, from: User, raw: Raw, env: Env): Susp {
    match Relay(friendships, from, raw)
    case None => Stay(s)
    case Some(sig) => Settle(BeginSignal(s, sig), env)
  }

  /** Candidates of a call, one message each. */
  function HearIce(friendships: Friends.Rows, s: Session, from: User, to: User, call: CallId, cs: seq<Candidate>, env: Env): Session {
    if cs == [] then s
    else
      var t := HearIce(friendships, s, from, to, call, cs[..|cs| - 1], env);
      Hear(friendships, t, from, Raw(Ice, call, to, false, "", Some(cs[|cs| - 1])), env).s
  }

  lemma Placing(s: Session, peer: User, video: bool, call: CallId, env: Env)
    requires s.phase.Idle? && Willing(env)
    ensures Settle(BeginStart(s, peer, video, call), env)
         == Susp(NewPc(s.(phase := Outgoing, callId := Some(call), peerId := Some(peer), video := video), call, peer),
                 [Plain(Invite, call, peer).(video := video)], None)
  {
    var x := BeginStart(s, peer, video, call);
    var y := Resume(x.s, x.next.value, Some(""));
    SettleWait(x, y, env);
    SettleNone(y, env);
  }

  lemma Ringing(friendships: Friends.Rows, s: Session, from: User, to: User, video: bool, call: CallId, env: Env)
    requires s.phase.Idle? && from != "" && to != "" && call != "" && Friends.AreFriends(friendships, from, to)
    ensures Hear(friendships, s, from, Plain(Invite, call, to).(video := video), env)
         == Stay(s.(video := video, phase := Incoming, callId := Some(call), peerId := Some(from)))
  {
    SettleNone(Stay(s.(video := video, phase := Incoming, callId := Some(call), peerId := Some(from))), env);
  }

  lemma Accepting(s: Session, from: User, call: CallId, env: Env)
    requires s.phase.Incoming? && s.callId == Some(call) && Willing(env)
    ensures Settle(BeginAccept(s, call, from), env)
         == Susp(NewPc(s.(phase := Connecting, peerId := Some(from)), call, from), [Plain(Accept, call, from)], None)
  {
    var x := BeginAccept(s, call, from);
    var y := Resume(x.s, x.next.value, Some(""));
    SettleWait(x, y, env);
    SettleNone(y, env);
  }

  /** The placing tab hears the acceptance, sets its description and offers it. */
  lemma Offering(friendships: Friends.Rows, s: Session, me: User, peer: User, call: CallId, env: Env)
    requires s.phase.Outgoing? && s.callId == Some(call) && s.peerId == Some(peer) && s.pc.Some? && Willing(env)
    requires me != "" && peer != "" && call != "" && Friends.AreFriends(friendships, peer, me)
    ensures Hear(friendships, s, peer, Plain(Accept, call, me), env)
         == Susp(MarkLocal(s, s.pc.value.id), [Plain(Offer, call, peer).(sdp := env.create.value)], None)
  {
    SettleDescription(s, false, env);
  }

  /** Early candidates wait in the queue, in order. */
  lemma {:induction false} Queueing(friendships: Friends.Rows, s: Session, me: User, peer: User, call: CallId, cs: seq<Candidate>, env: Env)
    requires s.callId == Some(call) && s.peerId == Some(peer) && s.pc.Some? && !s.pc.value.hasRemote
    requires me != "" && peer != "" && call != "" && Friends.AreFriends(friendships, peer, me)
    ensures HearIce(friendships, s, peer, me, call, cs, env)
         == s.(pendingIce := s.pendingIce + cs, pc := Some(s.pc.value.(seen := s.pc.value.seen + cs)))
  {
    if cs == [] {
      assert s.pendingIce + cs == s.pendingIce && s.pc.value.seen + cs == s.pc.value.seen;
    } else {
      var most, c := cs[..|cs| - 1], cs[|cs| - 1];
      Queueing(friendships, s, me, peer, call, most, env);
      var t := HearIce(friendships, s, peer, me, call, most, env);
      SettleNone(AddIce(t, c), env);
      assert s.pendingIce + most + [c] == s.pendingIce + cs && s.pc.value.seen + most + [c] == s.pc.value.seen + cs;
    }
  }

  /** The tab that holds both descriptions and has given what waited. */
  function Flushed(s: Session): Session
    requires s.pc.Some?
  {
    var pc := s.pc.value;
    s.(pendingIce := [], pc := Some(pc.(hasRemote := true, given := pc.given + s.pendingIce)))
  }

  lemma TakingRemote(s: Session, answering: bool, env: Env)
    requires s.pc.Some? && Willing(env)
    ensures Settle(Susp(s, [], Some(SettingRemote(s.pc.value.id, answering))), env)
         == Settle(AfterFlush(Flushed(s), answering), env)
  {
    var x := Susp(s, [], Some(SettingRemote(s.pc.value.id, answering)));
    var m := MarkRemote(s, s.pc.value.id);
    SettleWait(x, Flush(m, answering), env);
    SettleFlush(m.(pendingIce := []), m.pendingIce, answering, env);
  }

  /** The accepting tab hears the offer, gives the waiting candidates and answers. */
  lemma Answering(friendships: Friends.Rows, s: Session, me: User, peer: User, call: CallId, sdp: string, env: Env)
    requires s.phase.Connecting? && s.callId == Some(call) && s.peerId == Some(peer) && s.pc.Some? && Willing(env)
    requires me != "" && peer != "" && call != "" && sdp != "" && Friends.AreFriends(friendships, peer, me)
    ensures Hear(friendships, s, peer, Plain(Offer, call, me).(sdp := sdp), env)
         == Susp(MarkLocal(Flushed(s), s.pc.value.id), [Plain(Answer, call, peer).(sdp := env.create.value)], None)
  {
    TakingRemote(s, true, env);
    SettleDescription(Flushed(s), true, env);
  }

  /** The placing tab hears the answer. */
  lemma Completing(friendships: Friends.Rows, s: Session, me: User, peer: User, call: CallId, sdp: string, env: Env)
    requires s.phase.Outgoing? && s.callId == Some(call) && s.peerId == Some(peer) && s.pc.Some? && Willing(env)
    requires me != "" && peer != "" && call != "" && sdp != "" && Friends.AreFriends(friendships, peer, me)
    ensures Hear(friendships, s, peer, Plain(Answer, call, me).(sdp := sdp), env) == Stay(Flushed(s))
  {
    TakingRemote(s, false, env);
    SettleNone(Stay(Flushed(s)), env);
  }

  /** In a call with both descriptions, and ready to be connected by the browser. */
  predicate InCall(s: Session, peer: User, video: bool, call: CallId) {
    s.callId == Some(call) && s.peerId == Some(peer) && s.video == video && BothDescriptions(s)
    && ConnectionChange(s, true) == s.(phase := Active)
  }

  /** Hanging up on either side of a call, active or not, frees both tabs. */
  lemma HangUpFreesBoth(friendships: Friends.Rows, a: Session, b: Session, u: User, v: User, call: CallId, env: Env)
    requires Friends.AreFriends(friendships, u, v) && u != "" && v != "" && call != ""
    requires a.callId == Some(call) && a.peerId == Some(v) && !a.phase.Idle?
    requires b.callId == Some(call) && b.peerId == Some(u)
    ensures EndCall(a).s == Cleanup(a) && |EndCall(a).sent| == 1
    ensures Hear(friendships, b, u, EndCall(a).sent[0], env) == Stay(Cleanup(b))
  {
    SettleNone(Stay(Cleanup(b)), env);
  }
}
