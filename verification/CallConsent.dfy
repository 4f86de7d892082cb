/** Consent when other steps get in at the awaits: what keeps it, and the one kind of step that can break it. */
module CallConsent {
  import opened Common
  import opened VoiceCall
  import opened CallWorld
  import Friends

  /** Which users accepted which calls. */
  function Agreed(w: World): set<(CallId, User)> {
    set p | p in w.accepted && p.1 < |w.nodes| :: (p.0, w.nodes[p.1].user)
  }

  /** If this tab placed the call, the invited user accepted it. */
  predicate Endorsed(placed: map<CallId, Call>, agreed: set<(CallId, User)>, i: nat, c: Option<CallId>) {
    c.Some? && c.value in placed && placed[c.value].tab == i ==> (c.value, placed[c.value].callee) in agreed
  }

  /**
    A method that awaited the setting of its local answer goes on in a tab whose call is by now one that this
    tab has not accepted, and sends the answer for that call.
  */
  predicate StaleAnswer(w: World, a: Action) {
    && a.Settled? && a.outcome.Some? && a.i < |w.nodes| && a.k < |w.nodes[a.i].conts|
    && w.nodes[a.i].conts[a.k].SettingAnswer?
    && Truthy(w.nodes[a.i].s.callId) && (w.nodes[a.i].s.callId.value, a.i) !in w.accepted
  }

  // ---------- one tab ----------

  predicate Remote(s: Session) {
    s.pc.Some? && s.pc.value.hasRemote
  }

  predicate SessInv(placed: map<CallId, Call>, agreed: set<(CallId, User)>, i: nat, s: Session) {
    && (s.pc.Some? ==> s.pc.value.id < s.nextPc)
    && ((s.phase.Incoming? || s.phase.Connecting?) && s.callId.Some? && s.callId.value in placed ==>
          placed[s.callId.value].tab != i)
    && (Remote(s) ==> !s.phase.Idle?)
    && (Remote(s) || s.phase.Active? ==> Endorsed(placed, agreed, i, s.callId))
  }

  /** An answer or offer being taken was for the call that the tab still holds, if it holds that connection. */
  predicate ContInv(placed: map<CallId, Call>, agreed: set<(CallId, User)>, i: nat, s: Session, k: Cont) {
    k.SettingRemote? ==>
      && k.pc < s.nextPc
      && (s.pc.Some? && s.pc.value.id == k.pc ==> !s.phase.Idle? && Endorsed(placed, agreed, i, s.callId))
  }

  /** A connection that was there before is there with the same call, unless the tab was idle. */
  predicate Evolves(s: Session, t: Session) {
    && s.nextPc <= t.nextPc
    && (t.pc.Some? && t.pc.value.id < s.nextPc ==>
          && s.pc.Some? && s.pc.value.id == t.pc.value.id
          && (s.phase.Idle? || (t.callId == s.callId && !t.phase.Idle?)))
  }

  predicate NextInv(placed: map<CallId, Call>, agreed: set<(CallId, User)>, i: nat, x: Susp) {
    x.next.Some? ==> ContInv(placed, agreed, i, x.s, x.next.value)
  }

  predicate NoAnswer(sent: seq<Raw>) {
    forall r | r in sent :: !r.kind.Answer?
  }

  lemma BeginSignalInv(placed: map<CallId, Call>, agreed: set<(CallId, User)>, i: nat, user: User, s: Session, sig: Signal)
    requires SessInv(placed, agreed, i, s) && SessionOk(placed, i, user, s) && SignalOk(placed, user, sig)
    requires sig.Relayed? && sig.raw.kind.Invite? ==> placed[sig.raw.call].tab != i
    requires sig.Relayed? && sig.raw.kind.Answer? ==> (sig.raw.call, sig.from) in agreed
    ensures var x := BeginSignal(s, sig);
            SessInv(placed, agreed, i, x.s) && NextInv(placed, agreed, i, x) && Evolves(s, x.s) && x.sent == []
  {
    if sig.Relayed? && (sig.raw.kind.Offer? || sig.raw.kind.Answer?) {
      DescriptionInv(placed, agreed, i, user, s, sig);
    } else if !(sig.Relayed? && sig.raw.kind.Invite?) {
      SignalTame(s, sig);
      TameInv(placed, agreed, i, s, BeginSignal(s, sig).s);
    }
  }

  /** A description that is taken is for the tab's call, and an answer comes from the user who was called. */
  lemma DescriptionInv(placed: map<CallId, Call>, agreed: set<(CallId, User)>, i: nat, user: User, s: Session, sig: Signal)
    requires SessInv(placed, agreed, i, s) && SessionOk(placed, i, user, s)
    requires sig.Relayed? && (sig.raw.kind.Offer? || sig.raw.kind.Answer?)
    requires sig.raw.kind.Answer? ==> (sig.raw.call, sig.from) in agreed
    ensures var x := BeginSignal(s, sig); x.s == s && NextInv(placed, agreed, i, x) && x.sent == []
  {
  }

  lemma SignalTame(s: Session, sig: Signal)
    requires sig.Relayed? ==> !sig.raw.kind.Invite? && !sig.raw.kind.Offer? && !sig.raw.kind.Answer?
    ensures var x := BeginSignal(s, sig);
            (Tame(s, x.s) || x.s == s) && x.sent == [] && (x.next.Some? ==> !x.next.value.SettingRemote?)
  {
  }

  /** The parts of a method that leave the call and the remote description alone, or end the call. */
  predicate Tame(s: Session, t: Session) {
    t == Cleanup(s)
    || (t.phase == s.phase && t.callId == s.callId && t.nextPc == s.nextPc
        && (if s.pc.None? then t.pc.None? else t.pc.Some? && t.pc.value.id == s.pc.value.id
                                               && t.pc.value.hasRemote == s.pc.value.hasRemote))
  }

  lemma TameInv(placed: map<CallId, Call>, agreed: set<(CallId, User)>, i: nat, s: Session, t: Session)
    requires SessInv(placed, agreed, i, s) && Tame(s, t)
    ensures SessInv(placed, agreed, i, t) && Evolves(s, t)
  {
  }

  lemma ResumeTame(s: Session, k: Cont, outcome: Option<string>)
    requires !k.MediaOut? && !k.MediaIn? && !k.SettingRemote?
    ensures var x := Resume(s, k, outcome); Tame(s, x.s) && (x.next.Some? ==> !x.next.value.SettingRemote?)
  {
  }

  lemma RemoteTame(s: Session, k: Cont, outcome: Option<string>)
    requires k.SettingRemote?
    ensures var x := Resume(s, k, outcome);
            (Tame(s, x.s) || Tame(MarkRemote(s, k.pc), x.s)) && (x.next.Some? ==> !x.next.value.SettingRemote?)
  {
  }

  lemma MarkInv(placed: map<CallId, Call>, agreed: set<(CallId, User)>, i: nat, s: Session, k: Cont)
    requires SessInv(placed, agreed, i, s) && ContInv(placed, agreed, i, s, k) && k.SettingRemote?
    ensures SessInv(placed, agreed, i, MarkRemote(s, k.pc)) && Evolves(s, MarkRemote(s, k.pc))
    ensures forall t :: Evolves(MarkRemote(s, k.pc), t) ==> Evolves(s, t)
  {
  }

  lemma MediaInv(placed: map<CallId, Call>, agreed: set<(CallId, User)>, i: nat, s: Session, k: Cont, outcome: Option<string>)
    requires SessInv(placed, agreed, i, s) && (k.MediaOut? || k.MediaIn?)
    ensures var x := Resume(s, k, outcome); SessInv(placed, agreed, i, x.s) && x.next.None? && Evolves(s, x.s)
  {
  }

  lemma ResumeInv(placed: map<CallId, Call>, agreed: set<(CallId, User)>, i: nat, s: Session, k: Cont, outcome: Option<string>)
    requires SessInv(placed, agreed, i, s) && ContInv(placed, agreed, i, s, k)
    ensures var x := Resume(s, k, outcome);
            SessInv(placed, agreed, i, x.s) && NextInv(placed, agreed, i, x) && Evolves(s, x.s)
  {
    var x := Resume(s, k, outcome);
    if k.MediaOut? || k.MediaIn? {
      MediaInv(placed, agreed, i, s, k, outcome);
    } else if k.SettingRemote? {
      RemoteTame(s, k, outcome);
      MarkInv(placed, agreed, i, s, k);
      if Tame(s, x.s) {
        TameInv(placed, agreed, i, s, x.s);
      } else {
        TameInv(placed, agreed, i, MarkRemote(s, k.pc), x.s);
      }
    } else {
      ResumeTame(s, k, outcome);
      TameInv(placed, agreed, i, s, x.s);
    }
  }

  lemma ResumeAnswers(s: Session, k: Cont, outcome: Option<string>)
    ensures forall r | r in Resume(s, k, outcome).sent && r.kind.Answer? ::
              k.SettingAnswer? && outcome.Some? && r.call == OrEmpty(s.callId)
  {
  }

  lemma BeginStartInv(placed: map<CallId, Call>, agreed: set<(CallId, User)>, i: nat, s: Session, peer: User, video: bool, call: CallId)
    requires SessInv(placed, agreed, i, s) && s.phase.Idle?
    ensures var x := BeginStart(s, peer, video, call);
            SessInv(placed, agreed, i, x.s) && NextInv(placed, agreed, i, x) && Evolves(s, x.s) && x.sent == []
  {
  }

  lemma BeginAcceptInv(placed: map<CallId, Call>, agreed: set<(CallId, User)>, i: nat, s: Session, call: CallId, from: User)
    requires SessInv(placed, agreed, i, s)
    ensures var x := BeginAccept(s, call, from);
            SessInv(placed, agreed, i, x.s) && NextInv(placed, agreed, i, x) && Evolves(s, x.s) && x.sent == []
  {
  }

  lemma ButtonsInv(placed: map<CallId, Call>, agreed: set<(CallId, User)>, i: nat, s: Session, call: CallId, from: User)
    requires SessInv(placed, agreed, i, s)
    ensures var x := RejectIncoming(s, call, from);
            SessInv(placed, agreed, i, x.s) && x.next.None? && Evolves(s, x.s) && NoAnswer(x.sent)
    ensures var x := EndCall(s);
            SessInv(placed, agreed, i, x.s) && x.next.None? && Evolves(s, x.s) && NoAnswer(x.sent)
  {
  }

  lemma ConnectionInv(placed: map<CallId, Call>, agreed: set<(CallId, User)>, i: nat, s: Session, connected: bool)
    requires SessInv(placed, agreed, i, s) && (connected ==> BothDescriptions(s))
    ensures var t := ConnectionChange(s, connected); SessInv(placed, agreed, i, t) && Evolves(s, t)
  {
  }

  // ---------- the world ----------

  predicate PacketInv(w: World, p: Packet) {
    match p
    case Up(i, raw) =>
      i < |w.nodes| && (raw.kind.Answer? && raw.call != "" ==> (raw.call, w.nodes[i].user) in Agreed(w))
    case Down(_, sig) => sig.Relayed? && sig.raw.kind.Answer? ==> (sig.raw.call, sig.from) in Agreed(w)
  }

  predicate NodeInv(placed: map<CallId, Call>, agreed: set<(CallId, User)>, i: nat, n: Node) {
    SessInv(placed, agreed, i, n.s) && forall k | k in n.conts :: ContInv(placed, agreed, i, n.s, k)
  }

  ghost predicate NodesInv(w: World) {
    forall i | 0 <= i < |w.nodes| :: NodeInv(w.placed, Agreed(w), i, w.nodes[i])
  }

  ghost predicate WireInv(w: World) {
    forall p | p in w.wire :: PacketInv(w, p)
  }

  /** v has the history of w and more. */
  ghost predicate Grows(w: World, v: World) {
    && |w.nodes| <= |v.nodes| && Agreed(w) <= Agreed(v)
    && (forall i | 0 <= i < |w.nodes| :: v.nodes[i].user == w.nodes[i].user)
    && (forall c | c in w.placed :: c in v.placed && v.placed[c] == w.placed[c])
  }

  lemma HistoryGrows(w: World, v: World)
    requires |w.nodes| <= |v.nodes| && w.accepted <= v.accepted
    requires forall i | 0 <= i < |w.nodes| :: v.nodes[i].user == w.nodes[i].user
    requires forall c | c in w.placed :: c in v.placed && v.placed[c] == w.placed[c]
    ensures Grows(w, v)
  {
    forall x | x in Agreed(w) ensures x in Agreed(v) {
      var p :| p in w.accepted && p.1 < |w.nodes| && x == (p.0, w.nodes[p.1].user);
      assert p in v.accepted && v.nodes[p.1].user == w.nodes[p.1].user;
    }
  }

  lemma PacketGrows(w: World, v: World, p: Packet)
    requires Grows(w, v) && PacketInv(w, p)
    ensures PacketInv(v, p)
  {
  }

  /** A tab that does not move keeps its invariant while the history grows. */
  lemma NodeGrows(w: World, v: World, i: nat, n: Node)
    requires Grows(w, v) && NodeInv(w.placed, Agreed(w), i, n) && NodeOk(w.placed, i, n)
    ensures NodeInv(v.placed, Agreed(v), i, n)
  {
  }

  lemma ContStays(placed: map<CallId, Call>, agreed: set<(CallId, User)>, i: nat, s: Session, t: Session, k: Cont)
    requires ContInv(placed, agreed, i, s, k) && Evolves(s, t)
    ensures ContInv(placed, agreed, i, t, k)
  {
  }

  lemma PutNode(placed: map<CallId, Call>, agreed: set<(CallId, User)>, i: nat, n: Node, x: Susp)
    requires NodeInv(placed, agreed, i, n)
    requires SessInv(placed, agreed, i, x.s) && NextInv(placed, agreed, i, x) && Evolves(n.s, x.s)
    ensures NodeInv(placed, agreed, i, Node(n.user, x.s, n.conts + if x.next.Some? then [x.next.value] else []))
  {
    forall k | k in n.conts ensures ContInv(placed, agreed, i, x.s, k) {
      ContStays(placed, agreed, i, n.s, x.s, k);
    }
  }

  lemma PutNodes(w: World, i: nat, x: Susp)
    requires NodesInv(w) && i < |w.nodes|
    requires SessInv(w.placed, Agreed(w), i, x.s) && NextInv(w.placed, Agreed(w), i, x) && Evolves(w.nodes[i].s, x.s)
    ensures NodesInv(Put(w, i, x)) && Agreed(Put(w, i, x)) == Agreed(w)
  {
    var v := Put(w, i, x);
    HistoryGrows(w, v);
    HistoryGrows(v, w);
    PutNode(w.placed, Agreed(w), i, w.nodes[i], x);
    forall j | 0 <= j < |v.nodes| ensures NodeInv(v.placed, Agreed(v), j, v.nodes[j]) {
      assert NodeInv(w.placed, Agreed(w), j, w.nodes[j]);
    }
  }

  lemma PutWire(w: World, i: nat, x: Susp)
    requires WireInv(w) && i < |w.nodes|
    requires forall r | r in x.sent && r.kind.Answer? && r.call != "" :: (r.call, w.nodes[i].user) in Agreed(w)
    ensures WireInv(Put(w, i, x))
  {
    var v := Put(w, i, x);
    HistoryGrows(w, v);
    forall p | p in v.wire ensures PacketInv(v, p) {
      assert p in w.wire || p in Ups(i, x.sent);
      if p in w.wire {
        PacketGrows(w, v, p);
      }
    }
  }

  /** The same tabs with more history and no more messages. */
  lemma SameNodes(w: World, v: World)
    requires WorldOk(w) && NodesInv(w) && WireInv(w) && Grows(w, v) && v.nodes == w.nodes && v.wire <= w.wire
    ensures NodesInv(v) && WireInv(v)
  {
    forall i | 0 <= i < |v.nodes| ensures NodeInv(v.placed, Agreed(v), i, v.nodes[i]) {
      assert NodeInv(w.placed, Agreed(w), i, w.nodes[i]) && NodeOk(w.placed, i, w.nodes[i]);
      NodeGrows(w, v, i, w.nodes[i]);
    }
    forall p | p in v.wire ensures PacketInv(v, p) {
      assert p in w.wire;
      PacketGrows(w, v, p);
    }
  }

  ghost predicate Inv(w: World) {
    NodesInv(w) && WireInv(w)
  }

  lemma JoinInv(w: World, user: User)
    requires WorldOk(w) && Inv(w)
    ensures Inv(JoinStep(w, user))
  {
    var v := JoinStep(w, user);
    HistoryGrows(w, v);
    forall i | 0 <= i < |v.nodes| ensures NodeInv(v.placed, Agreed(v), i, v.nodes[i]) {
      if i < |w.nodes| {
        assert NodeInv(w.placed, Agreed(w), i, w.nodes[i]) && NodeOk(w.placed, i, w.nodes[i]);
        NodeGrows(w, v, i, w.nodes[i]);
      }
    }
    forall p | p in v.wire ensures PacketInv(v, p) {
      PacketGrows(w, v, p);
    }
  }

  lemma StartInv(w: World, i: nat, peer: User, video: bool, call: CallId, env: Env)
    requires WorldOk(w) && Inv(w) && i < |w.nodes|
    ensures Inv(StartStep(w, i, peer, video, call, Interleaved, env))
  {
    if call !in w.placed && w.nodes[i].s.phase == Idle {
      var u := Place(w, i, peer, video, call);
      HistoryGrows(w, u);
      SameNodes(w, u);
      assert NodeInv(u.placed, Agreed(u), i, u.nodes[i]);
      BeginStartInv(u.placed, Agreed(u), i, u.nodes[i].s, peer, video, call);
      PutNodes(u, i, BeginStart(u.nodes[i].s, peer, video, call));
      PutWire(u, i, BeginStart(u.nodes[i].s, peer, video, call));
    }
  }

  lemma AcceptInv(w: World, i: nat, env: Env)
    requires WorldOk(w) && Inv(w) && i < |w.nodes|
    ensures Inv(AcceptStep(w, i, Interleaved, env))
  {
    var s := w.nodes[i].s;
    if s.phase == Incoming && Truthy(s.callId) && Truthy(s.peerId) {
      var u := w.(accepted := w.accepted + {(s.callId.value, i)});
      HistoryGrows(w, u);
      SameNodes(w, u);
      assert NodeInv(u.placed, Agreed(u), i, u.nodes[i]);
      BeginAcceptInv(u.placed, Agreed(u), i, s, s.callId.value, s.peerId.value);
      PutNodes(u, i, BeginAccept(s, s.callId.value, s.peerId.value));
      PutWire(u, i, BeginAccept(s, s.callId.value, s.peerId.value));
    }
  }

  lemma TakeInv(w: World, p: Packet)
    requires WorldOk(w) && Inv(w) && p in w.wire
    ensures Inv(Take(w, p)) && Agreed(Take(w, p)) == Agreed(w)
  {
    HistoryGrows(w, Take(w, p));
    SameNodes(w, Take(w, p));
  }

  lemma ForwardInv(w: World, p: Packet, friendships: Friends.Rows)
    requires WorldOk(w) && Inv(w) && p in w.wire && p.Up? && p.src < |w.nodes|
    ensures Inv(ForwardStep(w, p, friendships))
  {
    var v, u := ForwardStep(w, p, friendships), Take(w, p);
    TakeInv(w, p);
    assert PacketInv(w, p);
    HistoryGrows(u, v);
    assert v.nodes == u.nodes && v.placed == u.placed && Agreed(v) == Agreed(u);
    forall q | q in v.wire ensures PacketInv(v, q) {
      if q in u.wire {
        PacketGrows(u, v, q);
      }
    }
  }

  lemma DeliverInv(w: World, p: Packet, env: Env)
    requires WorldOk(w) && Inv(w) && p in w.wire && p.Down? && p.dst < |w.nodes|
    ensures Inv(DeliverStep(w, p, Interleaved, env))
  {
    var u, i := Take(w, p), p.dst;
    TakeInv(w, p);
    assert PacketInv(w, p) && PacketOk(w, p);
    assert NodeOk(w.placed, i, w.nodes[i]) && NodeInv(u.placed, Agreed(u), i, u.nodes[i]);
    InviteFromElsewhere(w, p);
    BeginSignalInv(u.placed, Agreed(u), i, w.nodes[i].user, w.nodes[i].s, p.sig);
    PutNodes(u, i, BeginSignal(w.nodes[i].s, p.sig));
    PutWire(u, i, BeginSignal(w.nodes[i].s, p.sig));
  }

  lemma InviteFromElsewhere(w: World, p: Packet)
    requires WorldOk(w) && p in w.wire && p.Down? && p.dst < |w.nodes|
    ensures p.sig.Relayed? && p.sig.raw.kind.Invite? ==>
              p.sig.raw.call in w.placed && w.placed[p.sig.raw.call].tab != p.dst
  {
    assert PacketOk(w, p);
  }

  lemma WithoutInv(w: World, i: nat, k: nat)
    requires Inv(w) && i < |w.nodes| && k < |w.nodes[i].conts|
    ensures Inv(Without(w, i, k)) && Agreed(Without(w, i, k)) == Agreed(w)
  {
    var v := Without(w, i, k);
    HistoryGrows(w, v);
    HistoryGrows(v, w);
    forall j | 0 <= j < |v.nodes| ensures NodeInv(v.placed, Agreed(v), j, v.nodes[j]) {
      assert NodeInv(w.placed, Agreed(w), j, w.nodes[j]);
      forall c | c in v.nodes[j].conts ensures c in w.nodes[j].conts {
      }
    }
    forall p | p in v.wire ensures PacketInv(v, p) {
      PacketGrows(w, v, p);
    }
  }

  lemma SettledInv(w: World, i: nat, k: nat, outcome: Option<string>)
    requires Inv(w) && i < |w.nodes| && k < |w.nodes[i].conts| && !StaleAnswer(w, Settled(i, k, outcome))
    ensures Inv(SettledStep(w, i, k, outcome))
  {
    var n := w.nodes[i];
    var u, x := Without(w, i, k), Resume(n.s, n.conts[k], outcome);
    WithoutInv(w, i, k);
    assert NodeInv(w.placed, Agreed(w), i, n) && n.conts[k] in n.conts;
    ResumeInv(w.placed, Agreed(w), i, n.s, n.conts[k], outcome);
    ResumeAnswers(n.s, n.conts[k], outcome);
    forall r | r in x.sent && r.kind.Answer? && r.call != "" ensures (r.call, n.user) in Agreed(w) {
      assert (r.call, i) in w.accepted;
    }
    PutNodes(u, i, x);
    PutWire(u, i, x);
  }

  lemma ButtonInv(w: World, i: nat, x: Susp)
    requires Inv(w) && i < |w.nodes| && x.next.None? && NoAnswer(x.sent)
    requires SessInv(w.placed, Agreed(w), i, x.s) && Evolves(w.nodes[i].s, x.s)
    ensures Inv(Put(w, i, x))
  {
    PutNodes(w, i, x);
    PutWire(w, i, x);
  }

  lemma DeclineInv(w: World, i: nat)
    requires Inv(w) && i < |w.nodes|
    ensures Inv(DeclineStep(w, i))
  {
    var s := w.nodes[i].s;
    assert NodeInv(w.placed, Agreed(w), i, w.nodes[i]);
    ButtonsInv(w.placed, Agreed(w), i, s, OrEmpty(s.callId), OrEmpty(s.peerId));
    ButtonInv(w, i, RejectIncoming(s, OrEmpty(s.callId), OrEmpty(s.peerId)));
  }

  lemma EndInv(w: World, i: nat)
    requires Inv(w) && i < |w.nodes|
    ensures Inv(Put(w, i, EndCall(w.nodes[i].s)))
  {
    assert NodeInv(w.placed, Agreed(w), i, w.nodes[i]);
    ButtonsInv(w.placed, Agreed(w), i, w.nodes[i].s, "", "");
    ButtonInv(w, i, EndCall(w.nodes[i].s));
  }

  lemma ConnectionStepInv(w: World, i: nat, connected: bool)
    requires Inv(w) && i < |w.nodes|
    ensures Inv(ConnectionStep(w, i, connected))
  {
    var s := w.nodes[i].s;
    assert NodeInv(w.placed, Agreed(w), i, w.nodes[i]);
    if connected ==> BothDescriptions(s) {
      ConnectionInv(w.placed, Agreed(w), i, s, connected);
      ButtonInv(w, i, Stay(ConnectionChange(s, connected)));
    }
  }

  lemma LocalIceInv(w: World, i: nat, call: CallId, peer: User, cand: Candidate)
    requires Inv(w) && i < |w.nodes|
    ensures Inv(LocalIceStep(w, i, Interleaved, call, peer, cand))
  {
    assert NodeInv(w.placed, Agreed(w), i, w.nodes[i]);
    ButtonInv(w, i, Susp(w.nodes[i].s, [Raw(Ice, call, peer, false, "", Some(cand))], None));
  }

  lemma StepInvWire(w: World, a: Action)
    requires WorldOk(w) && Inv(w) && !StaleAnswer(w, a)
    requires a.Join? || a.Forward? || a.Deliver? || a.Lose?
    ensures Inv(Apply(w, a, Interleaved))
  {
    var v := Apply(w, a, Interleaved);
    if v != w {
      match a {
        case Join(user) =>
          assert v == JoinStep(w, user);
          JoinInv(w, user);
        case Forward(p, friendships) =>
          assert v == ForwardStep(w, p, friendships);
          ForwardInv(w, p, friendships);
        case Deliver(p, env) =>
          assert v == DeliverStep(w, p, Interleaved, env);
          DeliverInv(w, p, env);
        case Lose(p) =>
          assert v == Take(w, p);
          TakeInv(w, p);
      }
    }
  }

  lemma StepInvCall(w: World, a: Action)
    requires WorldOk(w) && Inv(w) && !StaleAnswer(w, a)
    requires a.Start? || a.PressAccept? || a.Settled?
    ensures Inv(Apply(w, a, Interleaved))
  {
    var v := Apply(w, a, Interleaved);
    if v != w {
      match a {
        case Start(i, peer, video, call, env) =>
          assert v == StartStep(w, i, peer, video, call, Interleaved, env);
          StartInv(w, i, peer, video, call, env);
        case PressAccept(i, env) =>
          assert v == AcceptStep(w, i, Interleaved, env);
          AcceptInv(w, i, env);
        case Settled(i, k, outcome) =>
          assert v == SettledStep(w, i, k, outcome);
          SettledInv(w, i, k, outcome);
      }
    }
  }

  lemma StepInvTab(w: World, a: Action)
    requires WorldOk(w) && Inv(w) && !StaleAnswer(w, a)
    requires a.PressDecline? || a.PressEnd? || a.Connection? || a.LocalIce?
    ensures Inv(Apply(w, a, Interleaved))
  {
    var v := Apply(w, a, Interleaved);
    if v != w {
      match a {
        case PressDecline(i) =>
          assert v == DeclineStep(w, i);
          DeclineInv(w, i);
        case PressEnd(i) =>
          assert v == Put(w, i, EndCall(w.nodes[i].s));
          EndInv(w, i);
        case Connection(i, connected) =>
          assert v == ConnectionStep(w, i, connected);
          ConnectionStepInv(w, i, connected);
        case LocalIce(i, call, peer, cand) =>
          assert v == LocalIceStep(w, i, Interleaved, call, peer, cand);
          LocalIceInv(w, i, call, peer, cand);
      }
    }
  }

  lemma StepInv(w: World, a: Action)
    requires WorldOk(w) && Inv(w) && !StaleAnswer(w, a)
    ensures Inv(Apply(w, a, Interleaved))
  {
    if a.Join? || a.Forward? || a.Deliver? || a.Lose? {
      StepInvWire(w, a);
    } else if a.Start? || a.PressAccept? || a.Settled? {
      StepInvCall(w, a);
    } else {
      StepInvTab(w, a);
    }
  }

  /** A step sends an answer for a call that its tab has not accepted exactly if it is a stale answer. */
  lemma UnacceptedAnswerIsStale(w: World, a: Action)
    requires a.Settled? && a.i < |w.nodes| && a.k < |w.nodes[a.i].conts|
    ensures StaleAnswer(w, a) <==>
            exists r :: r in Resume(w.nodes[a.i].s, w.nodes[a.i].conts[a.k], a.outcome).sent
                        && r.kind.Answer? && r.call != "" && (r.call, a.i) !in w.accepted
  {
    var s, k := w.nodes[a.i].s, w.nodes[a.i].conts[a.k];
    ResumeAnswers(s, k, a.outcome);
    if k.SettingAnswer? && a.outcome.Some? {
      var r := Resume(s, k, a.outcome).sent[0];
      assert r in Resume(s, k, a.outcome).sent && r.kind.Answer? && r.call == OrEmpty(s.callId);
    }
  }

  /** Some step of the run was a stale answer. */
  predicate HadStaleAnswer(actions: seq<Action>) {
    actions != [] &&
    (HadStaleAnswer(actions[..|actions| - 1])
     || StaleAnswer(Run(actions[..|actions| - 1], Interleaved), actions[|actions| - 1]))
  }

  lemma {:induction false} RunInv(actions: seq<Action>)
    requires !HadStaleAnswer(actions)
    ensures Inv(Run(actions, Interleaved))
  {
    if actions != [] {
      RunInv(actions[..|actions| - 1]);
      RunOk(actions[..|actions| - 1], Interleaved);
      StepInv(Run(actions[..|actions| - 1], Interleaved), actions[|actions| - 1]);
    } else {
      assert Run(actions, Interleaved) == EMPTY;
    }
  }

  /**
    Consent with any interleaving at the awaits: in a run without stale answers, the tab that placed a call has
    a remote description, or is active, only if a tab of the invited user accepted that call.
  */
  lemma ConsentSurvivesInterleaving(actions: seq<Action>, i: nat, c: CallId)
    requires !HadStaleAnswer(actions)
    requires i < |Run(actions, Interleaved).nodes| && Run(actions, Interleaved).nodes[i].s.callId == Some(c)
    ensures var w := Run(actions, Interleaved); var s := w.nodes[i].s;
            && c in w.placed
            && (w.placed[c].tab == i && (s.phase.Active? || Remote(s)) ==>
                  exists j :: 0 <= j < |w.nodes| && (c, j) in w.accepted && w.nodes[j].user == w.placed[c].callee)
  {
    var w := Run(actions, Interleaved);
    RunInv(actions);
    RunOk(actions, Interleaved);
    assert NodeInv(w.placed, Agreed(w), i, w.nodes[i]) && NodeOk(w.placed, i, w.nodes[i]);
    var x := (c, w.placed[c].callee);
    if x in Agreed(w) {
      var p :| p in w.accepted && p.1 < |w.nodes| && x == (p.0, w.nodes[p.1].user);
      assert (c, p.1) in w.accepted && w.nodes[p.1].user == w.placed[c].callee;
    }
  }
}
