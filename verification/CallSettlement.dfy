/** Consent under interleaving when a browser settles promises only for the connection that the tab still holds. */
module CallSettlement {
  import opened Common
  import opened VoiceCall
  import opened CallWorld
  import opened CallConsent

  /** The connection whose promise a method awaits. */
  function Awaited(k: Cont): Option<nat> {
    if k.MediaOut? || k.MediaIn? || k.AddingIce? then None else Some(k.pc)
  }

  /** If the step settles a promise of a connection, its tab still holds that connection. */
  predicate Held(w: World, a: Action) {
    a.Settled? && a.i < |w.nodes| && a.k < |w.nodes[a.i].conts| && Awaited(w.nodes[a.i].conts[a.k]).Some? ==>
      HoldsPc(w.nodes[a.i].s, w.nodes[a.i].conts[a.k].pc)
  }

  predicate HoldsPc(s: Session, pc: nat) {
    s.pc.Some? && s.pc.value.id == pc
  }

  predicate AllHeld(actions: seq<Action>) {
    actions == [] ||
    (AllHeld(actions[..|actions| - 1])
     && Held(Run(actions[..|actions| - 1], Interleaved), actions[|actions| - 1]))
  }

  // ---------- one tab ----------

  /** A method on its way to sending an answer. */
  predicate Answers(k: Cont) {
    match k
    case SettingRemote(_, answering) => answering
    case Flushing(_, _, answering) => answering
    case CreatingAnswer(_) => true
    case SettingAnswer(_, _) => true
    case _ => false
  }

  predicate TookUp(accepted: set<(CallId, nat)>, i: nat, s: Session) {
    !s.phase.Idle? && s.callId.Some? && (s.callId.value, i) in accepted
  }

  predicate StateOk(accepted: set<(CallId, nat)>, i: nat, s: Session) {
    (s.phase.Connecting? ==> TookUp(accepted, i, s)) && (s.pc.Some? ==> s.pc.value.id < s.nextPc)
  }

  predicate WaitsOk(accepted: set<(CallId, nat)>, i: nat, s: Session, k: Cont) {
    Answers(k) ==> k.pc < s.nextPc && (HoldsPc(s, k.pc) ==> TookUp(accepted, i, s))
  }

  predicate PieceOk(accepted: set<(CallId, nat)>, i: nat, s: Session, x: Susp) {
    && StateOk(accepted, i, x.s) && Evolves(s, x.s)
    && (x.next.Some? ==> WaitsOk(accepted, i, x.s, x.next.value))
  }

  lemma BeginSignalPiece(accepted: set<(CallId, nat)>, i: nat, s: Session, sig: Signal)
    requires StateOk(accepted, i, s)
    ensures PieceOk(accepted, i, s, BeginSignal(s, sig))
  {
  }

  lemma MediaPiece(accepted: set<(CallId, nat)>, i: nat, s: Session, k: Cont, outcome: Option<string>)
    requires StateOk(accepted, i, s) && (k.MediaOut? || k.MediaIn?)
    ensures PieceOk(accepted, i, s, Resume(s, k, outcome))
  {
  }

  /** A held connection: the method goes on with the call it began with, or ends it. */
  lemma HeldPiece(accepted: set<(CallId, nat)>, i: nat, s: Session, k: Cont, outcome: Option<string>)
    requires StateOk(accepted, i, s) && WaitsOk(accepted, i, s, k)
    requires Awaited(k).Some? && HoldsPc(s, k.pc)
    ensures PieceOk(accepted, i, s, Resume(s, k, outcome))
  {
  }

  lemma ResumePiece(accepted: set<(CallId, nat)>, i: nat, s: Session, k: Cont, outcome: Option<string>)
    requires StateOk(accepted, i, s) && WaitsOk(accepted, i, s, k)
    requires Awaited(k).Some? ==> HoldsPc(s, k.pc)
    ensures PieceOk(accepted, i, s, Resume(s, k, outcome))
  {
    if k.MediaOut? || k.MediaIn? {
      MediaPiece(accepted, i, s, k, outcome);
    } else if !k.AddingIce? {
      HeldPiece(accepted, i, s, k, outcome);
    }
  }

  lemma ButtonPieces(accepted: set<(CallId, nat)>, i: nat, s: Session, call: CallId, peer: User, video: bool, connected: bool)
    requires StateOk(accepted, i, s)
    ensures s.phase.Idle? ==> PieceOk(accepted, i, s, BeginStart(s, peer, video, call))
    ensures (call, i) in accepted ==> PieceOk(accepted, i, s, BeginAccept(s, call, peer))
    ensures PieceOk(accepted, i, s, RejectIncoming(s, call, peer)) && PieceOk(accepted, i, s, EndCall(s))
    ensures PieceOk(accepted, i, s, Stay(ConnectionChange(s, connected)))
  {
  }

  // ---------- the world ----------

  predicate TabWaits(accepted: set<(CallId, nat)>, i: nat, n: Node) {
    StateOk(accepted, i, n.s) && forall k | k in n.conts :: WaitsOk(accepted, i, n.s, k)
  }

  ghost predicate Waits(w: World) {
    forall i | 0 <= i < |w.nodes| :: TabWaits(w.accepted, i, w.nodes[i])
  }

  lemma WaitStays(accepted: set<(CallId, nat)>, i: nat, s: Session, t: Session, k: Cont)
    requires WaitsOk(accepted, i, s, k) && Evolves(s, t)
    ensures WaitsOk(accepted, i, t, k)
  {
  }

  lemma PutWaits(w: World, i: nat, x: Susp)
    requires Waits(w) && i < |w.nodes| && PieceOk(w.accepted, i, w.nodes[i].s, x)
    ensures Waits(Put(w, i, x))
  {
    var v, n := Put(w, i, x), w.nodes[i];
    assert TabWaits(w.accepted, i, n);
    forall k | k in n.conts ensures WaitsOk(w.accepted, i, x.s, k) {
      WaitStays(w.accepted, i, n.s, x.s, k);
    }
    forall j | 0 <= j < |v.nodes| ensures TabWaits(v.accepted, j, v.nodes[j]) {
      assert TabWaits(w.accepted, j, w.nodes[j]);
    }
  }

  lemma MoreAccepted(w: World, v: World)
    requires Waits(w) && w.accepted <= v.accepted && v.nodes == w.nodes
    ensures Waits(v)
  {
    forall j | 0 <= j < |v.nodes| ensures TabWaits(v.accepted, j, v.nodes[j]) {
      assert TabWaits(w.accepted, j, w.nodes[j]);
    }
  }

  lemma StartWaits(w: World, i: nat, peer: User, video: bool, call: CallId, env: Env)
    requires Waits(w) && i < |w.nodes|
    ensures Waits(StartStep(w, i, peer, video, call, Interleaved, env))
  {
    var s := w.nodes[i].s;
    assert TabWaits(w.accepted, i, w.nodes[i]);
    if s.phase == Idle {
      MoreAccepted(w, Place(w, i, peer, video, call));
      ButtonPieces(w.accepted, i, s, call, peer, video, false);
      PutWaits(Place(w, i, peer, video, call), i, BeginStart(s, peer, video, call));
    }
  }

  lemma AcceptWaits(w: World, i: nat, env: Env)
    requires Waits(w) && i < |w.nodes|
    ensures Waits(AcceptStep(w, i, Interleaved, env))
  {
    var s := w.nodes[i].s;
    if s.phase == Incoming && Truthy(s.callId) && Truthy(s.peerId) {
      var v := w.(accepted := w.accepted + {(s.callId.value, i)});
      MoreAccepted(w, v);
      assert TabWaits(v.accepted, i, v.nodes[i]);
      ButtonPieces(v.accepted, i, s, s.callId.value, s.peerId.value, false, false);
      PutWaits(v, i, BeginAccept(s, s.callId.value, s.peerId.value));
    }
  }

  lemma DeliverWaits(w: World, p: Packet, env: Env)
    requires Waits(w) && p in w.wire && p.Down? && p.dst < |w.nodes|
    ensures Waits(DeliverStep(w, p, Interleaved, env))
  {
    MoreAccepted(w, Take(w, p));
    assert TabWaits(w.accepted, p.dst, w.nodes[p.dst]);
    BeginSignalPiece(w.accepted, p.dst, w.nodes[p.dst].s, p.sig);
    PutWaits(Take(w, p), p.dst, BeginSignal(w.nodes[p.dst].s, p.sig));
  }

  lemma SettledWaits(w: World, i: nat, k: nat, outcome: Option<string>)
    requires Waits(w) && i < |w.nodes| && k < |w.nodes[i].conts| && Held(w, Settled(i, k, outcome))
    ensures Waits(SettledStep(w, i, k, outcome))
  {
    var n, u := w.nodes[i], Without(w, i, k);
    assert TabWaits(w.accepted, i, n) && n.conts[k] in n.conts;
    forall c | c in u.nodes[i].conts ensures c in n.conts {
    }
    forall j | 0 <= j < |u.nodes| ensures TabWaits(u.accepted, j, u.nodes[j]) {
      assert TabWaits(w.accepted, j, w.nodes[j]);
    }
    ResumePiece(w.accepted, i, n.s, n.conts[k], outcome);
    PutWaits(u, i, Resume(n.s, n.conts[k], outcome));
  }

  lemma ButtonWaits(w: World, i: nat, connected: bool)
    requires Waits(w) && i < |w.nodes|
    ensures Waits(DeclineStep(w, i)) && Waits(Put(w, i, EndCall(w.nodes[i].s))) && Waits(ConnectionStep(w, i, connected))
  {
    var s := w.nodes[i].s;
    assert TabWaits(w.accepted, i, w.nodes[i]);
    ButtonPieces(w.accepted, i, s, OrEmpty(s.callId), OrEmpty(s.peerId), false, connected);
    PutWaits(w, i, RejectIncoming(s, OrEmpty(s.callId), OrEmpty(s.peerId)));
    PutWaits(w, i, EndCall(s));
    PutWaits(w, i, Stay(ConnectionChange(s, connected)));
  }

  lemma LocalIceWaits(w: World, i: nat, call: CallId, peer: User, cand: Candidate)
    requires Waits(w) && i < |w.nodes|
    ensures Waits(LocalIceStep(w, i, Interleaved, call, peer, cand))
  {
    assert TabWaits(w.accepted, i, w.nodes[i]);
    PutWaits(w, i, Susp(w.nodes[i].s, [Raw(Ice, call, peer, false, "", Some(cand))], None));
  }

  lemma JoinWaits(w: World, user: User)
    requires Waits(w)
    ensures Waits(JoinStep(w, user))
  {
    var v := JoinStep(w, user);
    forall j | 0 <= j < |v.nodes| ensures TabWaits(v.accepted, j, v.nodes[j]) {
      assert j < |w.nodes| ==> TabWaits(w.accepted, j, w.nodes[j]);
    }
  }

  lemma WireStepWaits(w: World, a: Action)
    requires Waits(w) && (a.Join? || a.Forward? || a.Deliver? || a.Lose?)
    ensures Waits(Apply(w, a, Interleaved))
  {
    var v := Apply(w, a, Interleaved);
    if v != w {
      match a {
        case Join(user) =>
          assert v == JoinStep(w, user);
          JoinWaits(w, user);
        case Forward(p, friendships) =>
          assert v == ForwardStep(w, p, friendships);
          MoreAccepted(w, v);
        case Deliver(p, env) =>
          assert v == DeliverStep(w, p, Interleaved, env);
          DeliverWaits(w, p, env);
        case Lose(p) =>
          assert v == Take(w, p);
          MoreAccepted(w, v);
      }
    }
  }

  lemma TabStepWaits(w: World, a: Action)
    requires Waits(w) && Held(w, a) && !(a.Join? || a.Forward? || a.Deliver? || a.Lose?)
    ensures Waits(Apply(w, a, Interleaved))
  {
    var v := Apply(w, a, Interleaved);
    if v != w {
      match a {
        case Start(i, peer, video, call, env) =>
          assert v == StartStep(w, i, peer, video, call, Interleaved, env);
          StartWaits(w, i, peer, video, call, env);
        case PressAccept(i, env) =>
          assert v == AcceptStep(w, i, Interleaved, env);
          AcceptWaits(w, i, env);
        case Settled(i, k, outcome) =>
          assert v == SettledStep(w, i, k, outcome);
          SettledWaits(w, i, k, outcome);
        case PressDecline(i) =>
          assert v == DeclineStep(w, i);
          ButtonWaits(w, i, false);
        case PressEnd(i) =>
          assert v == Put(w, i, EndCall(w.nodes[i].s));
          ButtonWaits(w, i, false);
        case Connection(i, connected) =>
          assert v == ConnectionStep(w, i, connected);
          ButtonWaits(w, i, connected);
        case LocalIce(i, call, peer, cand) =>
          assert v == LocalIceStep(w, i, Interleaved, call, peer, cand);
          LocalIceWaits(w, i, call, peer, cand);
      }
    }
  }

  lemma NoStaleAnswer(w: World, a: Action)
    requires Waits(w) && Held(w, a)
    ensures !StaleAnswer(w, a)
  {
    if a.Settled? && a.i < |w.nodes| && a.k < |w.nodes[a.i].conts| {
      assert TabWaits(w.accepted, a.i, w.nodes[a.i]);
      assert w.nodes[a.i].conts[a.k] in w.nodes[a.i].conts;
    }
  }

  lemma {:induction false} RunWaits(actions: seq<Action>)
    requires AllHeld(actions)
    ensures Waits(Run(actions, Interleaved)) && !HadStaleAnswer(actions)
  {
    if actions != [] {
      var w, a := Run(actions[..|actions| - 1], Interleaved), actions[|actions| - 1];
      RunWaits(actions[..|actions| - 1]);
      NoStaleAnswer(w, a);
      if a.Join? || a.Forward? || a.Deliver? || a.Lose? {
        WireStepWaits(w, a);
      } else {
        TabStepWaits(w, a);
      }
    }
  }

  /**
    Consent without exception: with any interleaving at the awaits, as long as promises settle only for the
    connection the tab still holds, the tab that placed a call has a remote description, or is active, only
    if a tab of the invited user accepted that call.
  */
  lemma ConsentWhenHeld(actions: seq<Action>, i: nat, c: CallId)
    requires AllHeld(actions)
    requires i < |Run(actions, Interleaved).nodes| && Run(actions, Interleaved).nodes[i].s.callId == Some(c)
    ensures var w := Run(actions, Interleaved); var s := w.nodes[i].s;
            && c in w.placed
            && (w.placed[c].tab == i && (s.phase.Active? || Remote(s)) ==>
                  exists j :: 0 <= j < |w.nodes| && (c, j) in w.accepted && w.nodes[j].user == w.placed[c].callee)
  {
    RunWaits(actions);
    ConsentSurvivesInterleaving(actions, i, c);
  }
}
