/** What holds when each method of a tab runs to its end before the tab does anything else. */
module CallSafety {
  import opened Common
  import opened VoiceCall
  import opened CallWorld
  import Friends

  /** Some tab of the invited user ran acceptIncoming for this call. */
  ghost predicate Consented(w: World, c: CallId) {
    c in w.placed &&
    exists j :: 0 <= j < |w.nodes| && (c, j) in w.accepted && w.nodes[j].user == w.placed[c].callee
  }

  function Rest(next: Option<Cont>): seq<Candidate> {
    if next.Some? && next.value.Flushing? then next.value.rest else []
  }

  /** Candidates given to the connection, then those of a running flush, then the queue: all that arrived, in order. */
  predicate IceOk(s: Session, next: Option<Cont>) {
    match s.pc
    case None => s.pendingIce == []
    case Some(pc) =>
      && pc.given + Rest(next) + s.pendingIce == pc.seen
      && (if pc.hasRemote then s.pendingIce == [] else pc.given == [] && Rest(next) == [])
  }

  ghost predicate PhaseOk(w: World, i: nat, s: Session) {
    && (s.phase.Idle? || s.phase.Incoming? ==> s.pc.None?)
    && (s.stream <==> s.pc.Some?) && (s.phase.Idle? ==> !s.video)
    && (s.callId.Some? ==>
          && s.callId.value in w.placed
          && var c := s.callId.value;
            && (s.phase.Outgoing? ==> w.placed[c].tab == i)
            && (s.phase.Incoming? ==> w.placed[c].tab != i)
            && (s.phase.Connecting? ==> w.placed[c].tab != i)
            && (s.phase.Connecting? ==> (c, i) in w.accepted)
            && (s.phase.Active? ==> if w.placed[c].tab == i then Consented(w, c) else (c, i) in w.accepted))
    && (s.pc.Some? ==>
          && s.callId == Some(s.pc.value.call)
          && s.peerId == Some(s.pc.value.peer)
          && var c := s.pc.value.call;
            w.placed[c].tab == i && (s.pc.value.hasLocal || s.pc.value.hasRemote) ==> Consented(w, c))
  }

  ghost predicate WaitOk(w: World, i: nat, s: Session, next: Option<Cont>) {
    var live := s.phase.Outgoing? || s.phase.Connecting? || s.phase.Active?;
    match next
    case None => live ==> s.pc.Some?
    case Some(k) =>
      match k
      case MediaOut(c, p, _) => s.phase.Outgoing? && s.callId == Some(c) && s.peerId == Some(p) && s.pc.None?
      case MediaIn(c, p) => s.phase.Connecting? && s.callId == Some(c) && s.peerId == Some(p) && s.pc.None?
      case CreatingOffer(_) => s.phase.Outgoing? && s.pc.Some? && Consented(w, s.pc.value.call)
      case SettingOffer(pc, _) =>
        s.phase.Outgoing? && s.pc.Some? && s.pc.value.id == pc && Consented(w, s.pc.value.call)
      case SettingRemote(pc, answering) =>
        s.pc.Some? && s.pc.value.id == pc &&
        if answering then s.phase.Connecting? else s.phase.Outgoing? && Consented(w, s.pc.value.call)
      case Flushing(_, _, answering) => s.pc.Some? && s.pc.value.hasRemote && (answering ==> s.phase.Connecting?)
      case CreatingAnswer(_) => s.pc.Some? && s.phase.Connecting?
      case SettingAnswer(pc, _) => s.pc.Some? && s.pc.value.id == pc && s.phase.Connecting?
      case AddingIce => s.pc.Some?
  }

  ghost predicate TabSafe(w: World, i: nat, s: Session, next: Option<Cont>) {
    IceOk(s, next) && PhaseOk(w, i, s) && WaitOk(w, i, s, next)
  }

  ghost predicate RawSafe(w: World, i: nat, r: Raw)
    requires i < |w.nodes|
  {
    match r.kind
    case Accept => Consented(w, r.call) && (r.call, i) in w.accepted && w.placed[r.call].callee == w.nodes[i].user
    case Answer => Consented(w, r.call) && (r.call, i) in w.accepted && w.placed[r.call].callee == w.nodes[i].user
    case Ice => r.call in w.placed && (w.nodes[i].user == w.placed[r.call].caller ==> Consented(w, r.call))
    case _ => true
  }

  ghost predicate SignalSafe(w: World, sig: Signal) {
    sig.Relayed? ==>
      match sig.raw.kind
      case Accept => Consented(w, sig.raw.call) && sig.from == w.placed[sig.raw.call].callee
      case Answer => Consented(w, sig.raw.call) && sig.from == w.placed[sig.raw.call].callee
      case Ice => sig.raw.call in w.placed && (sig.from == w.placed[sig.raw.call].caller ==> Consented(w, sig.raw.call))
      case _ => true
  }

  ghost predicate SuspSafe(w: World, i: nat, x: Susp)
    requires i < |w.nodes|
  {
    && SuspOk(w.placed, i, w.nodes[i].user, x)
    && TabSafe(w, i, x.s, x.next)
    && forall r | r in x.sent :: RawSafe(w, i, r)
  }

  ghost predicate PacketSafe(w: World, p: Packet) {
    match p
    case Up(i, raw) => i < |w.nodes| && RawSafe(w, i, raw)
    case Down(_, sig) => SignalSafe(w, sig)
  }

  ghost predicate Safe(w: World) {
    && WorldOk(w)
    && (forall i | 0 <= i < |w.nodes| :: w.nodes[i].conts == [] && TabSafe(w, i, w.nodes[i].s, None))
    && (forall p | p in w.wire :: PacketSafe(w, p))
  }

  // ---------- one method ----------

  /** The candidates' part of one piece of a method. */
  lemma ResumeIce(s: Session, k: Cont, outcome: Option<string>)
    requires IceOk(s, Some(k)) && (k.SettingRemote? ==> s.pc.Some? && s.pc.value.id == k.pc)
    requires (k.MediaOut? || k.MediaIn?) ==> s.pc.None?
    ensures IceOk(Resume(s, k, outcome).s, Resume(s, k, outcome).next)
  {
    if k.SettingRemote? && outcome.Some? {
      RemoteIce(s, k, outcome);
    } else if k.Flushing? {
      FlushIce(s, k, outcome);
    } else {
      OtherIce(s, k, outcome);
    }
  }

  lemma FlushIce(s: Session, k: Cont, outcome: Option<string>)
    requires IceOk(s, Some(k)) && k.Flushing?
    ensures IceOk(Resume(s, k, outcome).s, Resume(s, k, outcome).next)
  {
    if s.pc.Some? && k.rest != [] {
      NextCandidate(s.pc.value.given, k.rest);
    }
  }

  lemma OtherIce(s: Session, k: Cont, outcome: Option<string>)
    requires IceOk(s, Some(k)) && !k.Flushing? && (k.SettingRemote? ==> outcome.None?)
    requires (k.MediaOut? || k.MediaIn?) ==> s.pc.None?
    ensures IceOk(Resume(s, k, outcome).s, Resume(s, k, outcome).next)
  {
  }

  lemma NextCandidate(given: seq<Candidate>, rest: seq<Candidate>)
    requires rest != []
    ensures given + [rest[0]] + rest[1..] == given + rest
  {
  }

  lemma RemoteIce(s: Session, k: Cont, outcome: Option<string>)
    requires IceOk(s, Some(k)) && k.SettingRemote? && outcome.Some? && s.pc.Some? && s.pc.value.id == k.pc
    ensures IceOk(Resume(s, k, outcome).s, Resume(s, k, outcome).next)
  {
    if s.pendingIce != [] {
      NextCandidate(s.pc.value.given, s.pendingIce);
    }
  }

  /** The rest: what the tab holds and waits for, and what it sends. */
  ghost predicate PieceSafe(w: World, i: nat, x: Susp)
    requires i < |w.nodes|
  {
    PhaseOk(w, i, x.s) && WaitOk(w, i, x.s, x.next) && forall r | r in x.sent :: RawSafe(w, i, r)
  }

  lemma MediaPhase(w: World, i: nat, s: Session, k: Cont, outcome: Option<string>)
    requires i < |w.nodes| && SessionOk(w.placed, i, w.nodes[i].user, s) && (k.MediaOut? || k.MediaIn?)
    requires PhaseOk(w, i, s) && WaitOk(w, i, s, Some(k))
    ensures PieceSafe(w, i, Resume(s, k, outcome))
  {
  }

  lemma LocalPhase(w: World, i: nat, s: Session, k: Cont, outcome: Option<string>)
    requires i < |w.nodes| && SessionOk(w.placed, i, w.nodes[i].user, s)
    requires k.CreatingOffer? || k.SettingOffer? || k.CreatingAnswer? || k.SettingAnswer?
    requires PhaseOk(w, i, s) && WaitOk(w, i, s, Some(k))
    ensures PieceSafe(w, i, Resume(s, k, outcome))
  {
  }

  lemma RemotePhase(w: World, i: nat, s: Session, k: Cont, outcome: Option<string>)
    requires i < |w.nodes| && SessionOk(w.placed, i, w.nodes[i].user, s) && k.SettingRemote?
    requires PhaseOk(w, i, s) && WaitOk(w, i, s, Some(k))
    ensures PieceSafe(w, i, Resume(s, k, outcome))
  {
    if outcome.Some? {
      var m := MarkRemote(s, k.pc);
      FlushPhase(w, i, m.(pendingIce := []), m.pendingIce, k.answering);
    }
  }

  /** Flushing leaves the phase alone and goes on to the answer. */
  lemma FlushPhase(w: World, i: nat, s: Session, rest: seq<Candidate>, answering: bool)
    requires i < |w.nodes| && PhaseOk(w, i, s)
    requires s.pc.Some? && s.pc.value.hasRemote && (answering ==> s.phase.Connecting?)
    ensures PieceSafe(w, i, FlushNext(s, rest, answering))
  {
  }

  lemma FlushingPhase(w: World, i: nat, s: Session, k: Cont, outcome: Option<string>)
    requires i < |w.nodes| && (k.Flushing? || k.AddingIce?)
    requires PhaseOk(w, i, s) && WaitOk(w, i, s, Some(k))
    ensures PieceSafe(w, i, Resume(s, k, outcome))
  {
    if k.Flushing? {
      FlushPhase(w, i, s, k.rest, k.answering);
    }
  }

  lemma ResumePhase(w: World, i: nat, s: Session, k: Cont, outcome: Option<string>)
    requires i < |w.nodes| && SessionOk(w.placed, i, w.nodes[i].user, s)
    requires PhaseOk(w, i, s) && WaitOk(w, i, s, Some(k))
    ensures PieceSafe(w, i, Resume(s, k, outcome))
  {
    if k.MediaOut? || k.MediaIn? {
      MediaPhase(w, i, s, k, outcome);
    } else if k.SettingRemote? {
      RemotePhase(w, i, s, k, outcome);
    } else if k.Flushing? || k.AddingIce? {
      FlushingPhase(w, i, s, k, outcome);
    } else {
      LocalPhase(w, i, s, k, outcome);
    }
  }

  lemma ResumeSafe(w: World, i: nat, s: Session, k: Cont, outcome: Option<string>)
    requires i < |w.nodes| && SessionOk(w.placed, i, w.nodes[i].user, s) && ContOk(w.placed, i, w.nodes[i].user, k)
    requires TabSafe(w, i, s, Some(k))
    ensures SuspSafe(w, i, Resume(s, k, outcome))
  {
    ResumeOk(w.placed, i, w.nodes[i].user, s, k, outcome);
    ResumeIce(s, k, outcome);
    ResumePhase(w, i, s, k, outcome);
  }

  lemma {:induction false} SettleSafe(w: World, i: nat, x: Susp, env: Env)
    requires i < |w.nodes| && SuspSafe(w, i, x)
    ensures SuspSafe(w, i, Settle(x, env))
    decreases Rank(x.next), if x.next.Some? && x.next.value.Flushing? then |x.next.value.rest| else 0
  {
    if x.next.Some? {
      var k := x.next.value;
      ResumeSafe(w, i, x.s, k, OutcomeFor(k, env));
      var y := Resume(x.s, k, OutcomeFor(k, env));
      JoinedSafe(w, i, x.sent, y);
      SettleSafe(w, i, Susp(y.s, x.sent + y.sent, y.next), env);
    }
  }

  lemma JoinedSafe(w: World, i: nat, sent: seq<Raw>, y: Susp)
    requires i < |w.nodes| && SuspSafe(w, i, y)
    requires forall r | r in sent :: RawOk(w.placed, i, w.nodes[i].user, r) && RawSafe(w, i, r)
    ensures SuspSafe(w, i, Susp(y.s, sent + y.sent, y.next))
  {
  }

  lemma AddIceKeeps(s: Session, c: Candidate)
    requires IceOk(s, None)
    ensures IceOk(AddIce(s, c).s, AddIce(s, c).next)
  {
    if s.pc.Some? {
      var pc := s.pc.value;
      assert pc.given + [c] + [] == pc.given + [] + [] + [c];
      assert pc.given + [] + (s.pendingIce + [c]) == pc.given + [] + s.pendingIce + [c];
    }
  }

  lemma BeginSignalIce(s: Session, sig: Signal)
    requires IceOk(s, None) && (s.phase.Idle? ==> s.pc.None?)
    ensures IceOk(BeginSignal(s, sig).s, BeginSignal(s, sig).next)
  {
    if sig.Relayed? && sig.raw.kind.Ice? && sig.raw.cand.Some? {
      AddIceKeeps(s, sig.raw.cand.value);
    }
  }

  /** An acceptance, an offer or an answer moves no state before the first await. */
  lemma NegotiationPhase(w: World, i: nat, s: Session, sig: Signal)
    requires i < |w.nodes| && SessionOk(w.placed, i, w.nodes[i].user, s)
    requires sig.Relayed? && (sig.raw.kind.Accept? || sig.raw.kind.Offer? || sig.raw.kind.Answer?) && SignalSafe(w, sig)
    requires PhaseOk(w, i, s) && WaitOk(w, i, s, None)
    ensures var x := BeginSignal(s, sig); x.s == s && WaitOk(w, i, x.s, x.next) && x.sent == []
  {
  }

  lemma InvitePhase(w: World, i: nat, s: Session, sig: Signal)
    requires i < |w.nodes| && SignalOk(w.placed, w.nodes[i].user, sig)
    requires sig.Relayed? && sig.raw.kind.Invite? && w.placed[sig.raw.call].tab != i
    requires PhaseOk(w, i, s) && WaitOk(w, i, s, None)
    ensures var x := BeginSignal(s, sig); PhaseOk(w, i, x.s) && WaitOk(w, i, x.s, x.next) && x.sent == []
  {
  }

  lemma IcePhase(w: World, i: nat, s: Session, sig: Signal)
    requires i < |w.nodes| && sig.Relayed? && sig.raw.kind.Ice?
    requires PhaseOk(w, i, s) && WaitOk(w, i, s, None)
    ensures var x := BeginSignal(s, sig); PhaseOk(w, i, x.s) && WaitOk(w, i, x.s, x.next) && x.sent == []
  {
  }

  /** Everything else leaves the tab as it is or ends its call. */
  lemma EndingPhase(w: World, i: nat, s: Session, sig: Signal)
    requires i < |w.nodes| && PhaseOk(w, i, s) && WaitOk(w, i, s, None)
    requires sig.Relayed? ==> !sig.raw.kind.Accept? && !sig.raw.kind.Offer? && !sig.raw.kind.Answer?
                              && !sig.raw.kind.Invite? && !sig.raw.kind.Ice?
    ensures var x := BeginSignal(s, sig); PhaseOk(w, i, x.s) && WaitOk(w, i, x.s, x.next) && x.sent == []
  {
  }

  lemma BeginSignalPhase(w: World, i: nat, s: Session, sig: Signal)
    requires i < |w.nodes| && SessionOk(w.placed, i, w.nodes[i].user, s)
    requires SignalOk(w.placed, w.nodes[i].user, sig) && SignalSafe(w, sig)
    requires sig.Relayed? && sig.raw.kind.Invite? ==> w.placed[sig.raw.call].tab != i
    requires PhaseOk(w, i, s) && WaitOk(w, i, s, None)
    ensures var x := BeginSignal(s, sig); PhaseOk(w, i, x.s) && WaitOk(w, i, x.s, x.next) && x.sent == []
  {
    if sig.Relayed? && (sig.raw.kind.Accept? || sig.raw.kind.Offer? || sig.raw.kind.Answer?) {
      NegotiationPhase(w, i, s, sig);
    } else if sig.Relayed? && sig.raw.kind.Invite? {
      InvitePhase(w, i, s, sig);
    } else if sig.Relayed? && sig.raw.kind.Ice? {
      IcePhase(w, i, s, sig);
    } else {
      EndingPhase(w, i, s, sig);
    }
  }

  lemma BeginSignalSafe(w: World, i: nat, s: Session, sig: Signal)
    requires i < |w.nodes| && SessionOk(w.placed, i, w.nodes[i].user, s)
    requires SignalOk(w.placed, w.nodes[i].user, sig) && SignalSafe(w, sig)
    requires sig.Relayed? && sig.raw.kind.Invite? ==> w.placed[sig.raw.call].tab != i
    requires TabSafe(w, i, s, None)
    ensures SuspSafe(w, i, BeginSignal(s, sig))
  {
    BeginSignalOk(w.placed, i, w.nodes[i].user, s, sig);
    BeginSignalIce(s, sig);
    BeginSignalPhase(w, i, s, sig);
  }

  // ---------- one step ----------

  /** v has everything w has: the same tabs and more, the same history and more. */
  ghost predicate Grows(w: World, v: World) {
    && |w.nodes| <= |v.nodes|
    && (forall i | 0 <= i < |w.nodes| :: v.nodes[i].user == w.nodes[i].user)
    && w.accepted <= v.accepted
    && (forall c | c in w.placed :: c in v.placed && v.placed[c] == w.placed[c])
  }

  lemma ConsentGrows(w: World, v: World, c: CallId)
    requires Grows(w, v) && Consented(w, c)
    ensures Consented(v, c)
  {
    var j :| 0 <= j < |w.nodes| && (c, j) in w.accepted && w.nodes[j].user == w.placed[c].callee;
    assert v.nodes[j].user == v.placed[c].callee;
  }

  lemma TabGrows(w: World, v: World, i: nat, s: Session, next: Option<Cont>)
    requires Grows(w, v) && i < |w.nodes|
    requires SessionOk(w.placed, i, w.nodes[i].user, s) && TabSafe(w, i, s, next)
    ensures TabSafe(v, i, s, next)
  {
    forall c | Consented(w, c) ensures Consented(v, c) {
      ConsentGrows(w, v, c);
    }
  }

  lemma PacketGrows(w: World, v: World, p: Packet)
    requires Grows(w, v) && PacketSafe(w, p)
    ensures PacketSafe(v, p)
  {
    forall c | Consented(w, c) ensures Consented(v, c) {
      ConsentGrows(w, v, c);
    }
  }

  /** A step that only adds to the history keeps every tab and every packet safe. */
  lemma SafeGrows(w: World, v: World)
    requires Safe(w) && Grows(w, v) && WorldOk(v) && v.wire <= w.wire
    requires forall i | 0 <= i < |w.nodes| :: v.nodes[i] == w.nodes[i]
    requires forall i | |w.nodes| <= i < |v.nodes| :: v.nodes[i].conts == [] && v.nodes[i].s == FRESH
    ensures Safe(v)
  {
    forall i | 0 <= i < |v.nodes| ensures v.nodes[i].conts == [] && TabSafe(v, i, v.nodes[i].s, None) {
      if i < |w.nodes| {
        assert NodeOk(w.placed, i, w.nodes[i]);
        TabGrows(w, v, i, w.nodes[i].s, None);
      }
    }
    forall p | p in v.wire ensures PacketSafe(v, p) {
      assert p in w.wire;
      PacketGrows(w, v, p);
    }
  }

  lemma PutSafe(w: World, i: nat, x: Susp, env: Env)
    requires Safe(w) && i < |w.nodes| && SuspSafe(w, i, x)
    ensures Safe(Put(w, i, Settle(x, env)))
  {
    SettleSafe(w, i, x, env);
    var y := Settle(x, env);
    var v := Put(w, i, y);
    PutOk(w, i, y);
    assert y.next.None?;
    assert Grows(w, v);
    forall j | 0 <= j < |v.nodes| ensures v.nodes[j].conts == [] && TabSafe(v, j, v.nodes[j].s, None) {
      assert NodeOk(w.placed, j, w.nodes[j]);
      TabGrows(w, v, j, v.nodes[j].s, None);
    }
    forall p | p in v.wire ensures PacketSafe(v, p) {
      assert p in w.wire || p in Ups(i, y.sent);
      assert PacketSafe(w, p);
      PacketGrows(w, v, p);
    }
  }

  lemma BeginStartSafe(w: World, i: nat, s: Session, peer: User, video: bool, call: CallId)
    requires i < |w.nodes| && SessionOk(w.placed, i, w.nodes[i].user, s) && TabSafe(w, i, s, None)
    requires s.phase.Idle? && call in w.placed && w.placed[call] == Call(i, w.nodes[i].user, peer, video)
    ensures SuspSafe(w, i, BeginStart(s, peer, video, call))
  {
  }

  lemma BeginAcceptSafe(w: World, i: nat, s: Session)
    requires i < |w.nodes| && SessionOk(w.placed, i, w.nodes[i].user, s) && TabSafe(w, i, s, None)
    requires s.phase.Incoming? && (s.callId.value, i) in w.accepted
    ensures SuspSafe(w, i, BeginAccept(s, s.callId.value, s.peerId.value))
  {
  }

  lemma LeaveSafe(w: World, i: nat, s: Session)
    requires i < |w.nodes| && SessionOk(w.placed, i, w.nodes[i].user, s) && TabSafe(w, i, s, None)
    ensures SuspSafe(w, i, EndCall(s))
    ensures s.phase.Incoming? ==> SuspSafe(w, i, RejectIncoming(s, s.callId.value, s.peerId.value))
  {
  }

  lemma ConnectionSafe(w: World, i: nat, s: Session, connected: bool)
    requires i < |w.nodes| && SessionOk(w.placed, i, w.nodes[i].user, s) && TabSafe(w, i, s, None)
    requires connected ==> BothDescriptions(s)
    ensures SuspSafe(w, i, Stay(ConnectionChange(s, connected)))
  {
  }

  lemma LocalIceSafe(w: World, i: nat, s: Session, cand: Candidate)
    requires i < |w.nodes| && SessionOk(w.placed, i, w.nodes[i].user, s) && TabSafe(w, i, s, None)
    requires s.pc.Some? && s.pc.value.hasLocal
    ensures SuspSafe(w, i, LocalCandidate(s, cand))
  {
  }

  /** Placing a call adds to the history only. */
  lemma PlaceSafe(w: World, i: nat, peer: User, video: bool, call: CallId)
    requires Safe(w) && i < |w.nodes| && call !in w.placed
    ensures Safe(Place(w, i, peer, video, call))
  {
    PlaceOk(w, i, peer, video, call);
    SafeGrows(w, Place(w, i, peer, video, call));
  }

  /** What the invariants say about one tab. */
  lemma TabOf(w: World, i: nat)
    requires Safe(w) && i < |w.nodes|
    ensures NodeOk(w.placed, i, w.nodes[i]) && TabSafe(w, i, w.nodes[i].s, None) && w.nodes[i].conts == []
  {
  }

  lemma StartSafe(w: World, i: nat, peer: User, video: bool, call: CallId, env: Env)
    requires Safe(w) && i < |w.nodes|
    ensures Safe(StartStep(w, i, peer, video, call, Atomic, env))
  {
    if call !in w.placed && w.nodes[i].s.phase == Idle {
      var v := Place(w, i, peer, video, call);
      PlaceSafe(w, i, peer, video, call);
      TabOf(v, i);
      BeginStartSafe(v, i, v.nodes[i].s, peer, video, call);
      PutSafe(v, i, BeginStart(v.nodes[i].s, peer, video, call), env);
    }
  }

  lemma AcceptSafe(w: World, i: nat, env: Env)
    requires Safe(w) && i < |w.nodes|
    ensures Safe(AcceptStep(w, i, Atomic, env))
  {
    var s := w.nodes[i].s;
    if s.phase == Incoming && Truthy(s.callId) && Truthy(s.peerId) {
      var c := s.callId.value;
      var v := w.(accepted := w.accepted + {(c, i)});
      SamePackets(w, v);
      SafeGrows(w, v);
      assert NodeOk(v.placed, i, v.nodes[i]);
      assert TabSafe(v, i, s, None);
      BeginAcceptSafe(v, i, s);
      PutSafe(v, i, BeginAccept(s, c, s.peerId.value), env);
    }
  }

  lemma ForwardSafe(w: World, p: Packet, friendships: Friends.Rows)
    requires Safe(w) && p in w.wire && p.Up? && p.src < |w.nodes|
    ensures Safe(ForwardStep(w, p, friendships))
  {
    var v := ForwardStep(w, p, friendships);
    ForwardOk(w, p, friendships);
    assert PacketSafe(w, p);
    forall j | 0 <= j < |v.nodes| ensures v.nodes[j].conts == [] && TabSafe(v, j, v.nodes[j].s, None) {
      assert NodeOk(w.placed, j, w.nodes[j]);
      TabGrows(w, v, j, v.nodes[j].s, None);
    }
    forall q | q in v.wire ensures PacketSafe(v, q) {
      if q in w.wire {
        assert PacketSafe(w, q);
      } else {
        assert PacketSafe(w, q);
      }
      PacketGrows(w, v, q);
    }
  }

  lemma Received(w: World, p: Packet)
    requires Safe(w) && p in w.wire && p.Down? && p.dst < |w.nodes|
    ensures Safe(Take(w, p)) && PacketOk(w, p) && PacketSafe(Take(w, p), p)
    ensures NodeOk(w.placed, p.dst, w.nodes[p.dst]) && TabSafe(Take(w, p), p.dst, w.nodes[p.dst].s, None)
  {
    var v := Take(w, p);
    TakeOk(w, p);
    SafeGrows(w, v);
    assert PacketOk(w, p) && PacketSafe(w, p);
    PacketGrows(w, v, p);
  }

  lemma DeliverSafe(w: World, p: Packet, env: Env)
    requires Safe(w) && p in w.wire && p.Down? && p.dst < |w.nodes|
    ensures Safe(DeliverStep(w, p, Atomic, env))
  {
    var v := Take(w, p);
    Received(w, p);
    BeginSignalSafe(v, p.dst, v.nodes[p.dst].s, p.sig);
    PutSafe(v, p.dst, BeginSignal(v.nodes[p.dst].s, p.sig), env);
  }

  lemma DeclineSafe(w: World, i: nat)
    requires Safe(w) && i < |w.nodes|
    ensures Safe(DeclineStep(w, i))
  {
    var s := w.nodes[i].s;
    TabOf(w, i);
    if s.phase == Incoming && Truthy(s.callId) && Truthy(s.peerId) {
      LeaveSafe(w, i, s);
      SafePut(w, i, RejectIncoming(s, s.callId.value, s.peerId.value));
    }
  }

  /** A method that has ended. */
  lemma SafePut(w: World, i: nat, x: Susp)
    requires Safe(w) && i < |w.nodes| && SuspSafe(w, i, x) && x.next.None?
    ensures Safe(Put(w, i, x))
  {
    PutSafe(w, i, x, DONE);
    SettleNone(x, DONE);
  }

  lemma EndSafe(w: World, i: nat)
    requires Safe(w) && i < |w.nodes|
    ensures Safe(Put(w, i, EndCall(w.nodes[i].s)))
  {
    TabOf(w, i);
    LeaveSafe(w, i, w.nodes[i].s);
    SafePut(w, i, EndCall(w.nodes[i].s));
  }

  lemma ConnectionStepSafe(w: World, i: nat, connected: bool)
    requires Safe(w) && i < |w.nodes|
    ensures Safe(ConnectionStep(w, i, connected))
  {
    var s := w.nodes[i].s;
    if connected ==> BothDescriptions(s) {
      TabOf(w, i);
      ConnectionSafe(w, i, s, connected);
      SafePut(w, i, Stay(ConnectionChange(s, connected)));
    }
  }

  lemma LocalIceStepSafe(w: World, i: nat, call: CallId, peer: User, cand: Candidate)
    requires Safe(w) && i < |w.nodes|
    ensures Safe(LocalIceStep(w, i, Atomic, call, peer, cand))
  {
    var s := w.nodes[i].s;
    if s.pc.Some? && s.pc.value.hasLocal {
      TabOf(w, i);
      LocalIceSafe(w, i, s, cand);
      SafePut(w, i, LocalCandidate(s, cand));
    }
  }

  lemma JoinSafe(w: World, user: User)
    requires Safe(w)
    ensures Safe(JoinStep(w, user))
  {
    JoinOk(w, user);
    SafeGrows(w, JoinStep(w, user));
  }

  lemma LoseSafe(w: World, p: Packet)
    requires Safe(w) && p in w.wire
    ensures Safe(Take(w, p))
  {
    TakeOk(w, p);
    SafeGrows(w, Take(w, p));
  }

  lemma ApplySafeWire(w: World, a: Action)
    requires Safe(w)
    requires a.Join? || a.Forward? || a.Deliver? || a.Lose?
    ensures Safe(Apply(w, a, Atomic))
  {
    var v := Apply(w, a, Atomic);
    if v != w {
      match a {
        case Join(user) =>
          assert v == JoinStep(w, user);
          JoinSafe(w, user);
        case Forward(p, friendships) =>
          assert v == ForwardStep(w, p, friendships);
          ForwardSafe(w, p, friendships);
        case Deliver(p, env) =>
          assert v == DeliverStep(w, p, Atomic, env);
          DeliverSafe(w, p, env);
        case Lose(p) =>
          assert v == Take(w, p);
          LoseSafe(w, p);
      }
    }
  }

  lemma ApplySafeCall(w: World, a: Action)
    requires Safe(w)
    requires a.Start? || a.PressAccept? || a.Settled?
    ensures Safe(Apply(w, a, Atomic))
  {
    var v := Apply(w, a, Atomic);
    if v != w {
      match a {
        case Start(i, peer, video, call, env) =>
          assert v == StartStep(w, i, peer, video, call, Atomic, env);
          StartSafe(w, i, peer, video, call, env);
        case PressAccept(i, env) =>
          assert v == AcceptStep(w, i, Atomic, env);
          AcceptSafe(w, i, env);
        case Settled(i, k, outcome) =>
          TabOf(w, i);
      }
    }
  }

  lemma ApplySafeLeave(w: World, a: Action)
    requires Safe(w)
    requires a.PressDecline? || a.PressEnd?
    ensures Safe(Apply(w, a, Atomic))
  {
    var v := Apply(w, a, Atomic);
    if v != w {
      match a {
        case PressDecline(i) =>
          assert v == DeclineStep(w, i);
          DeclineSafe(w, i);
        case PressEnd(i) =>
          assert v == Put(w, i, EndCall(w.nodes[i].s));
          EndSafe(w, i);
      }
    }
  }

  lemma ApplySafeTab(w: World, a: Action)
    requires Safe(w)
    requires a.Connection? || a.LocalIce?
    ensures Safe(Apply(w, a, Atomic))
  {
    var v := Apply(w, a, Atomic);
    if v != w {
      match a {
        case Connection(i, connected) =>
          assert v == ConnectionStep(w, i, connected);
          ConnectionStepSafe(w, i, connected);
        case LocalIce(i, call, peer, cand) =>
          assert v == LocalIceStep(w, i, Atomic, call, peer, cand);
          LocalIceStepSafe(w, i, call, peer, cand);
      }
    }
  }

  lemma ApplySafe(w: World, a: Action)
    requires Safe(w)
    ensures Safe(Apply(w, a, Atomic))
  {
    if a.Join? || a.Forward? || a.Deliver? || a.Lose? {
      ApplySafeWire(w, a);
    } else if a.Start? || a.PressAccept? || a.Settled? {
      ApplySafeCall(w, a);
    } else if a.PressDecline? || a.PressEnd? {
      ApplySafeLeave(w, a);
    } else {
      ApplySafeTab(w, a);
    }
  }

  lemma {:induction false} RunSafe(actions: seq<Action>)
    ensures Safe(Run(actions, Atomic))
  {
    if actions != [] {
      var last := |actions| - 1;
      RunSafe(actions[..last]);
      ApplySafe(Run(actions[..last], Atomic), actions[last]);
    }
  }

  // ---------- results ----------

  /** A tab that is idle or ringing holds no connection, and a tab that is in a call holds one for that call. */
  lemma ConnectionOnlyInCall(actions: seq<Action>, i: nat)
    requires i < |Run(actions, Atomic).nodes|
    ensures var s := Run(actions, Atomic).nodes[i].s;
            && (s.pc.Some? <==> s.phase.Outgoing? || s.phase.Connecting? || s.phase.Active?)
            && (s.stream <==> s.pc.Some?)
            && (s.pc.Some? ==> s.callId == Some(s.pc.value.call) && s.peerId == Some(s.pc.value.peer))
  {
    RunSafe(actions);
    var w := Run(actions, Atomic);
    assert NodeOk(w.placed, i, w.nodes[i]) && TabSafe(w, i, w.nodes[i].s, None);
  }

  /**
    Consent before media, over every run: the tab that placed a call has a remote description, or is active,
    only if some tab of the invited user accepted that call; any other tab gets past ringing only if it
    accepted the call itself.
  */
  lemma ConsentBeforeMedia(actions: seq<Action>, i: nat, c: CallId)
    requires i < |Run(actions, Atomic).nodes| && Run(actions, Atomic).nodes[i].s.callId == Some(c)
    ensures var w := Run(actions, Atomic); var s := w.nodes[i].s;
            && c in w.placed
            && (w.placed[c].tab == i && (s.phase.Active? || (s.pc.Some? && s.pc.value.hasRemote)) ==>
                  exists j :: 0 <= j < |w.nodes| && (c, j) in w.accepted && w.nodes[j].user == w.placed[c].callee)
            && (w.placed[c].tab != i && !s.phase.Incoming? ==> (c, i) in w.accepted)
  {
    RunSafe(actions);
    var w := Run(actions, Atomic);
    assert NodeOk(w.placed, i, w.nodes[i]) && TabSafe(w, i, w.nodes[i].s, None);
  }

  /**
    Candidate conservation, over every run: the candidates given to a connection followed by the queue are
    exactly those that arrived for it, in order, and none is given before the remote description is set.
  */
  lemma CandidatesConserved(actions: seq<Action>, i: nat)
    requires i < |Run(actions, Atomic).nodes| && Run(actions, Atomic).nodes[i].s.pc.Some?
    ensures var s := Run(actions, Atomic).nodes[i].s; var pc := s.pc.value;
            && pc.given + s.pendingIce == pc.seen
            && (pc.hasRemote ==> s.pendingIce == [] && pc.given == pc.seen)
            && (!pc.hasRemote ==> pc.given == [] && s.pendingIce == pc.seen)
  {
    RunSafe(actions);
    var w := Run(actions, Atomic);
    var s := w.nodes[i].s;
    assert TabSafe(w, i, s, None);
    IceOkMeans(s);
  }

  lemma IceOkMeans(s: Session)
    requires IceOk(s, None) && s.pc.Some?
    ensures s.pc.value.given + s.pendingIce == s.pc.value.seen
    ensures s.pc.value.hasRemote ==> s.pendingIce == [] && s.pc.value.given == s.pc.value.seen
    ensures !s.pc.value.hasRemote ==> s.pc.value.given == [] && s.pendingIce == s.pc.value.seen
  {
    var pc := s.pc.value;
    assert pc.given + [] == pc.given;
    assert s.pendingIce == [] ==> pc.given + s.pendingIce == pc.given;
    assert pc.given == [] ==> pc.given + s.pendingIce == s.pendingIce;
  }

  /** The arrivals recorded for a connection are exactly the candidates delivered for its call by its peer. */
  lemma ArrivalsAreDeliveries(w: World, i: nat, s: Session, sig: Signal, env: Env)
    requires i < |w.nodes| && SessionOk(w.placed, i, w.nodes[i].user, s) && TabSafe(w, i, s, None)
    requires s.pc.Some? && Settle(BeginSignal(s, sig), env).s.pc.Some?
    ensures var t := Settle(BeginSignal(s, sig), env).s;
            && t.pc.value.id == s.pc.value.id
            && t.pc.value.seen == if Arrives(s, sig) then s.pc.value.seen + [sig.raw.cand.value] else s.pc.value.seen
  {
    BeginningArrives(s, sig);
    SettleKeepsArrivals(BeginSignal(s, sig), env);
  }

  /** A candidate for the tab's call from its peer. */
  predicate Arrives(s: Session, sig: Signal) {
    sig.Relayed? && sig.from != "" && sig.raw.kind.Ice? && sig.raw.call != "" && sig.raw.cand.Some?
    && s.callId == Some(sig.raw.call) && s.peerId == Some(sig.from)
  }

  lemma BeginningArrives(s: Session, sig: Signal)
    requires s.pc.Some?
    ensures var x := BeginSignal(s, sig);
            && NoMedia(x.next) && (x.s.pc.None? ==> x.next.None?)
            && (x.s.pc.Some? ==>
                  && x.s.pc.value.id == s.pc.value.id
                  && x.s.pc.value.seen == if Arrives(s, sig) then s.pc.value.seen + [sig.raw.cand.value] else s.pc.value.seen)
  {
  }

  predicate NoMedia(next: Option<Cont>) {
    next.Some? ==> !next.value.MediaOut? && !next.value.MediaIn?
  }

  lemma ResumeKeepsArrivals(s: Session, k: Cont, outcome: Option<string>)
    requires s.pc.Some? && !k.MediaOut? && !k.MediaIn?
    ensures var y := Resume(s, k, outcome);
            && NoMedia(y.next)
            && (y.s.pc.Some? ==> y.s.pc.value.id == s.pc.value.id && y.s.pc.value.seen == s.pc.value.seen)
            && (y.s.pc.None? ==> y.next.None?)
  {
  }

  lemma {:induction false} SettleKeepsArrivals(x: Susp, env: Env)
    requires NoMedia(x.next) && (x.s.pc.None? ==> x.next.None?)
    ensures var t := Settle(x, env).s;
            t.pc.Some? ==> x.s.pc.Some? && t.pc.value.id == x.s.pc.value.id && t.pc.value.seen == x.s.pc.value.seen
    decreases Rank(x.next), if x.next.Some? && x.next.value.Flushing? then |x.next.value.rest| else 0
  {
    if x.next.Some? {
      var y := Resume(x.s, x.next.value, OutcomeFor(x.next.value, env));
      ResumeKeepsArrivals(x.s, x.next.value, OutcomeFor(x.next.value, env));
      SettleKeepsArrivals(Susp(y.s, x.sent + y.sent, y.next), env);
    }
  }
}
