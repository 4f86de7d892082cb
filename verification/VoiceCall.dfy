/**
  One browser tab of the 1:1 call protocol (frontend/lib/voiceCall.ts).

  A method of the manager runs without interruption until it awaits the browser. Begin functions give the
  state at the first await together with the continuation; Resume runs one continuation to the next await.
  Settle runs a method to its end, as if nothing happened in the tab while it was waiting.
*/
module VoiceCall {
  import opened Common

  type User = string
  type CallId = string
  type Candidate = int

  datatype Phase = Idle | Outgoing | Incoming | Connecting | Active

  datatype Kind = Invite | Accept | Reject | End | Offer | Answer | Ice | Unknown(name: string)

  /** A message a client writes to the signaling socket; "" stands for a missing or null member. */
  datatype Raw = Raw(kind: Kind, call: CallId, to: User, video: bool, sdp: string, cand: Option<Candidate>)

  /** A message a client receives: the server's own error, or a relayed one stamped with its sender. */
  datatype Signal = ServerError | Relayed(from: User, raw: Raw)

  /**
    A peer connection. call and peer are what its candidate callback captured, given lists the candidates
    passed to it, and seen is a history of every candidate that arrived for the call since it was created.
  */
  datatype Pc = Pc(id: nat, call: CallId, peer: User, hasLocal: bool, hasRemote: bool,
                   given: seq<Candidate>, seen: seq<Candidate>)

  datatype Session = Session(phase: Phase, callId: Option<CallId>, peerId: Option<User>, pc: Option<Pc>,
                             stream: bool, pendingIce: seq<Candidate>, video: bool, nextPc: nat)

  const FRESH := Session(Idle, None, None, None, false, [], false, 0)

  /** What a suspended method is waiting for; pc is the connection whose promise it awaits. */
  datatype Cont =
    | MediaOut(call: CallId, peer: User, video: bool)
    | MediaIn(call: CallId, peer: User)
    | CreatingOffer(pc: nat)
    | SettingOffer(pc: nat, sdp: string)
    | SettingRemote(pc: nat, answering: bool)
    | Flushing(pc: nat, rest: seq<Candidate>, answering: bool)
    | CreatingAnswer(pc: nat)
    | SettingAnswer(pc: nat, sdp: string)
    | AddingIce

  /** The state at an await or at the end of a method, with the messages sent on the way. */
  datatype Susp = Susp(s: Session, sent: seq<Raw>, next: Option<Cont>)

  /** How the browser answers the awaits of one method call; a missing answer is a rejection. */
  datatype Env = Env(media: bool, create: Option<string>, local: bool, remote: bool)

  // ---------- the methods, piece by piece ----------

  function Plain(kind: Kind, call: CallId, to: User): Raw {
    Raw(kind, call, to, false, "", None)
  }

  function Stay(s: Session): Susp {
    Susp(s, [], None)
  }

  function Cleanup(s: Session): Session {
    Session(Idle, None, None, None, false, [], false, s.nextPc)
  }

  function NewPc(s: Session, call: CallId, peer: User): Session {
    s.(stream := true, pc := Some(Pc(s.nextPc, call, peer, false, false, [], [])), nextPc := s.nextPc + 1)
  }

  function BeginStart(s: Session, peer: User, video: bool, call: CallId): Susp {
    if s.phase != Idle then Stay(s)
    else Susp(s.(phase := Outgoing, callId := Some(call), peerId := Some(peer), video := video), [],
              Some(MediaOut(call, peer, video)))
  }

  function BeginAccept(s: Session, call: CallId, from: User): Susp {
    if s.phase != Incoming || s.callId != Some(call) then Stay(s)
    else Susp(s.(phase := Connecting, peerId := Some(from)), [], Some(MediaIn(call, from)))
  }

  function RejectIncoming(s: Session, call: CallId, from: User): Susp {
    if s.phase != Incoming || s.callId != Some(call) then Stay(s)
    else Susp(Cleanup(s), [Plain(Reject, call, from)], None)
  }

  function EndCall(s: Session): Susp {
    if s.phase == Idle then Stay(s)
    else
      var sent := if Truthy(s.callId) && Truthy(s.peerId)
                  then [Plain(if s.phase == Incoming then Reject else End, s.callId.value, s.peerId.value)]
                  else [];
      Susp(Cleanup(s), sent, None)
  }

  /** The connection state callback, which reads the connection the tab holds now. */
  function ConnectionChange(s: Session, connected: bool): Session {
    if s.pc.None? then s
    else if !connected then Cleanup(s)
    else if s.phase != Idle then s.(phase := Active)
    else s
  }

  /** The local candidate callback of the connection the tab holds. */
  function LocalCandidate(s: Session, c: Candidate): Susp {
    if s.pc.None? || !Truthy(s.callId) then Stay(s)
    else Susp(s, [Raw(Ice, s.pc.value.call, s.pc.value.peer, false, "", Some(c))], None)
  }

  function AddIce(s: Session, c: Candidate): Susp {
    if s.pc.None? then Stay(s)
    else
      var pc := s.pc.value.(seen := s.pc.value.seen + [c]);
      if !pc.hasRemote then Stay(s.(pc := Some(pc), pendingIce := s.pendingIce + [c]))
      else Susp(s.(pc := Some(pc.(given := pc.given + [c]))), [], Some(AddingIce))
  }

  function BeginSignal(s: Session, sig: Signal): Susp {
    match sig
    case ServerError => Stay(if s.phase != Idle then Cleanup(s) else s)
    case Relayed(from, raw) =>
      if from == "" then Stay(s)
      else if raw.kind.Invite? then
        if raw.call == "" || s.phase != Idle then Stay(s)
        else Stay(s.(video := raw.video, phase := Incoming, callId := Some(raw.call), peerId := Some(from)))
      else if raw.call == "" || s.callId != Some(raw.call) then Stay(s)
      else
        var fromPeer := s.peerId == Some(from);
        match raw.kind
        case Accept =>
          if s.phase != Outgoing || !fromPeer || s.pc.None? then Stay(s) else Susp(s, [], Some(CreatingOffer(s.pc.value.id)))
        case Offer =>
          if s.phase != Connecting || !fromPeer || s.pc.None? || raw.sdp == "" then Stay(s)
          else Susp(s, [], Some(SettingRemote(s.pc.value.id, true)))
        case Answer =>
          if (s.phase != Outgoing && s.phase != Connecting) || !fromPeer || s.pc.None? || raw.sdp == "" then Stay(s)
          else Susp(s, [], Some(SettingRemote(s.pc.value.id, false)))
        case Ice =>
          if !fromPeer || raw.cand.None? then Stay(s) else AddIce(s, raw.cand.value)
        case Reject => Stay(if fromPeer then Cleanup(s) else s)
        case End => Stay(if fromPeer then Cleanup(s) else s)
        case _ => Stay(s)
  }

  /** A description takes effect on the connection it was set on, if the tab still holds that one. */
  function MarkLocal(s: Session, pc: nat): Session {
    if s.pc.Some? && s.pc.value.id == pc then s.(pc := Some(s.pc.value.(hasLocal := true))) else s
  }

  function MarkRemote(s: Session, pc: nat): Session {
    if s.pc.Some? && s.pc.value.id == pc then s.(pc := Some(s.pc.value.(hasRemote := true))) else s
  }

  function AfterFlush(s: Session, answering: bool): Susp {
    if !answering then Stay(s)
    else if s.pc.None? then Stay(Cleanup(s))
    else Susp(s, [], Some(CreatingAnswer(s.pc.value.id)))
  }

  function FlushNext(s: Session, rest: seq<Candidate>, answering: bool): Susp {
    if s.pc.None? || rest == [] then AfterFlush(s, answering)
    else
      var pc := s.pc.value;
      Susp(s.(pc := Some(pc.(given := pc.given + [rest[0]]))), [], Some(Flushing(pc.id, rest[1..], answering)))
  }

  function Flush(s: Session, answering: bool): Susp {
    if s.pc.None? then AfterFlush(s, answering) else FlushNext(s.(pendingIce := []), s.pendingIce, answering)
  }

  /** Runs one continuation up to the next await; outcome is None when the awaited promise rejects. */
  function Resume(s: Session, k: Cont, outcome: Option<string>): Susp {
    match k
    case MediaOut(call, peer, video) =>
      if outcome.None? then Stay(Cleanup(s))
      else Susp(NewPc(s, call, peer), [Plain(Invite, call, peer).(video := video)], None)
    case MediaIn(call, peer) =>
      if outcome.None? then Susp(Cleanup(s), [Plain(Reject, call, peer)], None)
      else Susp(NewPc(s, call, peer), [Plain(Accept, call, peer)], None)
    case CreatingOffer(_) =>
      if outcome.None? || s.pc.None? then Stay(Cleanup(s))
      else Susp(s, [], Some(SettingOffer(s.pc.value.id, outcome.value)))
    case SettingOffer(pc, sdp) =>
      if outcome.None? then Stay(Cleanup(s))
      else Susp(MarkLocal(s, pc), [Plain(Offer, OrEmpty(s.callId), OrEmpty(s.peerId)).(sdp := sdp)], None)
    case SettingRemote(pc, answering) =>
      if outcome.None? then Stay(Cleanup(s)) else Flush(MarkRemote(s, pc), answering)
    case Flushing(_, rest, answering) => FlushNext(s, rest, answering)
    case CreatingAnswer(_) =>
      if outcome.None? || s.pc.None? then Stay(Cleanup(s))
      else Susp(s, [], Some(SettingAnswer(s.pc.value.id, outcome.value)))
    case SettingAnswer(pc, sdp) =>
      if outcome.None? then Stay(Cleanup(s))
      else Susp(MarkLocal(s, pc), [Plain(Answer, OrEmpty(s.callId), OrEmpty(s.peerId)).(sdp := sdp)], None)
    case AddingIce => Stay(s)
  }

  function OutcomeFor(k: Cont, env: Env): Option<string> {
    match k
    case MediaOut(_, _, _) => if env.media then Some("") else None
    case MediaIn(_, _) => if env.media then Some("") else None
    case CreatingOffer(_) => env.create
    case CreatingAnswer(_) => env.create
    case SettingOffer(_, _) => if env.local then Some("") else None
    case SettingAnswer(_, _) => if env.local then Some("") else None
    case SettingRemote(_, _) => if env.remote then Some("") else None
    case _ => Some("")
  }

  function Rank(next: Option<Cont>): nat {
    match next
    case None => 0
    case Some(SettingRemote(_, _)) => 4
    case Some(Flushing(_, _, _)) => 3
    case Some(CreatingOffer(_)) => 2
    case Some(CreatingAnswer(_)) => 2
    case _ => 1
  }

  function Settle(x: Susp, env: Env): (r: Susp)
    ensures r.next.None?
    decreases Rank(x.next), if x.next.Some? && x.next.value.Flushing? then |x.next.value.rest| else 0
  {
    if x.next.None? then x
    else
      var y := Resume(x.s, x.next.value, OutcomeFor(x.next.value, env));
      Settle(Susp(y.s, x.sent + y.sent, y.next), env)
  }

  /** A method that waits for nothing is at its end. */
  lemma SettleNone(x: Susp, env: Env)
    requires x.next.None?
    ensures Settle(x, env) == x
  {
  }

  /** Flushing hands over the whole queue, in order, before the method goes on. */
  lemma {:induction false} SettleFlush(s: Session, rest: seq<Candidate>, answering: bool, env: Env)
    requires s.pc.Some?
    ensures Settle(FlushNext(s, rest, answering), env)
         == Settle(AfterFlush(s.(pc := Some(s.pc.value.(given := s.pc.value.given + rest))), answering), env)
    decreases |rest|
  {
    var pc := s.pc.value;
    if rest == [] {
      assert pc.given + rest == pc.given;
    } else {
      var x := FlushNext(s, rest, answering);
      SettleWait(x, FlushNext(x.s, rest[1..], answering), env);
      SettleFlush(x.s, rest[1..], answering, env);
      assert pc.given + [rest[0]] + rest[1..] == pc.given + rest;
    }
  }

  /** One silent wait: a method that has sent nothing yet goes on from what its continuation gives. */
  lemma SettleWait(x: Susp, y: Susp, env: Env)
    requires x.next.Some? && x.sent == []
    requires y == Resume(x.s, x.next.value, OutcomeFor(x.next.value, env))
    ensures Settle(x, env) == Settle(y, env)
  {
    assert Susp(y.s, [] + y.sent, y.next) == y;
  }

  /** The end of a method that creates a description, sets it locally and sends it. */
  lemma SettleDescription(s: Session, answering: bool, env: Env)
    requires s.pc.Some?
    ensures Settle(Susp(s, [], Some(if answering then CreatingAnswer(s.pc.value.id) else CreatingOffer(s.pc.value.id))), env)
         == if env.create.None? || !env.local then Stay(Cleanup(s))
            else Susp(MarkLocal(s, s.pc.value.id),
                      [Plain(if answering then Answer else Offer, OrEmpty(s.callId), OrEmpty(s.peerId))
                         .(sdp := env.create.value)], None)
  {
    if env.create.Some? {
      var pc, sdp := s.pc.value.id, env.create.value;
      var x := Susp(s, [], Some(if answering then SettingAnswer(pc, sdp) else SettingOffer(pc, sdp)));
      SettleWait(x, Resume(s, x.next.value, OutcomeFor(x.next.value, env)), env);
    }
  }

  // ---------- the manager object ----------

  class VoiceCallManager {
    var phase: Phase
    var callId: Option<CallId>
    var peerId: Option<User>
    var pc: Option<Pc>
    var localStream: bool
    var pendingIce: seq<Candidate>
    var videoCall: bool
    var nextPc: nat
    /** Everything handed to sendRaw so far. */
    var outbox: seq<Raw>

    ghost function View(): Session
      reads this
    {
      Session(phase, callId, peerId, pc, localStream, pendingIce, videoCall, nextPc)
    }

    /** The call that ran to its end left exactly this behind. */
    twostate predicate Did(r: Susp)
      reads this
    {
      View() == r.s && outbox == old(outbox) + r.sent
    }

    constructor ()
      ensures View() == FRESH && outbox == []
    {
      phase, callId, peerId, pc := Idle, None, None, None;
      localStream, pendingIce, videoCall, nextPc, outbox := false, [], false, 0, [];
    }

    method Send(r: Raw)
      modifies this`outbox
      ensures outbox == old(outbox) + [r]
    {
      outbox := outbox + [r];
    }

    method Clean()
      modifies this
      ensures Did(Stay(Cleanup(old(View()))))
      ensures View() == Session(Idle, None, None, None, false, [], false, old(nextPc))
    {
      pc := None;
      localStream := false;
      pendingIce := [];
      callId := None;
      peerId := None;
      phase := Idle;
      videoCall := false;
    }

    method OpenPc(call: CallId, peer: User)
      modifies this`localStream, this`pc, this`nextPc
      ensures View() == NewPc(old(View()), call, peer)
    {
      localStream := true;
      pc := Some(Pc(nextPc, call, peer, false, false, [], []));
      nextPc := nextPc + 1;
    }

    method StartOutgoing(peer: User, video: bool, newId: CallId, env: Env)
      modifies this
      ensures Did(Settle(BeginStart(old(View()), peer, video, newId), env))
      ensures old(phase) != Idle ==> View() == old(View()) && outbox == old(outbox)
      ensures old(phase) == Idle && !env.media ==> phase == Idle && callId == None && outbox == old(outbox)
      ensures old(phase) == Idle && env.media ==>
                phase == Outgoing && callId == Some(newId) && peerId == Some(peer) && pc.Some? && localStream
                && outbox == old(outbox) + [Raw(Invite, newId, peer, video, "", None)]
    {
      if phase != Idle {
        return;
      }
      callId := Some(newId);
      peerId := Some(peer);
      videoCall := video;
      phase := Outgoing;
      if !env.media {
        Clean();
        return;
      }
      OpenPc(newId, peer);
      Send(Raw(Invite, newId, peer, video, "", None));
    }

    method AcceptIncoming(call: CallId, from: User, env: Env)
      modifies this
      ensures Did(Settle(BeginAccept(old(View()), call, from), env))
      ensures old(phase) != Incoming || old(callId) != Some(call) ==> View() == old(View()) && outbox == old(outbox)
      ensures old(phase) == Incoming && old(callId) == Some(call) && !env.media ==>
                phase == Idle && callId == None && pc == None && outbox == old(outbox) + [Plain(Reject, call, from)]
      ensures old(phase) == Incoming && old(callId) == Some(call) && env.media ==>
                phase == Connecting && callId == Some(call) && peerId == Some(from) && pc.Some? && localStream
                && outbox == old(outbox) + [Plain(Accept, call, from)]
    {
      if phase != Incoming || callId != Some(call) {
        return;
      }
      peerId := Some(from);
      phase := Connecting;
      if !env.media {
        Send(Plain(Reject, call, from));
        Clean();
        return;
      }
      OpenPc(call, from);
      Send(Plain(Accept, call, from));
    }

    method Decline(call: CallId, from: User)
      modifies this
      ensures Did(RejectIncoming(old(View()), call, from))
      ensures old(phase) != Incoming || old(callId) != Some(call) ==> View() == old(View()) && outbox == old(outbox)
      ensures old(phase) == Incoming && old(callId) == Some(call) ==>
                phase == Idle && callId == None && peerId == None && outbox == old(outbox) + [Plain(Reject, call, from)]
    {
      if phase != Incoming || callId != Some(call) {
        return;
      }
      Send(Plain(Reject, call, from));
      Clean();
    }

    method HangUp()
      modifies this
      ensures Did(EndCall(old(View())))
      ensures old(phase) == Idle ==> View() == old(View()) && outbox == old(outbox)
      ensures old(phase) != Idle ==> phase == Idle && callId == None && pc == None && !localStream
      ensures old(phase) != Idle && Truthy(old(callId)) && Truthy(old(peerId)) ==>
                outbox == old(outbox) + [Plain(if old(phase) == Incoming then Reject else End,
                                               old(callId).value, old(peerId).value)]
    {
      if phase == Idle {
        return;
      }
      if Truthy(callId) && Truthy(peerId) && phase != Incoming {
        Send(Plain(End, callId.value, peerId.value));
      } else if Truthy(callId) && Truthy(peerId) && phase == Incoming {
        Send(Plain(Reject, callId.value, peerId.value));
      }
      Clean();
    }

    method FlushPendingIce()
      modifies this`pc, this`pendingIce
      ensures old(pc).None? ==> pc.None? && pendingIce == old(pendingIce)
      ensures old(pc).Some? ==> pendingIce == []
      ensures old(pc).Some? ==> pc == Some(old(pc).value.(given := old(pc).value.given + old(pendingIce)))
    {
      if pc.None? {
        return;
      }
      var copy := pendingIce;
      pendingIce := [];
      var i := 0;
      while i < |copy|
        invariant 0 <= i <= |copy|
        invariant pc.Some? && pc.value == old(pc).value.(given := pc.value.given)
        invariant pc.value.given == old(pc).value.given + copy[..i]
        invariant pendingIce == []
      {
        pc := Some(pc.value.(given := pc.value.given + [copy[i]]));
        assert copy[..i] + [copy[i]] == copy[..i + 1];
        i := i + 1;
      }
      assert copy[..i] == copy;
    }

    method AddIceCandidate(c: Candidate)
      modifies this`pc, this`pendingIce
      ensures View() == AddIce(old(View()), c).s
    {
      if pc.None? {
        return;
      }
      pc := Some(pc.value.(seen := pc.value.seen + [c]));
      if !pc.value.hasRemote {
        pendingIce := pendingIce + [c];
        return;
      }
      pc := Some(pc.value.(given := pc.value.given + [c]));
    }

    method SendOffer(env: Env)
      requires pc.Some?
      modifies this
      ensures Did(Settle(Susp(old(View()), [], Some(CreatingOffer(old(pc).value.id))), env))
    {
      SettleDescription(View(), false, env);
      if env.create.None? || !env.local {
        Clean();
        return;
      }
      pc := Some(pc.value.(hasLocal := true));
      Send(Plain(Offer, OrEmpty(callId), OrEmpty(peerId)).(sdp := env.create.value));
    }

    method TakeRemote(answering: bool, env: Env)
      requires pc.Some?
      modifies this
      ensures Did(Settle(Susp(old(View()), [], Some(SettingRemote(old(pc).value.id, answering))), env))
    {
      ghost var start := View();
      if !env.remote {
        Clean();
        return;
      }
      pc := Some(pc.value.(hasRemote := true));
      ghost var marked := View();
      FlushPendingIce();
      SettleFlush(marked.(pendingIce := []), marked.pendingIce, answering, env);
      assert Settle(Susp(start, [], Some(SettingRemote(start.pc.value.id, answering))), env)
          == Settle(AfterFlush(View(), answering), env) by {
        SettleWait(Susp(start, [], Some(SettingRemote(start.pc.value.id, answering))), Flush(marked, answering), env);
      }
      if answering {
        SettleDescription(View(), true, env);
        if env.create.None? || !env.local {
          Clean();
          return;
        }
        pc := Some(pc.value.(hasLocal := true));
        Send(Plain(Answer, OrEmpty(callId), OrEmpty(peerId)).(sdp := env.create.value));
      }
    }

    method HandleSignal(sig: Signal, env: Env)
      modifies this
      ensures Did(Settle(BeginSignal(old(View()), sig), env))
      ensures sig.ServerError? && old(phase) != Idle ==> phase == Idle && callId == None && pc == None && !localStream
    {
      if sig.ServerError? {
        if phase != Idle {
          Clean();
        }
        return;
      }
      var from, raw := sig.from, sig.raw;
      if from == "" {
        return;
      }
      if raw.kind.Invite? {
        if raw.call == "" || phase != Idle {
          return;
        }
        videoCall := raw.video;
        phase := Incoming;
        callId := Some(raw.call);
        peerId := Some(from);
        return;
      }
      if raw.call == "" || callId != Some(raw.call) {
        return;
      }
      if raw.kind.Accept? {
        if phase != Outgoing || peerId != Some(from) || pc.None? {
          return;
        }
        SendOffer(env);
        return;
      }
      if raw.kind.Offer? {
        if phase != Connecting || peerId != Some(from) || pc.None? || raw.sdp == "" {
          return;
        }
        TakeRemote(true, env);
        return;
      }
      if raw.kind.Answer? {
        if (phase != Outgoing && phase != Connecting) || peerId != Some(from) || pc.None? || raw.sdp == "" {
          return;
        }
        TakeRemote(false, env);
        return;
      }
      if raw.kind.Ice? {
        if peerId != Some(from) || raw.cand.None? {
          return;
        }
        AddIceCandidate(raw.cand.value);
        return;
      }
      if raw.kind.Reject? || raw.kind.End? {
        if peerId != Some(from) {
          return;
        }
        Clean();
        return;
      }
    }

    method OnConnectionState(connected: bool)
      modifies this
      ensures Did(Stay(ConnectionChange(old(View()), connected)))
      ensures old(pc).Some? && !connected ==> phase == Idle && callId == None && pc == None && !localStream
      ensures old(pc).Some? && connected && old(phase) != Idle ==> phase == Active
      ensures old(pc).None? || connected ==> pc == old(pc) && callId == old(callId)
    {
      if pc.None? {
        return;
      }
      if connected && phase != Idle {
        phase := Active;
      }
      if !connected {
        Clean();
      }
    }

    method OnLocalCandidate(c: Candidate)
      modifies this`outbox
      ensures Did(LocalCandidate(old(View()), c))
      ensures old(pc).Some? && Truthy(old(callId)) ==>
                outbox == old(outbox) + [Raw(Ice, old(pc).value.call, old(pc).value.peer, false, "", Some(c))]
    {
      if pc.Some? && Truthy(callId) {
        Send(Raw(Ice, pc.value.call, pc.value.peer, false, "", Some(c)));
      }
    }
  }
}
