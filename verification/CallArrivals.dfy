/** Conservation of candidates when other steps get in at the awaits: as a collection, while a connection stays. */
module CallArrivals {
  import opened Common
  import opened VoiceCall
  import opened CallWorld

  // Collections are compared one candidate at a time.

  function Times(cs: seq<Candidate>, c: Candidate): nat {
    multiset(cs)[c]
  }

  lemma TimesJoined(a: seq<Candidate>, b: seq<Candidate>, c: Candidate)
    ensures Times(a + b, c) == Times(a, c) + Times(b, c)
  {
  }

  lemma TimesOfFirst(cs: seq<Candidate>, c: Candidate)
    requires cs != []
    ensures Times(cs, c) == Times([cs[0]], c) + Times(cs[1..], c)
  {
    TimesJoined([cs[0]], cs[1..], c);
    assert [cs[0]] + cs[1..] == cs;
  }

  /** How often a suspended flush has still to give the candidate to a connection. */
  function Part(k: Cont, pc: nat, c: Candidate): nat {
    if k.Flushing? && k.pc == pc then Times(k.rest, c) else 0
  }

  function PartOf(next: Option<Cont>, pc: nat, c: Candidate): nat {
    if next.Some? then Part(next.value, pc, c) else 0
  }

  function Waiting(conts: seq<Cont>, pc: nat, c: Candidate): nat {
    if conts == [] then 0 else Waiting(conts[..|conts| - 1], pc, c) + Part(conts[|conts| - 1], pc, c)
  }

  lemma WaitingMore(conts: seq<Cont>, k: Cont, pc: nat, c: Candidate)
    ensures Waiting(conts + [k], pc, c) == Waiting(conts, pc, c) + Part(k, pc, c)
  {
    assert (conts + [k])[..|conts|] == conts;
  }

  lemma LastStays(conts: seq<Cont>, k: nat)
    requires k < |conts| - 1
    ensures var most := conts[..|conts| - 1];
            most[..k] + most[k + 1..] + [conts[|conts| - 1]] == conts[..k] + conts[k + 1..]
  {
  }

  lemma {:induction false} WaitingWithout(conts: seq<Cont>, k: nat, pc: nat, c: Candidate)
    requires k < |conts|
    ensures Waiting(conts, pc, c) == Waiting(conts[..k] + conts[k + 1..], pc, c) + Part(conts[k], pc, c)
  {
    var last := |conts| - 1;
    if k == last {
      assert conts[..k] + conts[k + 1..] == conts[..last];
    } else {
      var most := conts[..last];
      WaitingWithout(most, k, pc, c);
      WaitingMore(most[..k] + most[k + 1..], conts[last], pc, c);
      LastStays(conts, k);
    }
  }

  predicate Earlier(k: Cont, next: nat) {
    k.Flushing? ==> k.pc < next
  }

  lemma {:induction false} NothingWaits(conts: seq<Cont>, pc: nat, c: Candidate)
    requires forall k | k in conts :: Earlier(k, pc)
    ensures Waiting(conts, pc, c) == 0
  {
    if conts != [] {
      assert conts[|conts| - 1] in conts;
      NothingWaits(conts[..|conts| - 1], pc, c);
    }
  }

  /** Given and queued. */
  function Total(s: Session, c: Candidate): nat
    requires s.pc.Some?
  {
    Times(s.pc.value.given, c) + Times(s.pendingIce, c)
  }

  function Seen(s: Session, c: Candidate): nat
    requires s.pc.Some?
  {
    Times(s.pc.value.seen, c)
  }

  predicate SamePc(s: Session, t: Session) {
    s.pc.Some? && t.pc.Some? && s.pc.value.id == t.pc.value.id
  }

  /** Given, queued and waiting candidates together are those that arrived for the connection. */
  predicate Conserved(s: Session, conts: seq<Cont>, c: Candidate) {
    && (s.pc.None? ==> s.pendingIce == [])
    && (forall k | k in conts :: Earlier(k, s.nextPc))
    && (s.pc.Some? ==>
          && s.pc.value.id < s.nextPc
          && Total(s, c) + Waiting(conts, s.pc.value.id, c) == Seen(s, c))
  }

  /** A piece of a method that had spent still to give leaves the same difference to the arrivals. */
  predicate Keeps(s: Session, spent: nat, x: Susp, c: Candidate) {
    && s.nextPc <= x.s.nextPc
    && (x.s.pc.None? ==> x.s.pendingIce == [])
    && (x.next.Some? ==> Earlier(x.next.value, x.s.nextPc))
    && (SamePc(s, x.s) ==> Total(x.s, c) + PartOf(x.next, s.pc.value.id, c) + Seen(s, c) == Total(s, c) + spent + Seen(x.s, c))
    && (x.s.pc.Some? && !SamePc(s, x.s) ==>
          && s.nextPc <= x.s.pc.value.id < x.s.nextPc && x.next.None?
          && x.s.pc.value.given == [] && x.s.pendingIce == [] && x.s.pc.value.seen == [])
  }

  predicate Start(s: Session) {
    (s.pc.None? ==> s.pendingIce == []) && (s.pc.Some? ==> s.pc.value.id < s.nextPc)
  }

  // ---------- the pieces ----------

  lemma AddIceKeeps(s: Session, d: Candidate, c: Candidate)
    requires Start(s)
    ensures Keeps(s, 0, AddIce(s, d), c)
  {
    if s.pc.Some? {
      TimesJoined(s.pc.value.given, [d], c);
      TimesJoined(s.pendingIce, [d], c);
      TimesJoined(s.pc.value.seen, [d], c);
    }
  }

  /** A step that leaves the connection and its queue alone, or ends the call. */
  predicate Leaves(s: Session, x: Susp) {
    && x.s.nextPc == s.nextPc && (x.next.Some? ==> !x.next.value.Flushing?)
    && ((x.s.pc.None? && x.s.pendingIce == [])
        || (x.s.pendingIce == s.pendingIce
            && (if s.pc.None? then x.s.pc.None?
                else x.s.pc.Some? && x.s.pc.value.id == s.pc.value.id
                     && x.s.pc.value.given == s.pc.value.given && x.s.pc.value.seen == s.pc.value.seen)))
  }

  lemma LeavingKeeps(s: Session, x: Susp, c: Candidate)
    requires Start(s) && Leaves(s, x)
    ensures Keeps(s, 0, x, c)
  {
  }

  lemma OtherSignalLeaves(s: Session, sig: Signal)
    requires sig.Relayed? ==> !sig.raw.kind.Ice?
    ensures Leaves(s, BeginSignal(s, sig))
  {
  }

  lemma IceIsAdded(s: Session, sig: Signal)
    requires sig.Relayed? && sig.raw.kind.Ice?
    ensures BeginSignal(s, sig) == Stay(s) || (sig.raw.cand.Some? && BeginSignal(s, sig) == AddIce(s, sig.raw.cand.value))
  {
  }

  lemma BeginSignalKeeps(s: Session, sig: Signal, c: Candidate)
    requires Start(s)
    ensures Keeps(s, 0, BeginSignal(s, sig), c)
  {
    if sig.Relayed? && sig.raw.kind.Ice? {
      IceIsAdded(s, sig);
      LeavingKeeps(s, Stay(s), c);
      if sig.raw.cand.Some? {
        AddIceKeeps(s, sig.raw.cand.value, c);
      }
    } else {
      OtherSignalLeaves(s, sig);
      LeavingKeeps(s, BeginSignal(s, sig), c);
    }
  }

  lemma FlushNextKeeps(s: Session, rest: seq<Candidate>, answering: bool, c: Candidate)
    requires Start(s)
    ensures Keeps(s, Times(rest, c), FlushNext(s, rest, answering), c)
  {
    if s.pc.Some? && rest != [] {
      TimesOfFirst(rest, c);
      TimesJoined(s.pc.value.given, [rest[0]], c);
    }
  }

  lemma RemoteKeeps(s: Session, k: Cont, outcome: Option<string>, c: Candidate)
    requires Start(s) && k.SettingRemote?
    ensures Keeps(s, 0, Resume(s, k, outcome), c)
  {
    if outcome.Some? && s.pc.Some? {
      var m := MarkRemote(s, k.pc).(pendingIce := []);
      FlushNextKeeps(m, s.pendingIce, k.answering, c);
      assert Resume(s, k, outcome) == FlushNext(m, s.pendingIce, k.answering);
      assert Total(m, c) + Times(s.pendingIce, c) == Total(s, c) && Seen(m, c) == Seen(s, c);
    } else {
      LeavingKeeps(s, Resume(s, k, outcome), c);
    }
  }

  /** A grant to a tab that already holds a connection replaces it. */
  predicate Replaces(s: Session, k: Cont, outcome: Option<string>) {
    (k.MediaOut? || k.MediaIn?) && outcome.Some? && s.pc.Some?
  }

  /** A flush that was begun for another connection goes on with the one the tab holds now. */
  predicate Strays(s: Session, k: Cont) {
    k.Flushing? && k.rest != [] && s.pc.Some? && s.pc.value.id != k.pc
  }

  lemma MediaKeeps(s: Session, k: Cont, outcome: Option<string>, c: Candidate)
    requires Start(s) && (k.MediaOut? || k.MediaIn?) && !Replaces(s, k, outcome)
    ensures Keeps(s, 0, Resume(s, k, outcome), c)
  {
  }

  lemma LocalLeaves(s: Session, k: Cont, outcome: Option<string>)
    requires !k.MediaOut? && !k.MediaIn? && !k.SettingRemote? && !k.Flushing?
    ensures Leaves(s, Resume(s, k, outcome))
  {
  }

  lemma ResumeKeeps(s: Session, k: Cont, outcome: Option<string>, c: Candidate)
    requires Start(s) && !Replaces(s, k, outcome) && !Strays(s, k)
    ensures Keeps(s, if s.pc.Some? then Part(k, s.pc.value.id, c) else 0, Resume(s, k, outcome), c)
  {
    if k.MediaOut? || k.MediaIn? {
      MediaKeeps(s, k, outcome, c);
    } else if k.SettingRemote? {
      RemoteKeeps(s, k, outcome, c);
    } else if k.Flushing? {
      FlushNextKeeps(s, k.rest, k.answering, c);
    } else {
      LocalLeaves(s, k, outcome);
      LeavingKeeps(s, Resume(s, k, outcome), c);
    }
  }

  lemma ButtonsLeave(s: Session, call: CallId, peer: User, video: bool, connected: bool)
    ensures Leaves(s, BeginStart(s, peer, video, call)) && Leaves(s, BeginAccept(s, call, peer))
    ensures Leaves(s, RejectIncoming(s, call, peer)) && Leaves(s, EndCall(s)) && Leaves(s, Stay(ConnectionChange(s, connected)))
  {
  }

  // ---------- one tab in the world ----------

  predicate TabConserved(n: Node, c: Candidate) {
    Conserved(n.s, n.conts, c)
  }

  function After(conts: seq<Cont>, x: Susp): seq<Cont> {
    conts + if x.next.Some? then [x.next.value] else []
  }

  lemma WaitingAfter(conts: seq<Cont>, x: Susp, pc: nat, c: Candidate)
    ensures Waiting(After(conts, x), pc, c) == Waiting(conts, pc, c) + PartOf(x.next, pc, c)
  {
    if x.next.Some? {
      WaitingMore(conts, x.next.value, pc, c);
    } else {
      assert After(conts, x) == conts;
    }
  }

  /** conts are those that still wait, without the one that was resumed. */
  lemma PieceConserves(s: Session, conts: seq<Cont>, spent: nat, x: Susp, c: Candidate)
    requires Start(s) && (forall k | k in conts :: Earlier(k, s.nextPc)) && Keeps(s, spent, x, c)
    requires s.pc.Some? ==> Total(s, c) + Waiting(conts, s.pc.value.id, c) + spent == Seen(s, c)
    ensures Conserved(x.s, After(conts, x), c)
  {
    if x.s.pc.Some? {
      WaitingAfter(conts, x, x.s.pc.value.id, c);
      if !SamePc(s, x.s) {
        NothingWaits(conts, x.s.pc.value.id, c);
      }
    }
  }

  /** The step replaces the connection of tab i or carries a flush over to another one. */
  predicate Disturbs(w: World, a: Action, i: nat) {
    a.Settled? && a.i == i && i < |w.nodes| && a.k < |w.nodes[i].conts|
    && (Replaces(w.nodes[i].s, w.nodes[i].conts[a.k], a.outcome) || Strays(w.nodes[i].s, w.nodes[i].conts[a.k]))
  }

  lemma PutConserves(w: World, j: nat, x: Susp, i: nat, c: Candidate)
    requires i < |w.nodes| && j < |w.nodes| && TabConserved(w.nodes[i], c)
    requires i == j ==> Keeps(w.nodes[i].s, 0, x, c)
    ensures TabConserved(Put(w, j, x).nodes[i], c)
  {
    if i == j {
      PieceConserves(w.nodes[i].s, w.nodes[i].conts, 0, x, c);
    }
  }

  lemma PutLeaves(w: World, j: nat, x: Susp, i: nat, c: Candidate)
    requires i < |w.nodes| && j < |w.nodes| && TabConserved(w.nodes[i], c) && Leaves(w.nodes[j].s, x)
    ensures TabConserved(Put(w, j, x).nodes[i], c)
  {
    if i == j {
      LeavingKeeps(w.nodes[i].s, x, c);
    }
    PutConserves(w, j, x, i, c);
  }

  lemma SettledConserves(w: World, j: nat, k: nat, outcome: Option<string>, i: nat, c: Candidate)
    requires i < |w.nodes| && j < |w.nodes| && k < |w.nodes[j].conts| && TabConserved(w.nodes[i], c)
    requires !Disturbs(w, Settled(j, k, outcome), i)
    ensures TabConserved(SettledStep(w, j, k, outcome).nodes[i], c)
  {
    if i == j {
      var s, conts := w.nodes[i].s, w.nodes[i].conts;
      var rest := conts[..k] + conts[k + 1..];
      assert forall d | d in rest :: d in conts;
      if s.pc.Some? {
        WaitingWithout(conts, k, s.pc.value.id, c);
      }
      ResumeKeeps(s, conts[k], outcome, c);
      PieceConserves(s, rest, if s.pc.Some? then Part(conts[k], s.pc.value.id, c) else 0, Resume(s, conts[k], outcome), c);
    }
  }

  lemma DeliverConserves(w: World, p: Packet, env: Env, i: nat, c: Candidate)
    requires i < |w.nodes| && p in w.wire && p.Down? && p.dst < |w.nodes| && TabConserved(w.nodes[i], c)
    ensures TabConserved(DeliverStep(w, p, Interleaved, env).nodes[i], c)
  {
    if p.dst == i {
      BeginSignalKeeps(w.nodes[i].s, p.sig, c);
    }
    PutConserves(Take(w, p), p.dst, BeginSignal(w.nodes[p.dst].s, p.sig), i, c);
  }

  lemma StartConserves(w: World, j: nat, peer: User, video: bool, call: CallId, env: Env, i: nat, c: Candidate)
    requires i < |w.nodes| && j < |w.nodes| && TabConserved(w.nodes[i], c)
    ensures TabConserved(StartStep(w, j, peer, video, call, Interleaved, env).nodes[i], c)
  {
    ButtonsLeave(w.nodes[j].s, call, peer, video, false);
    PutLeaves(Place(w, j, peer, video, call), j, BeginStart(w.nodes[j].s, peer, video, call), i, c);
  }

  lemma AcceptConserves(w: World, j: nat, env: Env, i: nat, c: Candidate)
    requires i < |w.nodes| && j < |w.nodes| && TabConserved(w.nodes[i], c)
    ensures TabConserved(AcceptStep(w, j, Interleaved, env).nodes[i], c)
  {
    var s := w.nodes[j].s;
    ButtonsLeave(s, OrEmpty(s.callId), OrEmpty(s.peerId), false, false);
    PutLeaves(w.(accepted := w.accepted + {(OrEmpty(s.callId), j)}), j,
              BeginAccept(s, OrEmpty(s.callId), OrEmpty(s.peerId)), i, c);
  }

  lemma DeclineConserves(w: World, j: nat, i: nat, c: Candidate)
    requires i < |w.nodes| && j < |w.nodes| && TabConserved(w.nodes[i], c)
    ensures TabConserved(DeclineStep(w, j).nodes[i], c)
  {
    var s := w.nodes[j].s;
    ButtonsLeave(s, OrEmpty(s.callId), OrEmpty(s.peerId), false, false);
    PutLeaves(w, j, RejectIncoming(s, OrEmpty(s.callId), OrEmpty(s.peerId)), i, c);
  }

  lemma EndConserves(w: World, j: nat, connected: bool, i: nat, c: Candidate)
    requires i < |w.nodes| && j < |w.nodes| && TabConserved(w.nodes[i], c)
    ensures TabConserved(Put(w, j, EndCall(w.nodes[j].s)).nodes[i], c)
    ensures TabConserved(ConnectionStep(w, j, connected).nodes[i], c)
  {
    ButtonsLeave(w.nodes[j].s, "", "", false, connected);
    PutLeaves(w, j, EndCall(w.nodes[j].s), i, c);
    PutLeaves(w, j, Stay(ConnectionChange(w.nodes[j].s, connected)), i, c);
  }

  lemma LocalIceConserves(w: World, j: nat, call: CallId, peer: User, cand: Candidate, i: nat, c: Candidate)
    requires i < |w.nodes| && j < |w.nodes| && TabConserved(w.nodes[i], c)
    ensures TabConserved(LocalIceStep(w, j, Interleaved, call, peer, cand).nodes[i], c)
  {
    PutLeaves(w, j, Susp(w.nodes[j].s, [Raw(Ice, call, peer, false, "", Some(cand))], None), i, c);
  }

  lemma StepConserves(w: World, a: Action, i: nat, c: Candidate)
    requires i < |w.nodes| && TabConserved(w.nodes[i], c) && !Disturbs(w, a, i)
    ensures i < |Apply(w, a, Interleaved).nodes| && TabConserved(Apply(w, a, Interleaved).nodes[i], c)
  {
    var v := Apply(w, a, Interleaved);
    if v != w {
      match a {
        case Join(user) => assert v == JoinStep(w, user);
        case Forward(p, friendships) => assert v == ForwardStep(w, p, friendships);
        case Lose(p) => assert v == Take(w, p);
        case Deliver(p, env) =>
          assert v == DeliverStep(w, p, Interleaved, env);
          DeliverConserves(w, p, env, i, c);
        case Settled(j, k, outcome) =>
          assert v == SettledStep(w, j, k, outcome);
          SettledConserves(w, j, k, outcome, i, c);
        case _ => TabStepConserves(w, a, i, c);
      }
    }
  }

  lemma TabStepConserves(w: World, a: Action, i: nat, c: Candidate)
    requires i < |w.nodes| && TabConserved(w.nodes[i], c) && Apply(w, a, Interleaved) != w
    requires a.Start? || a.PressAccept? || a.PressDecline? || a.PressEnd? || a.Connection? || a.LocalIce?
    ensures i < |Apply(w, a, Interleaved).nodes| && TabConserved(Apply(w, a, Interleaved).nodes[i], c)
  {
    var v := Apply(w, a, Interleaved);
    match a {
      case Start(j, peer, video, call, env) =>
        assert v == StartStep(w, j, peer, video, call, Interleaved, env);
        StartConserves(w, j, peer, video, call, env, i, c);
      case PressAccept(j, env) =>
        assert v == AcceptStep(w, j, Interleaved, env);
        AcceptConserves(w, j, env, i, c);
      case PressDecline(j) =>
        assert v == DeclineStep(w, j);
        DeclineConserves(w, j, i, c);
      case PressEnd(j) =>
        assert v == Put(w, j, EndCall(w.nodes[j].s));
        EndConserves(w, j, false, i, c);
      case Connection(j, connected) =>
        assert v == ConnectionStep(w, j, connected);
        EndConserves(w, j, connected, i, c);
      case LocalIce(j, call, peer, cand) =>
        assert v == LocalIceStep(w, j, Interleaved, call, peer, cand);
        LocalIceConserves(w, j, call, peer, cand, i, c);
    }
  }

  /** Some step of the run replaced this tab's connection or carried a flush over to another one. */
  predicate HadDisturbance(actions: seq<Action>, i: nat) {
    actions != [] &&
    (HadDisturbance(actions[..|actions| - 1], i)
     || Disturbs(Run(actions[..|actions| - 1], Interleaved), actions[|actions| - 1], i))
  }

  lemma NewTabConserved(w: World, a: Action, i: nat, c: Candidate)
    requires |w.nodes| <= i < |Apply(w, a, Interleaved).nodes|
    ensures TabConserved(Apply(w, a, Interleaved).nodes[i], c)
  {
    assert a.Join? && Apply(w, a, Interleaved).nodes[i] == Node(a.user, FRESH, []);
  }

  lemma {:induction false} RunConserves(actions: seq<Action>, i: nat, c: Candidate)
    requires i < |Run(actions, Interleaved).nodes| && !HadDisturbance(actions, i)
    ensures TabConserved(Run(actions, Interleaved).nodes[i], c)
  {
    if actions != [] {
      var w := Run(actions[..|actions| - 1], Interleaved);
      if i < |w.nodes| {
        RunConserves(actions[..|actions| - 1], i, c);
        StepConserves(w, actions[|actions| - 1], i, c);
      } else {
        NewTabConserved(w, actions[|actions| - 1], i, c);
      }
    }
  }

  /** Everything that suspended flushes hold for a connection. */
  function Held(conts: seq<Cont>, pc: nat): multiset<Candidate> {
    if conts == [] then multiset{}
    else
      var k, rest := conts[|conts| - 1], Held(conts[..|conts| - 1], pc);
      if k.Flushing? && k.pc == pc then rest + multiset(k.rest) else rest
  }

  lemma {:induction false} HeldIsWaiting(conts: seq<Cont>, pc: nat, c: Candidate)
    ensures Held(conts, pc)[c] == Waiting(conts, pc, c)
  {
    if conts != [] {
      HeldIsWaiting(conts[..|conts| - 1], pc, c);
    }
  }

  /**
    Conservation with any interleaving at the awaits: as long as no grant replaces the tab's connection and no
    flush carries over to another one, the candidates given to the connection, those queued and those that its
    suspended flushes still hold are together exactly those that arrived for it.
  */
  lemma ArrivalsConserved(actions: seq<Action>, i: nat)
    requires i < |Run(actions, Interleaved).nodes| && !HadDisturbance(actions, i)
    requires Run(actions, Interleaved).nodes[i].s.pc.Some?
    ensures var n := Run(actions, Interleaved).nodes[i]; var pc := n.s.pc.value;
            multiset(pc.given) + multiset(n.s.pendingIce) + Held(n.conts, pc.id) == multiset(pc.seen)
  {
    var n := Run(actions, Interleaved).nodes[i];
    var pc := n.s.pc.value;
    forall c ensures (multiset(pc.given) + multiset(n.s.pendingIce) + Held(n.conts, pc.id))[c] == multiset(pc.seen)[c] {
      RunConserves(actions, i, c);
      HeldIsWaiting(n.conts, pc.id, c);
    }
  }
}
