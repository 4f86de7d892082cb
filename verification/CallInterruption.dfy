/** What is left of "an idle tab holds no connection" when other steps get in at the awaits. */
module CallInterruption {
  import opened Common
  import opened VoiceCall
  import opened CallWorld

  predicate IdleIsFree(s: Session) {
    s.phase.Idle? ==> s.pc.None?
  }

  /** The browser grants the microphone or camera to a tab whose call ended while it was asking. */
  predicate LateGrant(w: World, a: Action, i: nat) {
    && i < |w.nodes| && a.Settled? && a.i == i && a.k < |w.nodes[i].conts| && a.outcome.Some?
    && (w.nodes[i].conts[a.k].MediaOut? || w.nodes[i].conts[a.k].MediaIn?)
    && w.nodes[i].s.phase.Idle?
  }

  lemma ResumeLeaksOnLateGrant(s: Session, k: Cont, outcome: Option<string>)
    requires IdleIsFree(s)
    ensures IdleIsFree(Resume(s, k, outcome).s)
       <==> !((k.MediaOut? || k.MediaIn?) && outcome.Some? && s.phase.Idle?)
  {
  }

  /** The part of a method before its first await never leaks. */
  lemma BeginningsDoNotLeak(s: Session, sig: Signal, peer: User, video: bool, call: CallId)
    requires IdleIsFree(s)
    ensures IdleIsFree(BeginSignal(s, sig).s) && IdleIsFree(BeginStart(s, peer, video, call).s)
    ensures IdleIsFree(BeginAccept(s, call, peer).s) && IdleIsFree(RejectIncoming(s, call, peer).s)
    ensures IdleIsFree(EndCall(s).s)
  {
  }

  lemma SettledLeaksOnLateGrant(w: World, j: nat, k: nat, outcome: Option<string>, i: nat)
    requires i < |w.nodes| && IdleIsFree(w.nodes[i].s)
    requires j < |w.nodes| && k < |w.nodes[j].conts|
    ensures var v := SettledStep(w, j, k, outcome);
            |v.nodes| == |w.nodes| && (IdleIsFree(v.nodes[i].s) <==> !LateGrant(w, Settled(j, k, outcome), i))
  {
    if j == i {
      ResumeLeaksOnLateGrant(w.nodes[i].s, w.nodes[i].conts[k], outcome);
    }
  }

  lemma DeliveredDoesNotLeak(w: World, p: Packet, env: Env, i: nat)
    requires i < |w.nodes| && IdleIsFree(w.nodes[i].s) && p in w.wire && p.Down? && p.dst < |w.nodes|
    ensures var v := DeliverStep(w, p, Interleaved, env); |v.nodes| == |w.nodes| && IdleIsFree(v.nodes[i].s)
  {
    if p.dst == i {
      BeginningsDoNotLeak(w.nodes[i].s, p.sig, "", false, "");
    }
  }

  lemma StartedDoesNotLeak(w: World, j: nat, peer: User, video: bool, call: CallId, env: Env, i: nat)
    requires i < |w.nodes| && IdleIsFree(w.nodes[i].s) && j < |w.nodes|
    ensures var v := StartStep(w, j, peer, video, call, Interleaved, env); |v.nodes| == |w.nodes| && IdleIsFree(v.nodes[i].s)
  {
  }

  lemma PutDoesNotLeak(w: World, j: nat, x: Susp, i: nat)
    requires i < |w.nodes| && IdleIsFree(w.nodes[i].s) && j < |w.nodes| && (i == j ==> IdleIsFree(x.s))
    ensures |Put(w, j, x).nodes| == |w.nodes| && IdleIsFree(Put(w, j, x).nodes[i].s)
  {
  }

  lemma AcceptDoesNotLeak(w: World, j: nat, env: Env, i: nat)
    requires i < |w.nodes| && IdleIsFree(w.nodes[i].s) && j < |w.nodes|
    ensures var v := AcceptStep(w, j, Interleaved, env); |v.nodes| == |w.nodes| && IdleIsFree(v.nodes[i].s)
  {
  }

  lemma DeclineDoesNotLeak(w: World, j: nat, i: nat)
    requires i < |w.nodes| && IdleIsFree(w.nodes[i].s) && j < |w.nodes|
    ensures var v := DeclineStep(w, j); |v.nodes| == |w.nodes| && IdleIsFree(v.nodes[i].s)
    ensures var v := Put(w, j, EndCall(w.nodes[j].s)); |v.nodes| == |w.nodes| && IdleIsFree(v.nodes[i].s)
  {
    var s := w.nodes[j].s;
    PutDoesNotLeak(w, j, RejectIncoming(s, OrEmpty(s.callId), OrEmpty(s.peerId)), i);
    PutDoesNotLeak(w, j, EndCall(s), i);
  }

  lemma ConnectionDoesNotLeak(w: World, j: nat, connected: bool, call: CallId, peer: User, cand: Candidate, i: nat)
    requires i < |w.nodes| && IdleIsFree(w.nodes[i].s) && j < |w.nodes|
    ensures var v := ConnectionStep(w, j, connected); |v.nodes| == |w.nodes| && IdleIsFree(v.nodes[i].s)
    ensures var v := LocalIceStep(w, j, Interleaved, call, peer, cand); |v.nodes| == |w.nodes| && IdleIsFree(v.nodes[i].s)
  {
    PutDoesNotLeak(w, j, Stay(ConnectionChange(w.nodes[j].s, connected)), i);
    PutDoesNotLeak(w, j, Susp(w.nodes[j].s, [Raw(Ice, call, peer, false, "", Some(cand))], None), i);
  }

  lemma OtherStepsDoNotLeak(w: World, a: Action, i: nat)
    requires i < |w.nodes| && IdleIsFree(w.nodes[i].s)
    requires a.PressAccept? || a.PressDecline? || a.PressEnd? || a.Connection? || a.LocalIce?
    ensures var v := Apply(w, a, Interleaved); |v.nodes| == |w.nodes| && IdleIsFree(v.nodes[i].s)
  {
    var v := Apply(w, a, Interleaved);
    if v != w {
      match a {
        case PressAccept(j, env) =>
          assert v == AcceptStep(w, j, Interleaved, env);
          AcceptDoesNotLeak(w, j, env, i);
        case PressDecline(j) =>
          assert v == DeclineStep(w, j);
          DeclineDoesNotLeak(w, j, i);
        case PressEnd(j) =>
          assert v == Put(w, j, EndCall(w.nodes[j].s));
          DeclineDoesNotLeak(w, j, i);
        case Connection(j, connected) =>
          assert v == ConnectionStep(w, j, connected);
          ConnectionDoesNotLeak(w, j, connected, "", "", 0, i);
        case LocalIce(j, call, peer, cand) =>
          assert v == LocalIceStep(w, j, Interleaved, call, peer, cand);
          ConnectionDoesNotLeak(w, j, false, call, peer, cand, i);
      }
    }
  }

  lemma WireStepsDoNotLeak(w: World, a: Action, i: nat)
    requires i < |w.nodes| && IdleIsFree(w.nodes[i].s)
    requires a.Join? || a.Forward? || a.Deliver? || a.Lose? || a.Start?
    ensures var v := Apply(w, a, Interleaved); |v.nodes| >= |w.nodes| && IdleIsFree(v.nodes[i].s)
  {
    match a {
      case Deliver(p, env) =>
        if p in w.wire && p.Down? && p.dst < |w.nodes| {
          DeliveredDoesNotLeak(w, p, env, i);
        }
      case Start(j, peer, video, call, env) =>
        if j < |w.nodes| {
          StartedDoesNotLeak(w, j, peer, video, call, env, i);
        }
      case _ =>
    }
  }

  /**
    Exactly one kind of step leaves an idle tab holding a connection: a late grant. Every other step, of this
    tab or another, keeps an idle tab free of connections.
  */
  lemma LeakExactlyOnLateGrant(w: World, a: Action, i: nat)
    requires i < |w.nodes| && IdleIsFree(w.nodes[i].s)
    ensures |Apply(w, a, Interleaved).nodes| >= |w.nodes|
    ensures IdleIsFree(Apply(w, a, Interleaved).nodes[i].s) <==> !LateGrant(w, a, i)
  {
    match a {
      case Settled(j, k, outcome) =>
        if j < |w.nodes| && k < |w.nodes[j].conts| {
          SettledLeaksOnLateGrant(w, j, k, outcome, i);
        }
      case _ =>
        if a.Join? || a.Forward? || a.Deliver? || a.Lose? || a.Start? {
          WireStepsDoNotLeak(w, a, i);
        } else {
          OtherStepsDoNotLeak(w, a, i);
        }
    }
  }

  /** Some step of the run was a late grant to this tab. */
  predicate HadLateGrant(actions: seq<Action>, i: nat) {
    actions != [] &&
    (HadLateGrant(actions[..|actions| - 1], i)
     || LateGrant(Run(actions[..|actions| - 1], Interleaved), actions[|actions| - 1], i))
  }

  lemma NewTabIsFresh(w: World, a: Action, i: nat)
    requires |w.nodes| <= i < |Apply(w, a, Interleaved).nodes|
    ensures Apply(w, a, Interleaved).nodes[i].s == FRESH
  {
  }

  /** With any interleaving at the awaits, a tab that was never granted late holds no connection when idle. */
  lemma {:induction false} IdleHoldsNoConnection(actions: seq<Action>, i: nat)
    requires i < |Run(actions, Interleaved).nodes| && !HadLateGrant(actions, i)
    ensures IdleIsFree(Run(actions, Interleaved).nodes[i].s)
  {
    if actions != [] {
      var w := Run(actions[..|actions| - 1], Interleaved);
      if i < |w.nodes| {
        IdleHoldsNoConnection(actions[..|actions| - 1], i);
        LeakExactlyOnLateGrant(w, actions[|actions| - 1], i);
      } else {
        NewTabIsFresh(w, actions[|actions| - 1], i);
      }
    }
  }

  /**
    A late grant can happen: from any world with an idle tab, placing a call, hanging up while the browser
    still asks for the microphone, and granting it afterwards leaves that tab idle and holding a connection.
  */
  lemma InterruptedStartLeaksConnection(w: World, i: nat, peer: User, call: CallId, env: Env)
    requires i < |w.nodes| && w.nodes[i].s.phase.Idle? && w.nodes[i].conts == []
    requires call != "" && call !in w.placed
    ensures var w1 := Apply(w, Start(i, peer, false, call, env), Interleaved);
            var w2 := Apply(w1, PressEnd(i), Interleaved);
            var w3 := Apply(w2, Settled(i, 0, Some("")), Interleaved);
            |w3.nodes| == |w.nodes| && w3.nodes[i].s.phase.Idle? && w3.nodes[i].s.pc.Some?
  {
    var w1 := Apply(w, Start(i, peer, false, call, env), Interleaved);
    assert w1.nodes[i].s.phase.Outgoing? && w1.nodes[i].conts == [MediaOut(call, peer, false)];
    var w2 := Apply(w1, PressEnd(i), Interleaved);
    assert w2.nodes[i].s.phase.Idle? && w2.nodes[i].conts == [MediaOut(call, peer, false)];
  }

  // ---------- candidates that arrive during a flush ----------

  lemma {:induction false} SameOnBothEnds(rest: seq<Candidate>, c: Candidate)
    ensures [c] + rest == rest + [c] <==> forall x | x in rest :: x == c
  {
    if rest != [] {
      var tail := rest[1..];
      assert rest == [rest[0]] + tail;
      SameOnBothEnds(tail, c);
      if [c] + rest == rest + [c] {
        assert (rest + [c])[0] == rest[0] && ([c] + rest)[0] == c;
        assert ([c] + rest)[1..] == rest && (rest + [c])[1..] == tail + [c];
      }
      if forall x | x in rest :: x == c {
        assert rest[0] in rest && forall x | x in tail :: x in rest;
        assert rest + [c] == [c] + (tail + [c]);
      }
    }
  }

  /**
    Conservation of candidates in order holds across an interrupted flush exactly if the newcomer equals all
    that still wait: a candidate that arrives while the flush awaits is given at once and overtakes them. As a
    collection nothing is lost or added.
  */
  lemma ArrivalDuringFlush(s: Session, rest: seq<Candidate>, c: Candidate)
    requires s.pc.Some? && s.pc.value.hasRemote && s.pc.value.given + rest == s.pc.value.seen
    ensures var pc := AddIce(s, c).s.pc.value;
            && AddIce(s, c).s.pc.Some?
            && (pc.given + rest == pc.seen <==> forall x | x in rest :: x == c)
            && multiset(pc.given + rest) == multiset(pc.seen)
  {
    var given := s.pc.value.given;
    SameOnBothEnds(rest, c);
    assert given + [c] + rest == given + ([c] + rest);
    assert s.pc.value.seen + [c] == given + (rest + [c]);
    if given + ([c] + rest) == given + (rest + [c]) {
      assert (given + ([c] + rest))[|given|..] == [c] + rest;
      assert (given + (rest + [c]))[|given|..] == rest + [c];
    }
  }
}
