/**
  The signaling endpoint (signaling_handler.go) on top of the hub: what is relayed, to whom, and what each
  tab receives over a whole run. Contents of messages are parsed JSON objects.
*/
module Signaling {
  import opened Common
  import opened Seqs
  import opened SignalingHub
  import opened VoiceCall
  import CallWorld
  import Friends

  const ALLOWED: set<string> :=
    {"call_invite", "call_accept", "call_reject", "call_end", "call_offer", "call_answer", "call_ice"}

  const REJECTED: Payload := map["type" := Text("error"), "code" := Text("signaling_rejected"),
                                 "message" := Text("not allowed or invalid message")]

  /** A string member; absent members and other types read as "". */
  function TextOf(m: Payload, name: string): string {
    if name in m && m[name].Text? then m[name].t else ""
  }

  /** What forward sends and to whom; raw is None if the data was not a JSON object. */
  function Forwarded(friendships: Friends.Rows, from: Friends.User, raw: Option<Payload>): Option<(Friends.User, Payload)> {
    if raw.None? then None
    else
      var m := raw.value;
      if TextOf(m, "type") !in ALLOWED || TextOf(m, "to_user_id") == "" || TextOf(m, "call_id") == "" then None
      else if !Friends.AreFriends(friendships, from, TextOf(m, "to_user_id")) then None
      else Some((TextOf(m, "to_user_id"), m["from_user_id" := Text(from)]))
  }

  class SignalingHandler {
    const hub: Hub
    var friendships: Friends.Rows

    constructor (hub: Hub, friendships: Friends.Rows)
      ensures this.hub == hub && this.friendships == friendships
    {
      this.hub, this.friendships := hub, friendships;
    }

    /**
      A refused message reaches nobody. A relayed one reaches every tab of the target user once, agrees with
      what was sent in everything but from_user_id, and carries the true sender there.
    */
    method Forward(from: Friends.User, data: Option<Payload>) returns (ok: bool)
      requires hub.Valid()
      modifies match Forwarded(friendships, from, data)
               case None => {}
               case Some(x) => set tab | tab in Tabs(hub.tabs, x.0)
      ensures ok <==> && data.Some? && TextOf(data.value, "type") in ALLOWED
                      && TextOf(data.value, "call_id") != ""
                      && TextOf(data.value, "to_user_id") != ""
                      && Friends.AreFriends(friendships, from, TextOf(data.value, "to_user_id"))
      ensures ok ==> exists out: Payload ::
                && "from_user_id" in out && out["from_user_id"] == Text(from)
                && out - {"from_user_id"} == data.value - {"from_user_id"}
                && forall tab | tab in Tabs(hub.tabs, TextOf(data.value, "to_user_id")) ::
                     tab.written == old(tab.written) + [out]
    {
      if data.None? {
        return false;
      }
      var raw := data.value;
      var typ := TextOf(raw, "type");
      if typ !in ALLOWED {
        return false;
      }
      var to := TextOf(raw, "to_user_id");
      if to == "" {
        return false;
      }
      if TextOf(raw, "call_id") == "" {
        return false;
      }
      if !Friends.AreFriends(friendships, from, to) {
        return false;
      }
      raw := raw - {"from_user_id"};
      raw := raw["from_user_id" := Text(from)];
      assert raw == data.value["from_user_id" := Text(from)];
      assert raw - {"from_user_id"} == data.value - {"from_user_id"};
      hub.SendToUser(to, raw);
      return true;
    }
  }

  // ---------- the call protocol's messages on the wire ----------

  function TypeOf(k: Kind): string {
    match k
    case Invite => "call_invite"
    case Accept => "call_accept"
    case Reject => "call_reject"
    case End => "call_end"
    case Offer => "call_offer"
    case Answer => "call_answer"
    case Ice => "call_ice"
    case Unknown(name) => name
  }

  function KindOf(typ: string): Kind {
    if typ == "call_invite" then Invite
    else if typ == "call_accept" then Accept
    else if typ == "call_reject" then Reject
    else if typ == "call_end" then End
    else if typ == "call_offer" then Offer
    else if typ == "call_answer" then Answer
    else if typ == "call_ice" then Ice
    else Unknown(typ)
  }

  /** The object a client hands to the socket; a description and a candidate are objects themselves. */
  function Encode(r: Raw): Payload {
    var base := map["type" := Text(TypeOf(r.kind)), "call_id" := Text(r.call), "to_user_id" := Text(r.to)];
    match r.kind
    case Invite => if r.video then base["video" := Flag(true)] else base
    case Offer => base["sdp" := Object(map["type" := Text("offer"), "sdp" := Text(r.sdp)])]
    case Answer => base["sdp" := Object(map["type" := Text("answer"), "sdp" := Text(r.sdp)])]
    case Ice => if r.cand.Some? then base["candidate" := Object(map["candidate" := Number(r.cand.value)])] else base
    case _ => base
  }

  /** The members handleSignal reads. */
  function Decode(m: Payload): Signal {
    if TextOf(m, "type") == "error" then ServerError
    else
      Relayed(TextOf(m, "from_user_id"),
              Raw(KindOf(TextOf(m, "type")), TextOf(m, "call_id"), TextOf(m, "to_user_id"),
                  "video" in m && m["video"] == Flag(true), DescriptionIn(m), CandidateIn(m)))
  }

  function DescriptionIn(m: Payload): string {
    if "sdp" in m && m["sdp"].Object? then TextOf(m["sdp"].fields, "sdp") else ""
  }

  function CandidateIn(m: Payload): Option<Candidate> {
    if "candidate" in m && m["candidate"].Object? then
      var c := m["candidate"].fields;
      if "candidate" in c && c["candidate"].Number? then Some(c["candidate"].n) else None
    else None
  }

  /** A message whose members are those that its kind has. */
  predicate Proper(r: Raw) {
    match r.kind
    case Invite => r.sdp == "" && r.cand.None?
    case Offer => !r.video && r.cand.None?
    case Answer => !r.video && r.cand.None?
    case Ice => !r.video && r.sdp == "" && r.cand.Some?
    case Unknown(name) => name !in ALLOWED && !r.video && r.sdp == "" && r.cand.None?
    case _ => !r.video && r.sdp == "" && r.cand.None?
  }

  lemma MembersReadBack(r: Raw, m: Payload)
    requires Proper(r) && !r.kind.Unknown? && m - {"from_user_id"} == Encode(r)
    ensures TextOf(m, "type") == TypeOf(r.kind) && TypeOf(r.kind) in ALLOWED
    ensures TextOf(m, "call_id") == r.call && TextOf(m, "to_user_id") == r.to
    ensures Decode(m) == Relayed(TextOf(m, "from_user_id"), r)
  {
    var e := m - {"from_user_id"};
    assert forall name :: name != "from_user_id" ==> (name in m <==> name in e);
    assert "type" in e && "call_id" in e && "to_user_id" in e;
    assert "video" in m <==> "video" in e;
    assert "sdp" in m <==> "sdp" in e;
    assert "candidate" in m <==> "candidate" in e;
  }

  /**
    The endpoint refines the relay of the call protocol: whatever sender a client claims in its message, the
    endpoint accepts what Relay accepts, and the target reads exactly what Relay delivers.
  */
  lemma EndpointRefinesRelay(friendships: Friends.Rows, from: Friends.User, r: Raw, m: Payload)
    requires Proper(r) && !r.kind.Unknown? && m - {"from_user_id"} == Encode(r)
    ensures match Forwarded(friendships, from, Some(m))
            case None => CallWorld.Relay(friendships, from, r) == None
            case Some(x) => x.0 == r.to && CallWorld.Relay(friendships, from, r) == Some(Decode(x.1))
  {
    MembersReadBack(r, m);
    var out := m["from_user_id" := Text(from)];
    assert out - {"from_user_id"} == m - {"from_user_id"};
    MembersReadBack(r, out);
  }

  predicate AllProper(sent: seq<Raw>) {
    forall r | r in sent :: Proper(r) && !r.kind.Unknown?
  }

  /** Everything the manager sends while it handles a signal or goes on after an await has the members of its kind. */
  lemma ResumeSendsProper(s: Session, k: Cont, outcome: Option<string>)
    ensures AllProper(Resume(s, k, outcome).sent)
  {
  }

  /** So has everything it sends when a call is declined or ended, and every candidate. */
  lemma ButtonsSendProper(s: Session, call: CallId, peer: VoiceCall.User, c: Candidate)
    ensures AllProper(EndCall(s).sent) && AllProper(RejectIncoming(s, call, peer).sent)
    ensures AllProper(LocalCandidate(s, c).sent)
  {
  }

  // ---------- whole runs ----------

  /** Tabs are numbered as they connect; each has an owner and a box of what was written to it. */
  datatype State = State(hub: map<Friends.User, seq<nat>>, owners: seq<Friends.User>, boxes: seq<seq<Payload>>)

  datatype Action =
    | Connect(user: Friends.User)
    | Disconnect(t: nat)
    | Message(src: nat, data: Option<Payload>, friendships: Friends.Rows)

  /** SendToUser's loop. */
  function Wrote(boxes: seq<seq<Payload>>, list: seq<nat>, p: Payload): (r: seq<seq<Payload>>)
    ensures |r| == |boxes|
    decreases |list|
  {
    if list == [] then boxes
    else if list[0] >= |boxes| then Wrote(boxes, list[1..], p)
    else Wrote(boxes[list[0] := boxes[list[0]] + [p]], list[1..], p)
  }

  function Handle(s: State, src: nat, data: Option<Payload>, friendships: Friends.Rows): State
    requires src < |s.owners|
  {
    match Forwarded(friendships, s.owners[src], data)
    case None => s.(boxes := Wrote(s.boxes, [src], REJECTED))
    case Some(x) => s.(boxes := Wrote(s.boxes, Tabs(s.hub, x.0), x.1))
  }

  function Apply(s: State, a: Action): State {
    match a
    case Connect(user) =>
      State(Registered(s.hub, user, |s.owners|), s.owners + [user], s.boxes + [[]])
    case Disconnect(t) => if t >= |s.owners| then s else s.(hub := Unregistered(s.hub, s.owners[t], t))
    case Message(src, data, friendships) =>
      if src >= |s.owners| || src !in Tabs(s.hub, s.owners[src]) then s else Handle(s, src, data, friendships)
  }

  function Run(actions: seq<Action>): State {
    if actions == [] then State(map[], [], []) else Apply(Run(actions[..|actions| - 1]), actions[|actions| - 1])
  }

  // What a run means for one tab, without the hub.

  function Count(actions: seq<Action>): nat {
    if actions == [] then 0
    else Count(actions[..|actions| - 1]) + if actions[|actions| - 1].Connect? then 1 else 0
  }

  function Owner(actions: seq<Action>, t: nat): Friends.User {
    if actions == [] then ""
    else
      var before, a := actions[..|actions| - 1], actions[|actions| - 1];
      if a.Connect? && Count(before) == t then a.user else Owner(before, t)
  }

  predicate Online(actions: seq<Action>, t: nat) {
    if actions == [] then false
    else
      var before, a := actions[..|actions| - 1], actions[|actions| - 1];
      match a
      case Connect(_) => Online(before, t) || Count(before) == t
      case Disconnect(x) => Online(before, t) && x != t
      case Message(_, _, _) => Online(before, t)
  }

  /** What tab t should get: messages relayed to its owner while it is online, and refusals of its own. */
  function Due(actions: seq<Action>, t: nat): seq<Payload> {
    if actions == [] then []
    else
      var before, a := actions[..|actions| - 1], actions[|actions| - 1];
      if a.Message? && Online(before, a.src) then
        match Forwarded(a.friendships, Owner(before, a.src), a.data)
        case None => if a.src == t then Due(before, t) + [REJECTED] else Due(before, t)
        case Some(x) => if Online(before, t) && Owner(before, t) == x.0 then Due(before, t) + [x.1] else Due(before, t)
      else Due(before, t)
  }

  ghost predicate Sized(s: State, actions: seq<Action>) {
    && |s.owners| == |s.boxes| == Count(actions)
    && forall t | 0 <= t < |s.owners| :: s.owners[t] == Owner(actions, t)
  }

  lemma {:induction false} OnlineIsCounted(actions: seq<Action>, t: nat)
    requires Online(actions, t)
    ensures t < Count(actions)
  {
    var before := actions[..|actions| - 1];
    if Online(before, t) {
      OnlineIsCounted(before, t);
    }
  }

  lemma {:induction false} NothingDueBeforeConnecting(actions: seq<Action>, t: nat)
    requires t >= Count(actions)
    ensures Due(actions, t) == []
  {
    if actions != [] {
      var before, a := actions[..|actions| - 1], actions[|actions| - 1];
      NothingDueBeforeConnecting(before, t);
      if a.Message? && Online(before, t) {
        OnlineIsCounted(before, t);
      }
    }
  }

  lemma {:induction false} WroteOnce(boxes: seq<seq<Payload>>, list: seq<nat>, p: Payload, t: nat)
    requires Distinct(list) && t < |boxes|
    ensures Wrote(boxes, list, p)[t] == if t in list then boxes[t] + [p] else boxes[t]
    decreases |list|
  {
    if list != [] {
      assert list[0] !in list[1..];
      var next := if list[0] >= |boxes| then boxes else boxes[list[0] := boxes[list[0]] + [p]];
      WroteOnce(next, list[1..], p, t);
    }
  }

  lemma ApplySized(s: State, actions: seq<Action>, a: Action)
    requires Sized(s, actions)
    ensures Sized(Apply(s, a), actions + [a])
  {
    assert (actions + [a])[..|actions|] == actions;
  }

  ghost predicate ListedAt(hub: map<Friends.User, seq<nat>>, actions: seq<Action>, user: Friends.User) {
    && Distinct(Tabs(hub, user))
    && forall t: nat :: t in Tabs(hub, user) <==> t < Count(actions) && Online(actions, t) && Owner(actions, t) == user
  }

  lemma ConnectListed(s: State, actions: seq<Action>, user: Friends.User, u: Friends.User)
    requires Sized(s, actions) && ListedAt(s.hub, actions, u)
    ensures ListedAt(Apply(s, Connect(user)).hub, actions + [Connect(user)], u)
  {
    var t := |s.owners|;
    TabsAfter(s.hub, user, t, u);
    assert t !in Tabs(s.hub, u);
    DistinctGrows(Tabs(s.hub, u), t);
    forall x: nat ensures x in Tabs(Apply(s, Connect(user)).hub, u)
                     <==> x in Tabs(s.hub, u) || (x == t && u == user) {
    }
    forall x: nat {
      OnlineAfterConnect(actions, user, x);
    }
  }

  lemma OnlineAfterConnect(actions: seq<Action>, user: Friends.User, t: nat)
    ensures var after := actions + [Connect(user)];
            && Count(after) == Count(actions) + 1
            && Online(after, t) == (Online(actions, t) || t == Count(actions))
            && Owner(after, t) == if t == Count(actions) then user else Owner(actions, t)
  {
    assert (actions + [Connect(user)])[..|actions|] == actions;
  }

  lemma DisconnectListed(s: State, actions: seq<Action>, t: nat, u: Friends.User)
    requires Sized(s, actions) && ListedAt(s.hub, actions, u)
    ensures ListedAt(Apply(s, Disconnect(t)).hub, actions + [Disconnect(t)], u)
  {
    assert (actions + [Disconnect(t)])[..|actions|] == actions;
    if t < |s.owners| {
      TabsAfter(s.hub, s.owners[t], t, u);
      WithoutIsDistinct(Tabs(s.hub, u), t);
      forall x: nat ensures x in Without(Tabs(s.hub, u), t) <==> x in Tabs(s.hub, u) && x != t {
        WithoutHas(Tabs(s.hub, u), t, x);
      }
    }
  }

  lemma MessageListed(s: State, actions: seq<Action>, a: Action, u: Friends.User)
    requires a.Message? && Sized(s, actions) && ListedAt(s.hub, actions, u)
    ensures ListedAt(Apply(s, a).hub, actions + [a], u)
  {
    assert (actions + [a])[..|actions|] == actions;
    assert Apply(s, a).hub == s.hub;
  }

  lemma {:induction false} RunListed(actions: seq<Action>, u: Friends.User)
    ensures ListedAt(Run(actions).hub, actions, u)
  {
    if actions != [] {
      var before, a := actions[..|actions| - 1], actions[|actions| - 1];
      RunListed(before, u);
      RunSized(before);
      assert actions == before + [a];
      match a {
        case Connect(user) => ConnectListed(Run(before), before, user, u);
        case Disconnect(t) => DisconnectListed(Run(before), before, t, u);
        case Message(_, _, _) => MessageListed(Run(before), before, a, u);
      }
    }
  }

  lemma MessageServed(s: State, actions: seq<Action>, a: Action, t: nat)
    requires a.Message? && Sized(s, actions) && (forall u :: ListedAt(s.hub, actions, u))
    requires t < |s.boxes| && s.boxes[t] == Due(actions, t)
    ensures Apply(s, a).boxes[t] == Due(actions + [a], t)
  {
    assert (actions + [a])[..|actions|] == actions;
    if Online(actions, a.src) {
      OnlineIsCounted(actions, a.src);
      assert ListedAt(s.hub, actions, s.owners[a.src]);
      match Forwarded(a.friendships, s.owners[a.src], a.data) {
        case None => WroteOnce(s.boxes, [a.src], REJECTED, t);
        case Some(x) =>
          assert ListedAt(s.hub, actions, x.0);
          WroteOnce(s.boxes, Tabs(s.hub, x.0), x.1, t);
      }
    } else {
      assert a.src < |s.owners| ==> ListedAt(s.hub, actions, s.owners[a.src]);
    }
  }

  lemma {:induction false} RunSized(actions: seq<Action>)
    ensures Sized(Run(actions), actions)
  {
    if actions != [] {
      var before, a := actions[..|actions| - 1], actions[|actions| - 1];
      RunSized(before);
      assert actions == before + [a];
      ApplySized(Run(before), before, a);
    }
  }

  /**
    Over every run of connections, disconnections and messages, each tab has been sent exactly the messages
    relayed to its owner while it was online, and the refusals of its own, once each and in order.
  */
  lemma {:induction false} EveryTabGetsWhatIsDue(actions: seq<Action>, t: nat)
    requires t < Count(actions)
    ensures |Run(actions).boxes| == Count(actions) && Run(actions).boxes[t] == Due(actions, t)
  {
    RunSized(actions);
    var before, a := actions[..|actions| - 1], actions[|actions| - 1];
    RunSized(before);
    if t < Count(before) {
      EveryTabGetsWhatIsDue(before, t);
    } else {
      NothingDueBeforeConnecting(before, t);
    }
    if a.Message? {
      assert actions == before + [a];
      forall u ensures ListedAt(Run(before).hub, before, u) {
        RunListed(before, u);
      }
      MessageServed(Run(before), before, a, t);
    }
  }

  /** Every message a tab received was stamped with the user that sent it, who was then a friend of its owner. */
  lemma {:induction false} StampsAreTrue(actions: seq<Action>, t: nat, n: nat)
    requires n < |Due(actions, t)| && Due(actions, t)[n] != REJECTED
    ensures exists k :: 0 <= k < |actions| && actions[k].Message? && SentBy(actions, k, t, Due(actions, t)[n])
    decreases |actions|
  {
    var before, last := actions[..|actions| - 1], |actions| - 1;
    var p := Due(actions, t)[n];
    if n < |Due(before, t)| {
      StampsAreTrue(before, t, n);
      var k :| 0 <= k < |before| && before[k].Message? && SentBy(before, k, t, p);
      assert before[..k] == actions[..k];
      assert actions[k].Message? && SentBy(actions, k, t, p);
    } else {
      LastStampIsTrue(actions, t, n);
    }
  }

  lemma LastStampIsTrue(actions: seq<Action>, t: nat, n: nat)
    requires actions != [] && |Due(actions[..|actions| - 1], t)| <= n < |Due(actions, t)|
    requires Due(actions, t)[n] != REJECTED
    ensures actions[|actions| - 1].Message? && SentBy(actions, |actions| - 1, t, Due(actions, t)[n])
  {
    var m := actions[|actions| - 1].data.value;
    var out := m["from_user_id" := Text(Owner(actions[..|actions| - 1], actions[|actions| - 1].src))];
    assert out - {"from_user_id"} == m - {"from_user_id"};
  }

  predicate SentBy(actions: seq<Action>, k: nat, t: nat, p: Payload)
    requires k < |actions| && actions[k].Message?
  {
    var before, a := actions[..k], actions[k];
    && Online(before, a.src) && Online(before, t)
    && a.data.Some? && p - {"from_user_id"} == a.data.value - {"from_user_id"}
    && "from_user_id" in p && p["from_user_id"] == Text(Owner(before, a.src))
    && Friends.AreFriends(a.friendships, Owner(before, a.src), Owner(before, t))
  }

  // ---------- the hub behind the call protocol ----------

  /** The hub after the tabs connected in order. */
  function Joined(nodes: seq<CallWorld.Node>): map<Friends.User, seq<nat>> {
    if nodes == [] then map[]
    else Registered(Joined(nodes[..|nodes| - 1]), nodes[|nodes| - 1].user, |nodes| - 1)
  }

  function Copies(list: seq<nat>, sig: Signal): multiset<CallWorld.Packet> {
    if list == [] then multiset{}
    else Copies(list[..|list| - 1], sig) + multiset{CallWorld.Down(list[|list| - 1], sig)}
  }

  /** The copies the hub writes are the fan-out of the call protocol. */
  lemma {:induction false} HubFansOut(nodes: seq<CallWorld.Node>, to: Friends.User, sig: Signal)
    ensures Copies(Tabs(Joined(nodes), to), sig) == CallWorld.FanOut(nodes, to, sig)
  {
    if nodes != [] {
      var most, last := nodes[..|nodes| - 1], |nodes| - 1;
      HubFansOut(most, to, sig);
      if nodes[last].user == to {
        var list := Tabs(Joined(most), to);
        assert (list + [last])[..|list|] == list;
      }
    }
  }
}
