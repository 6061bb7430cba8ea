/**
 What a negotiation achieves: grants win, winners run and their responses arrive. Statements
 that something happens are paths, sequences of steps that lead from one state to another.
 */
module Answers {
  import opened Wrappers
  import opened Selection
  import opened Calls
  import opened Negotiation

  // ---------- who wins ----------

  predicate IsGrantTo(a: Action, site: Site) {
    a.GrantTo? && a.r == site.req && a.grantee == site.server
  }

  ghost predicate WasGranted(actions: seq<Action>, i: nat, site: Site)
    requires i <= |actions|
  {
    exists j :: 0 <= j < i && IsGrantTo(actions[j], site)
  }

  lemma {:induction false} GrantRemembered(states: seq<State>, actions: seq<Action>, j: nat, i: nat, r: ReqId)
    requires IsRun(states, actions) && j < i < |states| && actions[j].GrantTo? && actions[j].r == r
    ensures Grantee(states[i], r) == Some(actions[j].grantee)
  {
    hide ClientStep, ServerStep, SiteInv, MsgInv;
    if j + 1 < i {
      GrantRemembered(states, actions, j, i - 1, r);
      RunInv(states, actions, i - 1);
      assert Holds(states[i - 1], OfCall(r));
    }
  }

  /** A bid that gets a grant wins exactly if the run's grant for its request names its server. */
  lemma DecideFollowsGrant(states: seq<State>, actions: seq<Action>, i: nat, site: Site)
    requires IsRun(states, actions) && i < |actions| && actions[i] == Decide(site)
    ensures StageOf(states[i + 1], site) == Decided(WasGranted(actions, i, site))
  {
    RunInv(states, actions, i);
    var s := states[i];
    assert Holds(s, AtSite(site));
    var g := BufferOf(s, site)[0];
    assert g in BufferOf(s, site);
    var j := GrantHappened(states, actions, i, site.req);
    assert actions[j].grantee == g;
    if WasGranted(actions, i, site) {
      var k :| 0 <= k < i && IsGrantTo(actions[k], site);
      GrantRemembered(states, actions, k, i, site.req);
    } else {
      assert !IsGrantTo(actions[j], site);
    }
  }

  /** Only a winner's handler starts when its bid is taken off the server's list. */
  lemma WinnerRuns(states: seq<State>, actions: seq<Action>, i: nat, site: Site)
    requires IsRun(states, actions) && i < |actions| && actions[i] == Unregister(site)
    ensures StageOf(states[i], site) == Decided(true) ==>
      states[i + 1].ran == states[i].ran + multiset{site} && StageOf(states[i + 1], site) == Running
    ensures StageOf(states[i], site) == Decided(false) ==>
      states[i + 1].ran == states[i].ran && StageOf(states[i + 1], site) == Done(false, None)
    ensures site !in states[i + 1].claims
  {
  }

  /** A bid that ran out of time, or could not be published, has lost. */
  lemma LateBidLoses(states: seq<State>, actions: seq<Action>, i: nat, site: Site)
    requires IsRun(states, actions) && i < |actions|
    requires actions[i] == TimeOut(site) || (actions[i] == FailToPublish(site) && StageOf(states[i], site).Claiming?)
    ensures StageOf(states[i + 1], site) == Decided(false) && states[i + 1].ran == states[i].ran
  {
  }

  // ---------- paths ----------

  /** The steps of `path` lead from `s` to `t`. */
  ghost predicate Leads(s: State, path: seq<Action>, t: State)
    decreases |path|
  {
    if path == [] then s == t else Enabled(s, path[0]) && Leads(Apply(s, path[0]), path[1..], t)
  }

  lemma {:induction false} OneMore(s: State, path: seq<Action>, t: State, a: Action)
    requires Leads(s, path, t) && Enabled(t, a)
    ensures Leads(s, path + [a], Apply(t, a))
    decreases |path|
  {
    hide Enabled, Apply;
    if path == [] {
      assert [a][1..] == [];
    } else {
      OneMore(Apply(s, path[0]), path[1..], t, a);
      assert (path + [a])[1..] == path[1..] + [a];
    }
  }

  lemma {:induction false} Join(s: State, path: seq<Action>, t: State, rest: seq<Action>, u: State)
    requires Leads(s, path, t) && Leads(t, rest, u)
    ensures Leads(s, path + rest, u)
    decreases |path|
  {
    hide Enabled, Apply;
    if path == [] {
      assert path + rest == rest;
    } else {
      Join(Apply(s, path[0]), path[1..], t, rest, u);
      assert (path + rest)[1..] == path[1..] + rest;
    }
  }

  /** The part of a state that the steps of one call at one server touch. */
  ghost predicate SameCall(s: State, t: State, r: ReqId) {
    && t.codec == s.codec && t.queue == s.queue && t.custom == s.custom
    && r in s.calls && r in t.calls && t.calls[r] == s.calls[r]
    && (r in s.claimRoutes ==> r in t.claimRoutes) && (r in s.replyRoutes ==> r in t.replyRoutes)
  }

  ghost predicate Open(s: State, r: ReqId) {
    r in s.calls && r in s.claimRoutes && r in s.replyRoutes
  }

  /** A waiting bid whose own grant has come runs, whatever the handler then returns is published. */
  lemma GrantedBidAnswers(s: State, site: Site, h: HandlerResult) returns (ran: State, t: State)
    requires StageOf(s, site).Bidding? && BufferOf(s, site) != [] && BufferOf(s, site)[0] == site.server
    ensures Leads(s, [Decide(site), Unregister(site)], ran) && site in ran.ran
    ensures Leads(ran, [Finish(site, h), PublishResponse(site)], t)
    ensures ReplyMsg(site.req, Answered(Some(site.server), SendResponse(s.codec, h))) in t.network
    ensures site.req in s.calls ==> SameCall(s, t, site.req)
  {
    var decided := Apply(s, Decide(site));
    ran := Apply(decided, Unregister(site));
    TwoSteps(s, Decide(site), Unregister(site));
    t := RunningAnswers(ran, site, h);
  }

  lemma TwoSteps(s: State, a: Action, b: Action)
    requires Enabled(s, a) && Enabled(Apply(s, a), b)
    ensures Leads(s, [a, b], Apply(Apply(s, a), b))
  {
    hide Enabled, Apply;
    var t := Apply(s, a);
    assert Leads(Apply(t, b), [], Apply(t, b));
    assert [a, b][1..] == [b] && [b][1..] == [];
    assert Leads(t, [b], Apply(t, b));
  }

  lemma RunningAnswers(s: State, site: Site, h: HandlerResult) returns (t: State)
    requires StageOf(s, site).Running?
    ensures Leads(s, [Finish(site, h), PublishResponse(site)], t)
    ensures ReplyMsg(site.req, Answered(Some(site.server), SendResponse(s.codec, h))) in t.network
    ensures site.req in s.calls ==> SameCall(s, t, site.req)
  {
    hide Enabled, Apply;
    var finished := HandlerFinishes(s, site, h);
    t := ResponseGoesOut(finished, site, SendResponse(s.codec, h));
    TwoSteps(s, Finish(site, h), PublishResponse(site));
  }

  lemma HandlerFinishes(s: State, site: Site, h: HandlerResult) returns (t: State)
    requires StageOf(s, site).Running?
    ensures Enabled(s, Finish(site, h)) && t == Apply(s, Finish(site, h))
    ensures StageOf(t, site) == Responding(SendResponse(s.codec, h), true)
    ensures site.req in s.calls ==> SameCall(s, t, site.req)
  {
    hide SendResponse;
    t := Apply(s, Finish(site, h));
  }

  lemma ResponseGoesOut(s: State, site: Site, res: Response) returns (t: State)
    requires StageOf(s, site) == Responding(res, true)
    ensures Enabled(s, PublishResponse(site)) && t == Apply(s, PublishResponse(site))
    ensures ReplyMsg(site.req, Answered(Some(site.server), res)) in t.network
    ensures site.req in s.calls ==> SameCall(s, t, site.req)
  {
    t := Apply(s, PublishResponse(site));
  }

  /** Three and four steps, with each state in between. */
  lemma ThreeSteps(s: State, a: Action, b: Action, c: Action)
    requires Enabled(s, a) && Enabled(Apply(s, a), b) && Enabled(Apply(Apply(s, a), b), c)
    ensures Leads(s, [a, b, c], Apply(Apply(Apply(s, a), b), c))
  {
    hide Enabled, Apply;
    TwoSteps(Apply(s, a), b, c);
    assert [a, b, c][1..] == [b, c];
  }

  /** A selecting call whose routes are open, and the bid of a server whose run loop is free. */
  ghost predicate Asked(s: State, site: Site) {
    && Open(s, site.req) && s.calls[site.req] == Call(Selecting, [], [], [])
    && !s.queue && site.server !in s.loops
  }

  ghost predicate HasBid(s: State, site: Site) {
    StageOf(s, site).Bidding? && site in s.claims && BufferOf(s, site) == []
  }

  lemma AskServer(s: State, site: Site, targets: set<ServerId>) returns (t: State)
    requires !s.queue && site.req !in s.calls && site.server in targets && site.server !in s.loops
    ensures Leads(s, [Publish(site.req, targets), Receive(site)], t)
    ensures Asked(t, site) && StageOf(t, site).Decoding? && t.codec == s.codec
  {
    var published := Apply(s, Publish(site.req, targets));
    assert RequestMsg(site) in published.network;
    TwoSteps(s, Publish(site.req, targets), Receive(site));
    t := Apply(published, Receive(site));
  }

  lemma BidOpens(s: State, site: Site) returns (t: State)
    requires Asked(s, site) && StageOf(s, site).Decoding?
    ensures Enabled(s, RegisterBid(site)) && t == Apply(s, RegisterBid(site))
    ensures Asked(t, site) && StageOf(t, site).Claiming? && site in t.claims && BufferOf(t, site) == []
    ensures t.codec == s.codec
  {
    t := Apply(s, RegisterBid(site));
  }

  lemma BidGoesOut(s: State, site: Site, affinity: real) returns (t: State)
    requires Asked(s, site) && StageOf(s, site).Claiming? && site in s.claims && BufferOf(s, site) == []
    requires affinity >= 0.0
    ensures Enabled(s, PublishBid(site, affinity)) && t == Apply(s, PublishBid(site, affinity))
    ensures Asked(t, site) && HasBid(t, site) && BidMsg(site, affinity) in t.network && t.codec == s.codec
  {
    t := Apply(s, PublishBid(site, affinity));
  }

  lemma BidComesIn(s: State, site: Site, affinity: real) returns (t: State)
    requires Asked(s, site) && HasBid(s, site) && BidMsg(site, affinity) in s.network
    ensures Enabled(s, RouteBid(site, affinity)) && t == Apply(s, RouteBid(site, affinity))
    ensures HasBid(t, site) && Open(t, site.req) && t.codec == s.codec && !t.queue && site.server !in t.loops
    ensures t.calls[site.req] == Call(Selecting, [Claim(site.server, affinity)], [], [])
  {
    t := Apply(s, RouteBid(site, affinity));
  }

  lemma BidArrives(s: State, site: Site, affinity: real) returns (t: State)
    requires Asked(s, site) && StageOf(s, site).Decoding? && affinity >= 0.0
    ensures Leads(s, [RegisterBid(site), PublishBid(site, affinity), RouteBid(site, affinity)], t)
    ensures HasBid(t, site) && Open(t, site.req) && t.codec == s.codec && !t.queue && site.server !in t.loops
    ensures t.calls[site.req] == Call(Selecting, [Claim(site.server, affinity)], [], [])
  {
    hide Enabled, Apply, Asked, HasBid, StageOf, BufferOf;
    var claiming := BidOpens(s, site);
    var out := BidGoesOut(claiming, site, affinity);
    t := BidComesIn(out, site, affinity);
    ThreeSteps(s, RegisterBid(site), PublishBid(site, affinity), RouteBid(site, affinity));
  }

  /** A bid that selection hears can be granted. */
  lemma BidIsHeard(s: State, site: Site, affinity: real) returns (t: State)
    requires HasBid(s, site) && Open(s, site.req) && site.server !in s.loops
    requires s.calls[site.req] == Call(Selecting, [Claim(site.server, affinity)], [], [])
    ensures Enabled(s, Hear(site.req)) && t == Apply(s, Hear(site.req))
    ensures HasBid(t, site) && Open(t, site.req) && site.server !in t.loops && t.codec == s.codec
    ensures t.calls[site.req] == Call(Selecting, [], [], [Claim(site.server, affinity)])
  {
    t := Apply(s, Hear(site.req));
  }

  lemma GrantGoesOut(s: State, site: Site, affinity: real, targets: set<ServerId>) returns (t: State)
    requires HasBid(s, site) && Open(s, site.req) && site.server !in s.loops && site.server in targets
    requires s.calls[site.req] == Call(Selecting, [], [], [Claim(site.server, affinity)])
    ensures Enabled(s, GrantTo(site.req, site.server, targets))
    ensures t == Apply(s, GrantTo(site.req, site.server, targets))
    ensures GrantMsg(site, site.server) in t.network && HasBid(t, site) && Open(t, site.req)
    ensures t.codec == s.codec && site.server !in t.loops
    ensures t.calls[site.req] == Call(Awaiting, [], [], [Claim(site.server, affinity)])
  {
    assert Claim(site.server, affinity) in s.calls[site.req].heard;
    t := Apply(s, GrantTo(site.req, site.server, targets));
  }

  lemma BidIsGranted(s: State, site: Site, affinity: real, targets: set<ServerId>) returns (t: State)
    requires HasBid(s, site) && Open(s, site.req) && site.server !in s.loops && site.server in targets
    requires s.calls[site.req] == Call(Selecting, [Claim(site.server, affinity)], [], [])
    ensures Leads(s, [Hear(site.req), GrantTo(site.req, site.server, targets)], t)
    ensures GrantMsg(site, site.server) in t.network && HasBid(t, site) && Open(t, site.req)
    ensures t.codec == s.codec && site.server !in t.loops
    ensures t.calls[site.req] == Call(Awaiting, [], [], [Claim(site.server, affinity)])
  {
    hide Enabled, Apply, HasBid;
    var heard := BidIsHeard(s, site, affinity);
    t := GrantGoesOut(heard, site, affinity, targets);
    TwoSteps(s, Hear(site.req), GrantTo(site.req, site.server, targets));
  }

  lemma GrantIsTaken(s: State, site: Site) returns (t: State)
    requires GrantMsg(site, site.server) in s.network && HasBid(s, site) && site.server !in s.loops
    requires site.req in s.calls
    ensures Enabled(s, TakeGrant(site, site.server)) && t == Apply(s, TakeGrant(site, site.server))
    ensures HasBid(t, site) && SameCall(s, t, site.req)
    ensures site.server in t.loops && t.loops[site.server] == (site.req, site.server)
  {
    t := Apply(s, TakeGrant(site, site.server));
  }

  lemma GrantIsBuffered(s: State, site: Site) returns (t: State)
    requires HasBid(s, site) && site.server in s.loops && s.loops[site.server] == (site.req, site.server)
    requires site.req in s.calls
    ensures Enabled(s, SendGrant(site.server)) && t == Apply(s, SendGrant(site.server))
    ensures StageOf(t, site).Bidding? && BufferOf(t, site) == [site.server] && SameCall(s, t, site.req)
  {
    t := Apply(s, SendGrant(site.server));
  }

  lemma GrantArrives(s: State, site: Site) returns (t: State)
    requires GrantMsg(site, site.server) in s.network && HasBid(s, site) && site.server !in s.loops
    requires site.req in s.calls
    ensures Leads(s, [TakeGrant(site, site.server), SendGrant(site.server)], t)
    ensures StageOf(t, site).Bidding? && BufferOf(t, site) == [site.server] && SameCall(s, t, site.req)
  {
    hide Enabled, Apply, HasBid, StageOf, BufferOf;
    var taken := GrantIsTaken(s, site);
    t := GrantIsBuffered(taken, site);
    TwoSteps(s, TakeGrant(site, site.server), SendGrant(site.server));
  }

  lemma ReplyComesIn(s: State, r: ReqId, reply: Answered) returns (t: State)
    requires Open(s, r) && s.calls[r].replies == [] && ReplyMsg(r, reply) in s.network
    ensures Enabled(s, RouteReply(r, reply)) && t == Apply(s, RouteReply(r, reply))
    ensures r in t.calls && t.calls[r] == s.calls[r].(replies := [reply]) && t.codec == s.codec
  {
    t := Apply(s, RouteReply(r, reply));
  }

  lemma ReplyIsTaken(s: State, r: ReqId, reply: Answered) returns (t: State)
    requires r in s.calls && s.calls[r].phase.Awaiting? && s.calls[r].replies == [reply]
    ensures Enabled(s, Answer(r)) && t == Apply(s, Answer(r)) && r in t.calls
    ensures t.calls[r].phase == Leaving(ReadResponse(s.codec, reply.res), Some(reply))
  {
    hide ReadResponse;
    t := Apply(s, Answer(r));
  }

  lemma CallReturns(s: State, r: ReqId, result: CallResult, reply: Option<Answered>) returns (t: State)
    requires r in s.calls && s.calls[r].phase == Leaving(result, reply)
    ensures Enabled(s, Leave(r)) && t == Apply(s, Leave(r))
    ensures r in t.calls && t.calls[r].phase == Left(result, reply) && !Open(t, r)
  {
    t := Apply(s, Leave(r));
  }

  /** A waiting call returns the reading of the response that reaches it. */
  lemma ReplyReturns(s: State, r: ReqId, reply: Answered) returns (t: State)
    requires Open(s, r) && s.calls[r].phase.Awaiting? && s.calls[r].replies == [] && ReplyMsg(r, reply) in s.network
    ensures Leads(s, [RouteReply(r, reply), Answer(r), Leave(r)], t)
    ensures r in t.calls && t.calls[r].phase == Left(ReadResponse(s.codec, reply.res), Some(reply))
  {
    hide Enabled, Apply, ReadResponse;
    var routed := ReplyComesIn(s, r, reply);
    var taken := ReplyIsTaken(routed, r, reply);
    t := CallReturns(taken, r, ReadResponse(s.codec, reply.res), Some(reply));
    ThreeSteps(s, RouteReply(r, reply), Answer(r), Leave(r));
  }

  /** From every state, reachable ones included, a fresh claimed request can go all the way: any server
      it is published to whose run loop is free can bid at any affinity, be granted, run, and have
      the call return the reading of what its handler returned. */
  lemma ClaimedCallAnswers(s: State, site: Site, targets: set<ServerId>, affinity: real, h: HandlerResult)
    returns (path: seq<Action>, t: State)
    requires !s.queue && site.req !in s.calls && site.server in targets && site.server !in s.loops
    requires affinity >= 0.0
    ensures Leads(s, path, t) && site.req in t.calls
    ensures t.calls[site.req].phase
         == Left(ReadResponse(s.codec, SendResponse(s.codec, h)),
                 Some(Answered(Some(site.server), SendResponse(s.codec, h))))
  {
    hide Enabled, Apply, Leads, StageOf, BufferOf, ReadResponse, SendResponse;
    var r := site.req;
    var asked := AskServer(s, site, targets);
    var bid := BidArrives(asked, site, affinity);
    var granted := BidIsGranted(bid, site, affinity, targets);
    var buffered := GrantArrives(granted, site);
    var ran, answered := GrantedBidAnswers(buffered, site, h);
    var reply := Answered(Some(site.server), SendResponse(s.codec, h));
    t := ReplyReturns(answered, r, reply);
    path := [Publish(r, targets), Receive(site)];
    path := Joined(s, path, asked, [RegisterBid(site), PublishBid(site, affinity), RouteBid(site, affinity)], bid);
    path := Joined(s, path, bid, [Hear(r), GrantTo(r, site.server, targets)], granted);
    path := Joined(s, path, granted, [TakeGrant(site, site.server), SendGrant(site.server)], buffered);
    path := Joined(s, path, buffered, [Decide(site), Unregister(site)], ran);
    path := Joined(s, path, ran, [Finish(site, h), PublishResponse(site)], answered);
    path := Joined(s, path, answered, [RouteReply(r, reply), Answer(r), Leave(r)], t);
  }

  lemma Joined(s: State, path: seq<Action>, t: State, rest: seq<Action>, u: State) returns (whole: seq<Action>)
    requires Leads(s, path, t) && Leads(t, rest, u)
    ensures Leads(s, whole, u)
  {
    Join(s, path, t, rest, u);
    whole := path + rest;
  }

  /** On a queue the one server that gets the request answers it without any bid. */
  lemma QueueCallAnswers(s: State, site: Site, h: HandlerResult) returns (path: seq<Action>, t: State)
    requires s.queue && site.req !in s.calls
    ensures Leads(s, path, t) && site.req in t.calls
    ensures t.calls[site.req].phase
         == Left(ReadResponse(s.codec, SendResponse(s.codec, h)),
                 Some(Answered(Some(site.server), SendResponse(s.codec, h))))
  {
    hide Enabled, Apply, Leads, StageOf, BufferOf, ReadResponse, SendResponse;
    var r := site.req;
    var running := AskQueue(s, site);
    var answered := RunningAnswers(running, site, h);
    var reply := Answered(Some(site.server), SendResponse(s.codec, h));
    t := ReplyReturns(answered, r, reply);
    path := [Publish(r, {site.server}), Receive(site), SkipClaim(site)];
    path := Joined(s, path, running, [Finish(site, h), PublishResponse(site)], answered);
    path := Joined(s, path, answered, [RouteReply(r, reply), Answer(r), Leave(r)], t);
  }

  lemma QueueGetsRequest(s: State, site: Site) returns (t: State)
    requires s.queue && site.req !in s.calls
    ensures Leads(s, [Publish(site.req, {site.server}), Receive(site)], t)
    ensures StageOf(t, site).Decoding? && Open(t, site.req) && t.codec == s.codec && t.queue
    ensures t.calls[site.req] == Call(Awaiting, [], [], [])
  {
    var published := Apply(s, Publish(site.req, {site.server}));
    assert RequestMsg(site) in published.network;
    TwoSteps(s, Publish(site.req, {site.server}), Receive(site));
    t := Apply(published, Receive(site));
  }

  lemma AskQueue(s: State, site: Site) returns (t: State)
    requires s.queue && site.req !in s.calls
    ensures Leads(s, [Publish(site.req, {site.server}), Receive(site), SkipClaim(site)], t)
    ensures StageOf(t, site).Running? && Open(t, site.req) && t.codec == s.codec && site in t.ran
    ensures t.calls[site.req] == Call(Awaiting, [], [], [])
  {
    hide Leads;
    var got := QueueGetsRequest(s, site);
    t := Apply(got, SkipClaim(site));
    var path := [Publish(site.req, {site.server}), Receive(site)];
    OneMore(s, path, got, SkipClaim(site));
    assert path + [SkipClaim(site)] == [Publish(site.req, {site.server}), Receive(site), SkipClaim(site)];
  }

  lemma RequestIsRejected(s: State, site: Site, message: string) returns (t: State)
    requires StageOf(s, site).Decoding? && site.req in s.calls && message != ""
    ensures Leads(s, [RejectMalformed(site, message), PublishResponse(site)], t) && SameCall(s, t, site.req)
    ensures t.ran == s.ran
    ensures ReplyMsg(site.req, Answered(Some(site.server), Response("malformed_request", message, ""))) in t.network
  {
    var rejected := Apply(s, RejectMalformed(site, message));
    t := Apply(rejected, PublishResponse(site));
    hide Enabled, Apply;
    TwoSteps(s, RejectMalformed(site, message), PublishResponse(site));
  }

  /** A queue call whose request cannot be decoded returns that error, and no handler runs for it. */
  lemma MalformedReturns(s: State, site: Site, message: string) returns (path: seq<Action>, t: State)
    requires s.queue && site.req !in s.calls && message != ""
    ensures Leads(s, path, t) && site.req in t.calls
    ensures t.calls[site.req].phase.Left?
    ensures t.calls[site.req].phase.result == RemoteError("malformed_request", message)
  {
    hide Enabled, Apply, Leads, StageOf;
    var r, res := site.req, Response("malformed_request", message, "");
    var got := QueueGetsRequest(s, site);
    var rejected := RequestIsRejected(got, site, message);
    t := ReplyReturns(rejected, r, Answered(Some(site.server), res));
    path := [Publish(r, {site.server}), Receive(site)];
    path := Joined(s, path, got, [RejectMalformed(site, message), PublishResponse(site)], rejected);
    path := Joined(s, path, rejected, [RouteReply(r, Answered(Some(site.server), res)), Answer(r), Leave(r)], t);
  }

  lemma StandInIsSent(s: State, r: ReqId) returns (t: State)
    requires Open(s, r)
    ensures Enabled(s, ReportUnanswered(r)) && t == Apply(s, ReportUnanswered(r))
    ensures ReplyMsg(r, STAND_IN) in t.network && SameCall(s, t, r)
  {
    t := Apply(s, ReportUnanswered(r));
  }

  const STAND_IN := Answered(None, Response(UNANSWERED_CODE, "", ""))

  lemma StandInIsTaken(s: State, r: ReqId) returns (a: Action, t: State)
    requires r in s.calls && s.calls[r].replies == [STAND_IN]
    requires s.calls[r].phase.Selecting? || s.calls[r].phase.Awaiting?
    ensures Enabled(s, a) && t == Apply(s, a) && r in t.calls
    ensures t.calls[r].phase == Leaving(NoSubscriber, Some(STAND_IN))
  {
    a := if s.calls[r].phase.Selecting? then HearReply(r) else Answer(r);
    t := Apply(s, a);
  }

  /** When the broker reports that nobody got a request, its call can return so, selecting or waiting. */
  lemma UnansweredReturns(s: State, r: ReqId) returns (path: seq<Action>, t: State)
    requires Open(s, r) && s.calls[r].replies == [] && (s.calls[r].phase.Selecting? || s.calls[r].phase.Awaiting?)
    ensures Leads(s, path, t) && r in t.calls && t.calls[r].phase == Left(NoSubscriber, Some(STAND_IN))
  {
    hide Enabled, Apply, Leads;
    var reported := StandInIsSent(s, r);
    var routed := ReplyComesIn(reported, r, STAND_IN);
    var take, taken := StandInIsTaken(routed, r);
    t := CallReturns(taken, r, NoSubscriber, Some(STAND_IN));
    TwoSteps(s, ReportUnanswered(r), RouteReply(r, STAND_IN));
    TwoSteps(routed, take, Leave(r));
    path := Joined(s, [ReportUnanswered(r), RouteReply(r, STAND_IN)], routed, [take, Leave(r)], t);
  }
}
