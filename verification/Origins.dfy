/**
 Where what a call hears, grants and returns comes from: the steps of the run that published it.
 Each step changes a call, a stage or the bids underway in one of a few ways.
 */
module Origins {
  import opened Wrappers
  import opened Selection
  import opened Calls
  import opened Negotiation
  import opened Answers

  // ---------- what one step does to one call, one stage and the bids underway ----------

  ghost predicate NextCall(s: State, a: Action, r: ReqId, c: Call, d: Call) {
    || d == c
    || (a.RouteBid? && a.site.req == r && BidMsg(a.site, a.affinity) in s.network
        && d == PutBid(c, Claim(a.site.server, a.affinity)))
    || (a.RouteReply? && d == PutReply(c, a.reply))
    || (a.Hear? && c.bids != [] && d == TakeBid(c))
    || (a.HearReply? && c.replies != [] && d == HoldBack(c))
    || ((a.HearReply? || a.Answer?) && Going(c) && c.replies != [] && d == TakeReply(s.codec, c))
    || (a.GrantTo? && c.phase.Selecting? && d == c.(phase := Awaiting))
    || (a.Abort? && Going(c) && d == c.(phase := Leaving(a.why, None)))
    || (a.Leave? && c.phase.Leaving? && d == c.(phase := Left(c.phase.result, c.phase.reply)))
  }

  predicate Going(c: Call) {
    c.phase.Selecting? || c.phase.Awaiting?
  }

  ghost predicate CallMoves(s: State, a: Action, t: State, r: ReqId) {
    if r in s.calls then r in t.calls && NextCall(s, a, r, s.calls[r], t.calls[r])
    else r in t.calls ==> Going(t.calls[r]) && t.calls[r].bids == [] && t.calls[r].heard == []
  }

  lemma SetCalls(s: State, x: ReqId, c: Call)
    ensures SetCall(s, x, c).calls == s.calls[x := c]
  {
  }

  lemma SetMoves(s: State, a: Action, u: State, x: ReqId, c: Call, r: ReqId)
    requires u.calls == s.calls && x in s.calls && (x == r ==> NextCall(s, a, r, s.calls[r], c))
    ensures CallMoves(s, a, SetCall(u, x, c), r)
  {
    hide NextCall, SetCall;
    SetCalls(u, x, c);
    StandsStill(s, a, r);
  }

  lemma StandsStill(s: State, a: Action, r: ReqId)
    ensures r in s.calls ==> NextCall(s, a, r, s.calls[r], s.calls[r])
  {
  }

  lemma SameCalls(s: State, a: Action, t: State, r: ReqId)
    requires t.calls == s.calls
    ensures CallMoves(s, a, t, r)
  {
  }

  lemma PublishMoves(s: State, x: ReqId, targets: set<ServerId>, r: ReqId)
    requires x !in s.calls
    ensures CallMoves(s, Publish(x, targets), PublishRequest(s, x, targets), r)
  {
  }

  lemma GrantMoves(s: State, x: ReqId, g: ServerId, targets: set<ServerId>, r: ReqId)
    requires InPhase(s, x, true)
    ensures CallMoves(s, GrantTo(x, g, targets), PublishGrant(s, x, g, targets), r)
  {
  }

  lemma LeaveMoves(s: State, x: ReqId, r: ReqId)
    requires x in s.calls && s.calls[x].phase.Leaving?
    ensures CallMoves(s, Leave(x), RemoveRoutes(s, x), r)
  {
  }

  lemma RouteBidMoves(s: State, site: Site, affinity: real, r: ReqId)
    requires Enabled(s, RouteBid(site, affinity))
    ensures CallMoves(s, RouteBid(site, affinity), ClientStep(s, RouteBid(site, affinity)), r)
  {
    hide CallMoves, SetCall;
    var a, m, x := RouteBid(site, affinity), BidMsg(site, affinity), site.req;
    if x in s.calls && x in s.claimRoutes {
      SetMoves(s, a, Remove(s, m), x, PutBid(s.calls[x], Claim(site.server, affinity)), r);
    } else {
      SameCalls(s, a, Remove(s, m), r);
    }
  }

  lemma RouteReplyMoves(s: State, x: ReqId, reply: Answered, r: ReqId)
    requires Enabled(s, RouteReply(x, reply))
    ensures CallMoves(s, RouteReply(x, reply), ClientStep(s, RouteReply(x, reply)), r)
  {
    hide CallMoves, SetCall;
    var a, m := RouteReply(x, reply), ReplyMsg(x, reply);
    if x in s.calls && x in s.replyRoutes {
      SetMoves(s, a, Remove(s, m), x, PutReply(s.calls[x], reply), r);
    } else {
      SameCalls(s, a, Remove(s, m), r);
    }
  }

  lemma ListenMoves(s: State, a: Action, r: ReqId)
    requires Enabled(s, a) && (a.Hear? || a.HearReply? || a.Answer? || a.Abort?)
    ensures CallMoves(s, a, ClientStep(s, a), r)
  {
    hide CallMoves, SetCall, ReadResponse;
    match a
    case Hear(x) => SetMoves(s, a, s, x, TakeBid(s.calls[x]), r);
    case HearReply(x) =>
      var c := s.calls[x];
      SetMoves(s, a, s, x, if c.replies[0].res.error != "" then HoldBack(c) else TakeReply(s.codec, c), r);
    case Answer(x) => SetMoves(s, a, s, x, TakeReply(s.codec, s.calls[x]), r);
    case Abort(x, why) => SetMoves(s, a, s, x, s.calls[x].(phase := Leaving(why, None)), r);
  }

  lemma StepMovesCall(s: State, a: Action, r: ReqId)
    requires Enabled(s, a)
    ensures CallMoves(s, a, Apply(s, a), r)
  {
    hide CallMoves, ServerStep, PublishRequest, PublishGrant, RemoveRoutes;
    if AtServer(a) {
      SameCalls(s, a, Apply(s, a), r);
    } else if a.RouteBid? {
      RouteBidMoves(s, a.site, a.affinity, r);
    } else if a.RouteReply? {
      RouteReplyMoves(s, a.r, a.reply, r);
    } else if a.Hear? || a.HearReply? || a.Answer? || a.Abort? {
      ListenMoves(s, a, r);
    } else {
      match a
      case Publish(x, targets) => PublishMoves(s, x, targets, r);
      case GrantTo(x, g, targets) => GrantMoves(s, x, g, targets, r);
      case Leave(x) => LeaveMoves(s, x, r);
      case Lose(_) => SameCalls(s, a, Apply(s, a), r);
      case ReportUnanswered(_) => SameCalls(s, a, Apply(s, a), r);
    }
  }

  // ---------- where messages come from ----------

  ghost predicate WasBid(actions: seq<Action>, i: nat, site: Site, affinity: real)
    requires i <= |actions|
  {
    exists j :: 0 <= j < i && actions[j] == PublishBid(site, affinity)
  }

  ghost predicate IsHeard(s: State, r: ReqId, c: Claim) {
    r in s.calls && (c in s.calls[r].bids || c in s.calls[r].heard)
  }

  lemma RequestsAreNoBids(s: State, r: ReqId, targets: set<ServerId>, m: Msg)
    requires m.BidMsg?
    ensures PublishRequest(s, r, targets).network[m] == s.network[m]
  {
  }

  lemma GrantsAreNoBids(s: State, r: ReqId, g: ServerId, targets: set<ServerId>, m: Msg)
    requires m.BidMsg? && r in s.calls
    ensures PublishGrant(s, r, g, targets).network[m] == s.network[m]
  {
  }

  lemma ClientNetwork(s: State, m: Msg, r: ReqId, c: Call)
    ensures Remove(s, m).network <= s.network && SetCall(s, r, c).network == s.network
    ensures r in s.calls && s.calls[r].phase.Leaving? ==> RemoveRoutes(s, r).network == s.network
  {
  }

  lemma RemoveAndSet(s: State, m: Msg, r: ReqId, c: Call)
    ensures Remove(s, m).network <= s.network && SetCall(Remove(s, m), r, c).network <= s.network
  {
  }

  lemma NoClientBids(s: State, a: Action, site: Site, affinity: real)
    requires Enabled(s, a) && !AtServer(a) && BidMsg(site, affinity) in ClientStep(s, a).network
    ensures BidMsg(site, affinity) in s.network
  {
    hide PublishRequest, PublishGrant, RemoveRoutes, SetCall, Remove;
    hide PutBid, PutReply, TakeBid, HoldBack, TakeReply, ReadResponse;
    var m := BidMsg(site, affinity);
    match a
    case Publish(r, targets) => RequestsAreNoBids(s, r, targets, m);
    case GrantTo(r, g, targets) => GrantsAreNoBids(s, r, g, targets, m);
    case RouteBid(x, f) =>
      if x.req in s.calls {
        RemoveAndSet(s, BidMsg(x, f), x.req, PutBid(s.calls[x.req], Claim(x.server, f)));
      } else {
        ClientNetwork(s, BidMsg(x, f), 0, Call(Awaiting, [], [], []));
      }
    case RouteReply(r, reply) =>
      if r in s.calls {
        RemoveAndSet(s, ReplyMsg(r, reply), r, PutReply(s.calls[r], reply));
      } else {
        ClientNetwork(s, ReplyMsg(r, reply), 0, Call(Awaiting, [], [], []));
      }
    case Lose(l) => ClientNetwork(s, l, 0, Call(Awaiting, [], [], []));
    case ReportUnanswered(r) =>
    case Hear(r) => ClientNetwork(s, m, r, TakeBid(s.calls[r]));
    case HearReply(r) =>
      ClientNetwork(s, m, r, HoldBack(s.calls[r]));
      ClientNetwork(s, m, r, TakeReply(s.codec, s.calls[r]));
    case Answer(r) => ClientNetwork(s, m, r, TakeReply(s.codec, s.calls[r]));
    case Abort(r, why) => ClientNetwork(s, m, r, s.calls[r].(phase := Leaving(why, None)));
    case Leave(r) => ClientNetwork(s, m, r, s.calls[r]);
  }

  lemma NoHandlerBids(s: State, a: Action, site: Site, affinity: real)
    requires Enabled(s, a) && AtServer(a) && !AboutBid(a) && BidMsg(site, affinity) in HandlerStep(s, a).network
    ensures BidMsg(site, affinity) in s.network
  {
    hide SendResponse;
  }

  lemma BidNetwork(s: State, x: Site, g: ServerId)
    ensures OpenBid(s, x).network == s.network && TakeUpGrant(s, x, g).network <= s.network
    ensures x.server in s.loops ==> BufferGrant(s, x.server).network == s.network
    ensures BufferOf(s, x) != [] ==> DecideBid(s, x).network == s.network
    ensures StartHandler(CloseBid(s, x), x).network == s.network
    ensures Enter(CloseBid(s, x), x, Done(false, None)).network == s.network
  {
  }

  lemma PublishedNetwork(s: State, x: Site, affinity: real)
    ensures Add(EnterBid(s, x), BidMsg(x, affinity)).network == s.network + multiset{BidMsg(x, affinity)}
  {
  }

  lemma NewServerBids(s: State, a: Action, site: Site, affinity: real)
    requires Enabled(s, a) && AboutBid(a) && BidMsg(site, affinity) in BidStep(s, a).network
    ensures BidMsg(site, affinity) in s.network || a == PublishBid(site, affinity)
  {
    hide StageOf, BufferOf, OpenBid, Add, EnterBid, TakeUpGrant, BufferGrant, DecideBid, StartHandler, CloseBid, Enter;
    match a
    case RegisterBid(x) => BidNetwork(s, x, "");
    case PublishBid(x, f) => PublishedNetwork(s, x, f);
    case TakeGrant(x, g) => BidNetwork(s, x, g);
    case SendGrant(x) => BidNetwork(s, Site(x, 0), "");
    case Decide(x) => BidNetwork(s, x, "");
    case Unregister(x) => BidNetwork(s, x, "");
  }

  lemma NewBids(s: State, a: Action, site: Site, affinity: real)
    requires Enabled(s, a) && BidMsg(site, affinity) in Apply(s, a).network
    ensures BidMsg(site, affinity) in s.network || a == PublishBid(site, affinity)
  {
    hide Enabled, ClientStep, BidStep, HandlerStep;
    if !AtServer(a) {
      NoClientBids(s, a, site, affinity);
    } else if AboutBid(a) {
      NewServerBids(s, a, site, affinity);
    } else {
      NoHandlerBids(s, a, site, affinity);
    }
  }

  lemma NewlyHeard(s: State, a: Action, r: ReqId, c: Claim)
    requires Enabled(s, a) && IsHeard(Apply(s, a), r, c)
    ensures IsHeard(s, r, c) || BidMsg(Site(c.serverId, r), c.affinity) in s.network
  {
    hide Enabled, Apply, ReadResponse;
    StepMovesCall(s, a, r);
  }

  /** Whatever a call hears as a bid was published as one, by that server, for that very request and
      with that affinity. */
  lemma {:induction false} BidsArePublished(states: seq<State>, actions: seq<Action>, i: nat, r: ReqId, c: Claim)
    requires IsRun(states, actions) && i < |states|
    requires IsHeard(states[i], r, c) || BidMsg(Site(c.serverId, r), c.affinity) in states[i].network
    ensures WasBid(actions, i, Site(c.serverId, r), c.affinity)
  {
    hide Enabled, Apply, IsHeard;
    if i == 0 {
      NothingHeard(states[0], r, c);
    } else {
      var s, a, site := states[i - 1], actions[i - 1], Site(c.serverId, r);
      if IsHeard(states[i], r, c) {
        NewlyHeard(s, a, r, c);
      } else {
        NewBids(s, a, site, c.affinity);
      }
      if a != PublishBid(site, c.affinity) || IsHeard(s, r, c) || BidMsg(site, c.affinity) in s.network {
        BidsArePublished(states, actions, i - 1, r, c);
        var j :| 0 <= j < i - 1 && actions[j] == PublishBid(site, c.affinity);
      } else {
        assert actions[i - 1] == PublishBid(site, c.affinity);
      }
    }
  }

  lemma NothingHeard(s: State, r: ReqId, c: Claim)
    requires exists codec, queue, custom :: s == Init(codec, queue, custom)
    ensures !IsHeard(s, r, c) && s.network == multiset{}
  {
  }

  /** Without a selection function a grant names a server that published a bid for that request before. */
  lemma GrantFollowsBid(states: seq<State>, actions: seq<Action>, i: nat) returns (affinity: real)
    requires IsRun(states, actions) && i < |actions| && actions[i].GrantTo? && !states[i].custom
    ensures WasBid(actions, i, Site(actions[i].grantee, actions[i].r), affinity)
  {
    var r := actions[i].r;
    assert MayGrant(states[i], r, actions[i].grantee);
    var c :| c in states[i].calls[r].heard && c.serverId == actions[i].grantee;
    affinity := c.affinity;
    BidsArePublished(states, actions, i, r, c);
  }

  ghost predicate Responds(s: State, site: Site, res: Response) {
    StageOf(s, site) == Responding(res, true) || StageOf(s, site) == Done(true, Some(res))
  }

  lemma NewResponse(s: State, a: Action, site: Site, res: Response)
    requires Enabled(s, a) && Responds(Apply(s, a), site, res)
    ensures Responds(s, site, res) || (a.Finish? && a.site == site && res == SendResponse(s.codec, a.h))
  {
    hide Enabled, ClientStep, BidStep, HandlerStep, SendResponse;
    if AtServer(a) {
      if AboutBid(a) {
        NoBidResponse(s, a, site, res);
      } else {
        NewHandlerResponse(s, a, site, res);
      }
    }
  }

  lemma OpenedStage(s: State, x: Site, site: Site)
    ensures StageOf(OpenBid(s, x), site) == if site == x then Claiming else StageOf(s, site)
  {
  }

  lemma PublishedStage(s: State, x: Site, site: Site, affinity: real)
    ensures StageOf(Add(EnterBid(s, x), BidMsg(x, affinity)), site) == if site == x then Bidding else StageOf(s, site)
  {
  }

  lemma LoopStage(s: State, x: Site, site: Site, g: ServerId)
    ensures StageOf(TakeUpGrant(s, x, g), site) == StageOf(s, site)
    ensures x.server in s.loops ==> StageOf(BufferGrant(s, x.server), site) == StageOf(s, site)
  {
  }

  lemma DecidedStage(s: State, x: Site, site: Site)
    requires BufferOf(s, x) != []
    ensures if site == x then StageOf(DecideBid(s, x), site).Decided?
      else StageOf(DecideBid(s, x), site) == StageOf(s, site)
  {
  }

  lemma ClosedStage(s: State, x: Site, site: Site)
    ensures StageOf(StartHandler(CloseBid(s, x), x), site) == if site == x then Running else StageOf(s, site)
    ensures StageOf(Enter(CloseBid(s, x), x, Done(false, None)), site)
         == if site == x then Done(false, None) else StageOf(s, site)
  {
  }

  lemma NoBidResponse(s: State, a: Action, site: Site, res: Response)
    requires Enabled(s, a) && AboutBid(a) && Responds(BidStep(s, a), site, res)
    ensures Responds(s, site, res)
  {
    hide StageOf, OpenBid, Add, EnterBid, TakeUpGrant, BufferGrant, DecideBid, StartHandler, CloseBid, Enter;
    match a
    case RegisterBid(x) => OpenedStage(s, x, site);
    case PublishBid(x, affinity) => PublishedStage(s, x, site, affinity);
    case TakeGrant(x, g) => LoopStage(s, x, site, g);
    case SendGrant(x) => LoopStage(s, Site(x, 0), site, "");
    case Decide(x) => DecidedStage(s, x, site);
    case Unregister(x) => ClosedStage(s, x, site);
  }

  lemma EnteredStage(s: State, x: Site, stage: Stage, m: Msg, site: Site)
    ensures StageOf(Enter(s, x, stage), site) == if site == x then stage else StageOf(s, site)
    ensures StageOf(Add(Enter(s, x, stage), m), site) == if site == x then stage else StageOf(s, site)
  {
  }

  lemma StartedStage(s: State, x: Site, site: Site)
    ensures StageOf(TakeRequest(s, x), site) == if site == x then Decoding else StageOf(s, site)
    ensures StageOf(StartHandler(s, x), site) == if site == x then Running else StageOf(s, site)
  {
  }

  lemma NewHandlerResponse(s: State, a: Action, site: Site, res: Response)
    requires Enabled(s, a) && AtServer(a) && !AboutBid(a) && Responds(HandlerStep(s, a), site, res)
    ensures Responds(s, site, res) || (a.Finish? && a.site == site && res == SendResponse(s.codec, a.h))
  {
    hide SendResponse, StageOf, Enter, Add, TakeRequest, StartHandler;
    var m := RequestMsg(site);
    match a
    case Receive(x) => StartedStage(s, x, site);
    case SkipClaim(x) => StartedStage(s, x, site);
    case RejectMalformed(x, message) =>
      EnteredStage(s, x, Responding(SendResponse(s.codec, Error(Psrpc("malformed_request", message))), false), m, site);
    case Decline(x) => EnteredStage(s, x, Done(false, None), m, site);
    case TimeOut(x) => EnteredStage(s, x, Decided(false), m, site);
    case Finish(x, h) => EnteredStage(s, x, Responding(SendResponse(s.codec, h), true), m, site);
    case PublishResponse(x) =>
      var stage := StageOf(s, x);
      EnteredStage(s, x, Done(stage.ran, Some(stage.res)), ReplyMsg(x.req, Answered(Some(x.server), stage.res)), site);
    case FailToPublish(x) =>
      if StageOf(s, x).Claiming? {
        EnteredStage(s, x, Decided(false), m, site);
      } else {
        EnteredStage(s, x, Done(StageOf(s, x).ran, None), m, site);
      }
  }

  lemma KeepsCodec(s: State, a: Action)
    requires Enabled(s, a)
    ensures Apply(s, a).codec == s.codec && Apply(s, a).queue == s.queue
  {
    hide Enabled, ClientStep, ServerStep;
  }

  lemma {:induction false} SameCodec(states: seq<State>, actions: seq<Action>, i: nat, j: nat)
    requires IsRun(states, actions) && i <= j < |states|
    ensures states[j].codec == states[i].codec && states[j].queue == states[i].queue
  {
    hide Enabled, Apply;
    if i < j {
      SameCodec(states, actions, i, j - 1);
      KeepsCodec(states[j - 1], actions[j - 1]);
    }
  }

  lemma {:induction false} ResponseIsOfHandler(states: seq<State>, actions: seq<Action>, i: nat, site: Site,
                                               res: Response)
    returns (j: nat, h: HandlerResult)
    requires IsRun(states, actions) && i < |states| && Responds(states[i], site, res)
    ensures j < i && actions[j] == Finish(site, h) && res == SendResponse(states[i].codec, h)
  {
    hide Enabled, Apply, SendResponse;
    if i > 0 {
      var s, a := states[i - 1], actions[i - 1];
      NewResponse(s, a, site, res);
      if Responds(s, site, res) {
        KeepsCodec(s, a);
        j, h := ResponseIsOfHandler(states, actions, i - 1, site, res);
      } else {
        KeepsCodec(s, a);
        j, h := i - 1, a.h;
      }
    }
  }

  /** A success a call returned is the reading of what a handler returned for that request; without a
      queue its server had been granted the request before the handler finished. */
  lemma SuccessCameFromHandler(states: seq<State>, actions: seq<Action>, i: nat, r: ReqId)
    returns (j: nat, site: Site, h: HandlerResult)
    requires IsRun(states, actions) && i < |states|
    requires r in states[i].calls && states[i].calls[r].phase.Left? && states[i].calls[r].phase.result.Success?
    ensures j < i && actions[j] == Finish(site, h) && site.req == r
    ensures states[i].calls[r].phase.result
         == ReadResponse(states[i].codec, SendResponse(states[i].codec, h))
    ensures !states[i].queue ==> WasGranted(actions, j, site)
  {
    hide ReadResponse, SendResponse, Apply;
    site := SuccessIsGenuine(states, actions, i, r);
    RanWhenDone(states, actions, i, r, site);
    j, h := ResponseIsOfHandler(states, actions, i, site, StageOf(states[i], site).sent.value);
    if !states[i].queue {
      RunInv(states, actions, j);
      assert Holds(states[j], AtSite(site));
      assert Enabled(states[j], Finish(site, h));
      SameCodec(states, actions, j, i);
      var k := RunFollowsTheOnlyGrant(states, actions, j, site);
      assert IsGrantTo(actions[k], site);
    }
  }

  lemma RanWhenDone(states: seq<State>, actions: seq<Action>, i: nat, r: ReqId, site: Site)
    requires IsRun(states, actions) && i < |states| && site in states[i].ran && StageOf(states[i], site).Done?
    requires StageOf(states[i], site).sent.Some?
    ensures Responds(states[i], site, StageOf(states[i], site).sent.value)
  {
    RunInv(states, actions, i);
    assert Holds(states[i], AtSite(site));
  }

  function ResultOf(s: State, r: ReqId): Option<CallResult> {
    if r !in s.calls then None
    else match s.calls[r].phase
      case Leaving(result, _) => Some(result)
      case Left(result, _) => Some(result)
      case _ => None
  }

  lemma StepKeepsResult(s: State, a: Action, r: ReqId)
    requires Enabled(s, a) && ResultOf(s, r).Some?
    ensures ResultOf(Apply(s, a), r) == ResultOf(s, r)
  {
    hide Enabled, Apply, ReadResponse;
    StepMovesCall(s, a, r);
  }

  /** A call has one result: what it is about to return is what it returns. */
  lemma {:induction false} ResultIsFinal(states: seq<State>, actions: seq<Action>, i: nat, j: nat, r: ReqId)
    requires IsRun(states, actions) && i <= j < |states| && ResultOf(states[i], r).Some?
    ensures ResultOf(states[j], r) == ResultOf(states[i], r)
  {
    hide Enabled, Apply, ResultOf;
    if i < j {
      ResultIsFinal(states, actions, i, j - 1, r);
      StepKeepsResult(states[j - 1], actions[j - 1], r);
    }
  }

  ghost predicate EndsCall(s: State, a: Action, r: ReqId, result: CallResult) {
    || (a.Abort? && result == a.why)
    || (r in s.calls && s.calls[r].replies != [] && result == ReadResponse(s.codec, s.calls[r].replies[0].res))
  }

  /** And it is fixed by the step that ends the wait: a reply that is taken, or the reason of an abort. */
  lemma ResultIsOfStep(states: seq<State>, actions: seq<Action>, i: nat, r: ReqId)
    requires IsRun(states, actions) && i < |actions|
    requires ResultOf(states[i], r).None? && ResultOf(states[i + 1], r).Some?
    ensures EndsCall(states[i], actions[i], r, ResultOf(states[i + 1], r).value)
  {
    hide Enabled, Apply, ReadResponse;
    StepMovesCall(states[i], actions[i], r);
  }

  // ---------- what is over is over ----------

  lemma BidKeepsDone(s: State, a: Action, site: Site)
    requires Enabled(s, a) && AboutBid(a) && StageOf(s, site).Done?
    ensures StageOf(BidStep(s, a), site) == StageOf(s, site)
  {
    hide StageOf, OpenBid, Add, EnterBid, TakeUpGrant, BufferGrant, DecideBid, StartHandler, CloseBid, Enter;
    match a
    case RegisterBid(x) => OpenedStage(s, x, site);
    case PublishBid(x, affinity) => PublishedStage(s, x, site, affinity);
    case TakeGrant(x, g) => LoopStage(s, x, site, g);
    case SendGrant(x) => LoopStage(s, Site(x, 0), site, "");
    case Decide(x) => DecidedStage(s, x, site);
    case Unregister(x) => ClosedStage(s, x, site);
  }

  lemma HandlerKeepsDone(s: State, a: Action, site: Site)
    requires Enabled(s, a) && AtServer(a) && !AboutBid(a) && a != Receive(site) && StageOf(s, site).Done?
    ensures StageOf(HandlerStep(s, a), site) == StageOf(s, site)
  {
    hide SendResponse, StageOf, Enter, Add, TakeRequest, StartHandler;
    var m := RequestMsg(site);
    match a
    case Receive(x) => StartedStage(s, x, site);
    case SkipClaim(x) => StartedStage(s, x, site);
    case RejectMalformed(x, message) =>
      EnteredStage(s, x, Responding(SendResponse(s.codec, Error(Psrpc("malformed_request", message))), false), m, site);
    case Decline(x) => EnteredStage(s, x, Done(false, None), m, site);
    case TimeOut(x) => EnteredStage(s, x, Decided(false), m, site);
    case Finish(x, h) => EnteredStage(s, x, Responding(SendResponse(s.codec, h), true), m, site);
    case PublishResponse(x) =>
      var stage := StageOf(s, x);
      EnteredStage(s, x, Done(stage.ran, Some(stage.res)), ReplyMsg(x.req, Answered(Some(x.server), stage.res)), site);
    case FailToPublish(x) =>
      EnteredStage(s, x, Decided(false), m, site);
      EnteredStage(s, x, if StageOf(s, x).Responding? then Done(StageOf(s, x).ran, None) else Absent, m, site);
  }

  /** A server is done with a request once: from then on it neither bids nor runs nor responds for it. */
  lemma {:induction false} DoneIsFinal(states: seq<State>, actions: seq<Action>, i: nat, j: nat, site: Site)
    requires IsRun(states, actions) && i <= j < |states| && StageOf(states[i], site).Done?
    ensures StageOf(states[j], site) == StageOf(states[i], site)
  {
    hide Apply, Enabled, StageOf, Inv;
    if i < j {
      DoneIsFinal(states, actions, i, j - 1, site);
      var s, a := states[j - 1], actions[j - 1];
      RunInv(states, actions, j - 1);
      NotTwice(s, site);
      StepKeepsDone(s, a, site);
    }
  }

  lemma NotTwice(s: State, site: Site)
    requires Inv(s) && StageOf(s, site).Done?
    ensures !Enabled(s, Receive(site))
  {
    assert Holds(s, AtSite(site));
  }

  lemma StepKeepsDone(s: State, a: Action, site: Site)
    requires Enabled(s, a) && a != Receive(site) && StageOf(s, site).Done?
    ensures StageOf(Apply(s, a), site) == StageOf(s, site)
  {
    hide Enabled, ClientStep, BidStep, HandlerStep;
    if AtServer(a) {
      if AboutBid(a) {
        BidKeepsDone(s, a, site);
      } else {
        HandlerKeepsDone(s, a, site);
      }
    }
  }

  /** A server that declines a request is done with it without a word. */
  lemma DeclinedIsSilent(states: seq<State>, actions: seq<Action>, i: nat, j: nat, site: Site)
    requires IsRun(states, actions) && i < j < |states| && actions[i] == Decline(site)
    ensures StageOf(states[j], site) == Done(false, None) && states[i + 1].network == states[i].network
  {
    Declined(states[i], site);
    hide Apply, Enabled, StageOf;
    DoneIsFinal(states, actions, i + 1, j, site);
  }

  lemma Declined(s: State, site: Site)
    requires Enabled(s, Decline(site))
    ensures StageOf(Apply(s, Decline(site)), site) == Done(false, None)
    ensures Apply(s, Decline(site)).network == s.network
  {
  }

  /** An error that comes in during selection is set aside and selection goes on; a reply without error ends it. */
  lemma EarlyReply(states: seq<State>, actions: seq<Action>, i: nat, r: ReqId)
    requires IsRun(states, actions) && i < |actions| && actions[i] == HearReply(r)
    ensures r in states[i].calls && states[i].calls[r].replies != [] && r in states[i + 1].calls
    ensures var c, d := states[i].calls[r], states[i + 1].calls[r];
      if c.replies[0].res.error != "" then d == c.(replies := c.replies[1..])
      else d.phase == Leaving(ReadResponse(states[i].codec, c.replies[0].res), Some(c.replies[0]))
  {
    hide ReadResponse;
  }
}
