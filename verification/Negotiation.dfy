/**
 Claim negotiation (pkg/client/rpc.go, pkg/client/client.go, pkg/server/rpc.go) as a
 step system: one client, any number of servers, any number of calls of one method.

 A step is one critical section or one channel operation. The bus may lose and reorder
 messages but never duplicates one; the broker may report a request unanswered at any
 time; timers and contexts fire at any time. Servers are named by their IDs.
 pkg/server/stream.go and pkg/client/stream.go negotiate a stream in the same way.
 */
module Negotiation {
  import opened Wrappers
  import opened Selection
  import opened Calls

  type ServerId = string
  type ReqId = nat

  datatype Site = Site(server: ServerId, req: ReqId)

  datatype Msg =
    | RequestMsg(site: Site)
    | BidMsg(site: Site, affinity: real)
    | GrantMsg(site: Site, grantee: ServerId)
    | ReplyMsg(req: ReqId, reply: Answered)

  /** A response and the server that published it; the broker's stand-in has none. */
  datatype Answered = Answered(from: Option<ServerId>, res: Response)

  /** One request at one server. `Decided` lasts until the bid's map entry is deleted. */
  datatype Stage =
    | Absent
    | Decoding
    | Claiming
    | Bidding
    | Decided(won: bool)
    | Running
    | Responding(res: Response, ran: bool)
    | Done(ran: bool, sent: Option<Response>)

  datatype Phase =
    | Selecting
    | Awaiting
    | Leaving(result: CallResult, reply: Option<Answered>)
    | Left(result: CallResult, reply: Option<Answered>)

  /** One call: its phase, the contents of its two channels and the bids selection saw. */
  datatype Call = Call(phase: Phase, bids: seq<Claim>, replies: seq<Answered>, heard: seq<Claim>)

  /** `queue` methods skip the claim; `custom` says a selection function is set.
      `claims` are the bids registered at the servers, `buffers` the contents of their
      grant channels, `loops` the grants run loops are about to send to one.
      `sentTo`, `bidders`, `grants` and `ran` are history. */
  datatype State = State(
    codec: Codec,
    queue: bool,
    custom: bool,
    network: multiset<Msg>,
    calls: map<ReqId, Call>,
    claimRoutes: set<ReqId>,
    replyRoutes: set<ReqId>,
    stages: map<Site, Stage>,
    claims: set<Site>,
    buffers: map<Site, seq<ServerId>>,
    loops: map<ServerId, (ReqId, ServerId)>,
    sentTo: map<ReqId, set<ServerId>>,
    bidders: set<Site>,
    grants: map<ReqId, ServerId>,
    ran: multiset<Site>)

  function StageOf(s: State, site: Site): Stage {
    if site in s.stages then s.stages[site] else Absent
  }

  function BufferOf(s: State, site: Site): seq<ServerId> {
    if site in s.buffers then s.buffers[site] else []
  }

  function Grantee(s: State, r: ReqId): Option<ServerId> {
    if r in s.grants then Some(s.grants[r]) else None
  }

  function Init(codec: Codec, queue: bool, custom: bool): State {
    State(codec, queue, custom, multiset{}, map[], {}, {}, map[], {}, map[], map[], map[], {}, map[], multiset{})
  }

  // ---------- what steps do ----------

  function Remove(s: State, m: Msg): State {
    s.(network := s.network - multiset{m})
  }

  function Add(s: State, m: Msg): State {
    s.(network := s.network + multiset{m})
  }

  function SetCall(s: State, r: ReqId, c: Call): State {
    s.(calls := s.calls[r := c])
  }

  function Enter(s: State, site: Site, stage: Stage): State {
    s.(stages := s.stages[site := stage])
  }

  function StartHandler(s: State, site: Site): State {
    s.(stages := s.stages[site := Running], ran := s.ran + multiset{site})
  }

  function PutBid(c: Call, bid: Claim): Call {
    c.(bids := c.bids + [bid])
  }

  function PutReply(c: Call, reply: Answered): Call {
    c.(replies := c.replies + [reply])
  }

  function TakeBid(c: Call): Call
    requires c.bids != []
  {
    c.(bids := c.bids[1..], heard := c.heard + [c.bids[0]])
  }

  /** An error that comes in during selection is held back. */
  function HoldBack(c: Call): Call
    requires c.replies != []
  {
    c.(replies := c.replies[1..])
  }

  function TakeReply(codec: Codec, c: Call): Call
    requires c.replies != []
  {
    c.(replies := c.replies[1..], phase := Leaving(ReadResponse(codec, c.replies[0].res), Some(c.replies[0])))
  }

  /** newRPC registers the routes and publishes a copy of the request to every subscribed server. */
  function PublishRequest(s: State, r: ReqId, targets: set<ServerId>): State {
    s.(calls := s.calls[r := Call(if s.queue then Awaiting else Selecting, [], [], [])],
       claimRoutes := s.claimRoutes + {r}, replyRoutes := s.replyRoutes + {r},
       sentTo := s.sentTo[r := targets],
       network := s.network + multiset(set t | t in targets :: RequestMsg(Site(t, r))))
  }

  function PublishGrant(s: State, r: ReqId, grantee: ServerId, targets: set<ServerId>): State
    requires r in s.calls
  {
    s.(calls := s.calls[r := s.calls[r].(phase := Awaiting)],
       grants := s.grants[r := grantee],
       network := s.network + multiset(set t | t in targets :: GrantMsg(Site(t, r), grantee)))
  }

  /** The deferred clean-up, with which the call returns. */
  function RemoveRoutes(s: State, r: ReqId): State
    requires r in s.calls && s.calls[r].phase.Leaving?
  {
    var phase := s.calls[r].phase;
    s.(calls := s.calls[r := s.calls[r].(phase := Left(phase.result, phase.reply))],
       claimRoutes := s.claimRoutes - {r}, replyRoutes := s.replyRoutes - {r})
  }

  /** The run loop takes a request and starts its goroutine. */
  function TakeRequest(s: State, site: Site): State {
    s.(stages := s.stages[site := Decoding], network := s.network - multiset{RequestMsg(site)})
  }

  function OpenBid(s: State, site: Site): State {
    s.(stages := s.stages[site := Claiming], claims := s.claims + {site}, buffers := s.buffers[site := []])
  }

  function EnterBid(s: State, site: Site): State {
    s.(stages := s.stages[site := Bidding], bidders := s.bidders + {site})
  }

  function CloseBid(s: State, site: Site): State {
    s.(claims := s.claims - {site})
  }

  /** The run loop looks a grant's bid up; without one the grant is dropped. */
  function TakeUpGrant(s: State, site: Site, grantee: ServerId): State {
    s.(network := s.network - multiset{GrantMsg(site, grantee)},
       loops := if site in s.claims then s.loops[site.server := (site.req, grantee)] else s.loops)
  }

  function BufferGrant(s: State, server: ServerId): State
    requires server in s.loops
  {
    var site := Site(server, s.loops[server].0);
    s.(loops := s.loops - {server}, buffers := s.buffers[site := BufferOf(s, site) + [s.loops[server].1]])
  }

  function DecideBid(s: State, site: Site): State
    requires BufferOf(s, site) != []
  {
    var buffer := BufferOf(s, site);
    s.(stages := s.stages[site := Decided(buffer[0] == site.server)], buffers := s.buffers[site := buffer[1..]])
  }

  // ---------- steps ----------

  datatype Action =
    // the bus
    | Lose(msg: Msg)
    | ReportUnanswered(r: ReqId)
    // the client
    | Publish(r: ReqId, targets: set<ServerId>)
    | RouteBid(site: Site, affinity: real)
    | RouteReply(r: ReqId, reply: Answered)
    | Hear(r: ReqId)
    | HearReply(r: ReqId)
    | GrantTo(r: ReqId, grantee: ServerId, targets: set<ServerId>)
    | Answer(r: ReqId)
    | Abort(r: ReqId, why: CallResult)
    | Leave(r: ReqId)
    // a server
    | Receive(site: Site)
    | RejectMalformed(site: Site, message: string)
    | Decline(site: Site)
    | SkipClaim(site: Site)
    | RegisterBid(site: Site)
    | PublishBid(site: Site, affinity: real)
    | TakeGrant(site: Site, grantee: ServerId)
    | SendGrant(server: ServerId)
    | Decide(site: Site)
    | TimeOut(site: Site)
    | Unregister(site: Site)
    | Finish(site: Site, h: HandlerResult)
    | PublishResponse(site: Site)
    | FailToPublish(site: Site)

  predicate AtServer(a: Action) {
    a.Receive? || a.RejectMalformed? || a.Decline? || a.SkipClaim? || a.RegisterBid? || a.PublishBid? || a.TakeGrant?
    || a.SendGrant? || a.Decide? || a.TimeOut? || a.Unregister? || a.Finish? || a.PublishResponse? || a.FailToPublish?
  }

  predicate InPhase(s: State, r: ReqId, selecting: bool) {
    r in s.calls && if selecting then s.calls[r].phase.Selecting? else s.calls[r].phase.Awaiting?
  }

  /** Only a bid selection saw can be granted, unless a selection function chooses. */
  predicate MayGrant(s: State, r: ReqId, grantee: ServerId) {
    InPhase(s, r, true) && (s.custom || exists c :: c in s.calls[r].heard && c.serverId == grantee)
  }

  predicate Enabled(s: State, a: Action) {
    match a
    case Lose(msg) => msg in s.network
    case ReportUnanswered(r) => r in s.calls
    case Publish(r, targets) => r !in s.calls && (s.queue ==> |targets| <= 1)
    case RouteBid(site, affinity) => BidMsg(site, affinity) in s.network
    case RouteReply(r, reply) =>
      ReplyMsg(r, reply) in s.network && (r in s.calls && r in s.replyRoutes ==> s.calls[r].replies == [])
    case Hear(r) => InPhase(s, r, true) && s.calls[r].bids != []
    case HearReply(r) => InPhase(s, r, true) && s.calls[r].replies != []
    case GrantTo(r, grantee, targets) => MayGrant(s, r, grantee)
    case Answer(r) => InPhase(s, r, false) && s.calls[r].replies != []
    case Abort(r, why) => (InPhase(s, r, true) || InPhase(s, r, false)) && !IsAnswer(why)
    case Leave(r) => r in s.calls && s.calls[r].phase.Leaving?
    case Receive(site) => RequestMsg(site) in s.network
    case RejectMalformed(site, message) => StageOf(s, site).Decoding? && message != ""
    case Decline(site) => !s.queue && StageOf(s, site).Decoding?
    case SkipClaim(site) => s.queue && StageOf(s, site).Decoding?
    case RegisterBid(site) => !s.queue && StageOf(s, site).Decoding?
    case PublishBid(site, affinity) => StageOf(s, site).Claiming? && affinity >= 0.0
    case TakeGrant(site, grantee) => GrantMsg(site, grantee) in s.network && site.server !in s.loops
    case SendGrant(server) => server in s.loops && BufferOf(s, Site(server, s.loops[server].0)) == []
    case Decide(site) => StageOf(s, site).Bidding? && BufferOf(s, site) != []
    case TimeOut(site) => StageOf(s, site).Bidding?
    case Unregister(site) => StageOf(s, site).Decided?
    case Finish(site, h) => StageOf(s, site).Running?
    case PublishResponse(site) => StageOf(s, site).Responding?
    case FailToPublish(site) => StageOf(s, site).Responding? || StageOf(s, site).Claiming?
  }

  function ClientStep(s: State, a: Action): (t: State)
    requires Enabled(s, a) && !AtServer(a)
    ensures t.grants == if a.GrantTo? then s.grants[a.r := a.grantee] else s.grants
    ensures t.codec == s.codec && t.queue == s.queue && t.stages == s.stages
  {
    match a
    case Lose(msg) => Remove(s, msg)
    case ReportUnanswered(r) => Add(s, ReplyMsg(r, Answered(None, Response(UNANSWERED_CODE, "", ""))))
    case Publish(r, targets) => PublishRequest(s, r, targets)
    case RouteBid(site, affinity) =>
      if site.req in s.calls && site.req in s.claimRoutes
      then SetCall(Remove(s, BidMsg(site, affinity)), site.req, PutBid(s.calls[site.req], Claim(site.server, affinity)))
      else Remove(s, BidMsg(site, affinity))
    case RouteReply(r, reply) =>
      if r in s.calls && r in s.replyRoutes
      then SetCall(Remove(s, ReplyMsg(r, reply)), r, PutReply(s.calls[r], reply))
      else Remove(s, ReplyMsg(r, reply))
    case Hear(r) => SetCall(s, r, TakeBid(s.calls[r]))
    case HearReply(r) =>
      var c := s.calls[r];
      SetCall(s, r, if c.replies[0].res.error != "" then HoldBack(c) else TakeReply(s.codec, c))
    case GrantTo(r, grantee, targets) => PublishGrant(s, r, grantee, targets)
    case Answer(r) => SetCall(s, r, TakeReply(s.codec, s.calls[r]))
    case Abort(r, why) => SetCall(s, r, s.calls[r].(phase := Leaving(why, None)))
    case Leave(r) => RemoveRoutes(s, r)
  }

  predicate AboutBid(a: Action) {
    a.RegisterBid? || a.PublishBid? || a.TakeGrant? || a.SendGrant? || a.Decide? || a.Unregister?
  }

  function BidStep(s: State, a: Action): (t: State)
    requires Enabled(s, a) && AboutBid(a)
    ensures t.grants == s.grants && t.calls == s.calls && t.codec == s.codec && t.queue == s.queue
  {
    match a
    case RegisterBid(site) => OpenBid(s, site)
    case PublishBid(site, affinity) => Add(EnterBid(s, site), BidMsg(site, affinity))
    case TakeGrant(site, grantee) => TakeUpGrant(s, site, grantee)
    case SendGrant(server) => BufferGrant(s, server)
    case Decide(site) => DecideBid(s, site)
    case Unregister(site) =>
      if StageOf(s, site).won then StartHandler(CloseBid(s, site), site)
      else Enter(CloseBid(s, site), site, Done(false, None))
  }

  function HandlerStep(s: State, a: Action): (t: State)
    requires Enabled(s, a) && AtServer(a) && !AboutBid(a)
    ensures t.grants == s.grants && t.calls == s.calls && t.codec == s.codec && t.queue == s.queue
  {
    match a
    case Receive(site) => TakeRequest(s, site)
    case RejectMalformed(site, message) =>
      Enter(s, site, Responding(SendResponse(s.codec, Error(Psrpc("malformed_request", message))), false))
    case Decline(site) => Enter(s, site, Done(false, None))
    case SkipClaim(site) => StartHandler(s, site)
    case TimeOut(site) => Enter(s, site, Decided(false))
    case Finish(site, h) => Enter(s, site, Responding(SendResponse(s.codec, h), true))
    case PublishResponse(site) =>
      Add(Enter(s, site, Done(StageOf(s, site).ran, Some(StageOf(s, site).res))),
          ReplyMsg(site.req, Answered(Some(site.server), StageOf(s, site).res)))
    case FailToPublish(site) =>
      Enter(s, site, if StageOf(s, site).Claiming? then Decided(false) else Done(StageOf(s, site).ran, None))
  }

  function ServerStep(s: State, a: Action): (t: State)
    requires Enabled(s, a) && AtServer(a)
    ensures t.grants == s.grants && t.calls == s.calls && t.codec == s.codec && t.queue == s.queue
  {
    if AboutBid(a) then BidStep(s, a) else HandlerStep(s, a)
  }

  function Apply(s: State, a: Action): State
    requires Enabled(s, a)
  {
    if AtServer(a) then ServerStep(s, a) else ClientStep(s, a)
  }

  // ---------- the invariant ----------

  predicate HasRun(stage: Stage) {
    match stage
    case Running => true
    case Responding(_, ran) => ran
    case Done(ran, _) => ran
    case _ => false
  }

  /** Copies of the grant on their way to a bid: on the bus, in the run loop's hands or buffered. */
  function GrantsUnderway(s: State, site: Site): nat {
    (if site.req in s.grants then s.network[GrantMsg(site, s.grants[site.req])] else 0)
    + (if site.server in s.loops && s.loops[site.server].0 == site.req then 1 else 0)
    + |BufferOf(s, site)|
  }

  predicate IsSuccess(res: Response) {
    res.error == "" && res.code != UNANSWERED_CODE
  }

  /** The reply is what its server sent for this request after running the handler. */
  predicate IsGenuine(s: State, reply: Answered, r: ReqId) {
    reply.from.Some? && StageOf(s, Site(reply.from.value, r)) == Done(true, Some(reply.res))
  }

  predicate AllBid(s: State, r: ReqId, bids: seq<Claim>) {
    forall i :: 0 <= i < |bids| ==> Site(bids[i].serverId, r) in s.bidders
  }

  ghost predicate SiteInv(s: State, site: Site) {
    var stage := StageOf(s, site);
    && (site.req !in s.calls ==> stage.Absent? && s.network[RequestMsg(site)] == 0)
    && s.network[RequestMsg(site)] + (if stage.Absent? then 0 else 1) <= 1
    && (!stage.Absent? || RequestMsg(site) in s.network
        ==> site.req in s.sentTo && site.server in s.sentTo[site.req])
    && GrantsUnderway(s, site) <= (if site.req in s.grants then 1 else 0)
    && (forall g :: g in BufferOf(s, site) ==> Grantee(s, site.req) == Some(g))
    && (site.server in s.loops && s.loops[site.server].0 == site.req
        ==> Grantee(s, site.req) == Some(s.loops[site.server].1))
    && s.ran[site] == (if HasRun(stage) then 1 else 0)
    && ((HasRun(stage) && !s.queue) || stage == Decided(true) ==> Grantee(s, site.req) == Some(site.server))
    && (stage.Responding? && !stage.ran ==> stage.res.error != "")
  }

  ghost predicate MsgInv(s: State, m: Msg) {
    match m
    case GrantMsg(site, grantee) => Grantee(s, site.req) == Some(grantee)
    case ReplyMsg(r, reply) => IsSuccess(reply.res) ==> IsGenuine(s, reply, r)
    case BidMsg(site, _) => site in s.bidders
    case RequestMsg(_) => true
  }

  ghost predicate CallInv(s: State, r: ReqId) {
    if r !in s.calls then r !in s.claimRoutes && r !in s.replyRoutes && r !in s.grants
    else
      var c := s.calls[r];
      && (c.phase.Left? ==> r !in s.claimRoutes && r !in s.replyRoutes)
      && (c.phase.Selecting? ==> r !in s.grants)
      && (forall i :: 0 <= i < |c.replies| && IsSuccess(c.replies[i].res) ==> IsGenuine(s, c.replies[i], r))
      && ((c.phase.Leaving? || c.phase.Left?) && c.phase.result.Success?
          ==> c.phase.reply.Some? && IsGenuine(s, c.phase.reply.value, r)
              && c.phase.result == ReadResponse(s.codec, c.phase.reply.value.res))
      && AllBid(s, r, c.bids) && AllBid(s, r, c.heard)
      && (r in s.grants && !s.custom ==> Site(s.grants[r], r) in s.bidders)
      && r in s.sentTo && (s.queue ==> |s.sentTo[r]| <= 1)
  }

  datatype Subject = AtSite(site: Site) | InFlight(msg: Msg) | OfCall(req: ReqId)

  ghost predicate Holds(s: State, x: Subject) {
    match x
    case AtSite(site) => SiteInv(s, site)
    case InFlight(m) => m in s.network ==> MsgInv(s, m)
    case OfCall(r) => CallInv(s, r)
  }

  ghost predicate Inv(s: State) {
    forall x :: Holds(s, x)
  }

  lemma InvInit(codec: Codec, queue: bool, custom: bool)
    ensures Inv(Init(codec, queue, custom))
  {
  }

  // A subject that a step leaves alone keeps its part of the invariant.

  predicate SameAt(s: State, t: State, site: Site) {
    && StageOf(t, site) == StageOf(s, site) && BufferOf(t, site) == BufferOf(s, site)
    && t.ran[site] == s.ran[site]
    && (site.server in t.loops && t.loops[site.server].0 == site.req
        ==> site.server in s.loops && t.loops[site.server] == s.loops[site.server])
  }

  ghost predicate Frame(s: State, t: State) {
    && t.codec == s.codec && t.queue == s.queue && t.custom == s.custom
    && s.calls.Keys <= t.calls.Keys && s.bidders <= t.bidders
    && (forall r :: r in s.sentTo && r in s.calls ==> r in t.sentTo && t.sentTo[r] == s.sentTo[r])
    && (forall r :: r in s.grants ==> r in t.grants && t.grants[r] == s.grants[r])
    && (forall site :: StageOf(s, site).Done? ==> StageOf(t, site) == StageOf(s, site))
  }

  ghost predicate NoNewMail(s: State, t: State, site: Site) {
    && t.network[RequestMsg(site)] <= s.network[RequestMsg(site)]
    && forall g :: t.network[GrantMsg(site, g)] <= s.network[GrantMsg(site, g)]
  }

  lemma SiteFrame(s: State, t: State, site: Site)
    requires SiteInv(s, site) && Frame(s, t) && SameAt(s, t, site) && NoNewMail(s, t, site)
    requires Grantee(t, site.req) == Grantee(s, site.req)
    ensures SiteInv(t, site)
  {
  }

  lemma MsgFrame(s: State, t: State, m: Msg)
    requires MsgInv(s, m) && Frame(s, t)
    ensures MsgInv(t, m)
  {
  }

  lemma CallFrame(s: State, t: State, r: ReqId)
    requires CallInv(s, r) && Frame(s, t) && Grantee(t, r) == Grantee(s, r)
    requires (r in s.calls <==> r in t.calls) && (r in s.calls ==> t.calls[r] == s.calls[r])
    requires (r in t.claimRoutes ==> r in s.claimRoutes) && (r in t.replyRoutes ==> r in s.replyRoutes)
    ensures CallInv(t, r)
  {
  }

  /** Lifts a step: only `site`, `call` and messages new to the bus need looking at. */
  lemma StepKeepsInv(s: State, t: State, sites: iset<Site>, calls: set<ReqId>)
    requires Inv(s) && Frame(s, t)
    requires forall x :: x in sites ==> SiteInv(t, x)
    requires forall x :: x !in sites ==> SameAt(s, t, x) && NoNewMail(s, t, x) && Grantee(t, x.req) == Grantee(s, x.req)
    requires forall r :: r in calls ==> CallInv(t, r)
    requires forall r :: r !in calls ==>
      && Grantee(t, r) == Grantee(s, r)
      && (r in s.calls <==> r in t.calls) && (r in s.calls ==> t.calls[r] == s.calls[r])
      && (r in t.claimRoutes ==> r in s.claimRoutes) && (r in t.replyRoutes ==> r in s.replyRoutes)
    requires forall m :: m in t.network && m !in s.network ==> MsgInv(t, m)
    ensures Inv(t)
  {
    hide SiteInv, MsgInv, CallInv, Frame, SameAt, NoNewMail;
    forall x ensures Holds(t, x) {
      assert Holds(s, x);
      match x
      case AtSite(site) => if site !in sites { SiteFrame(s, t, site); }
      case InFlight(m) => if m in s.network { MsgFrame(s, t, m); }
      case OfCall(r) => if r !in calls { CallFrame(s, t, r); }
    }
  }

  lemma RemoveKeepsInv(s: State, m: Msg)
    requires Inv(s)
    ensures Inv(Remove(s, m))
  {
    StepKeepsInv(s, Remove(s, m), iset{}, {});
  }

  lemma AddKeepsInv(s: State, m: Msg)
    requires Inv(s) && !m.RequestMsg? && !m.GrantMsg? && MsgInv(s, m)
    ensures Inv(Add(s, m))
  {
    StepKeepsInv(s, Add(s, m), iset{}, {});
  }

  lemma SetCallKeepsInv(s: State, r: ReqId, c: Call)
    requires Inv(s) && r in s.calls && CallInv(SetCall(s, r, c), r)
    ensures Inv(SetCall(s, r, c))
  {
    StepKeepsInv(s, SetCall(s, r, c), iset{}, {r});
  }

  lemma EnterKeepsInv(s: State, site: Site, stage: Stage)
    requires Inv(s) && !StageOf(s, site).Absent? && !StageOf(s, site).Done? && !stage.Absent?
    requires HasRun(stage) == HasRun(StageOf(s, site)) && stage != Decided(true)
    requires stage.Responding? && !stage.ran ==> stage.res.error != ""
    ensures Inv(Enter(s, site, stage))
  {
    assert Holds(s, AtSite(site));
    StepKeepsInv(s, Enter(s, site, stage), iset{site}, {});
  }

  lemma StartHandlerKeepsInv(s: State, site: Site)
    requires Inv(s) && !StageOf(s, site).Absent? && !StageOf(s, site).Done? && !HasRun(StageOf(s, site))
    requires s.queue || Grantee(s, site.req) == Some(site.server)
    ensures Inv(StartHandler(s, site))
  {
    assert Holds(s, AtSite(site));
    StepKeepsInv(s, StartHandler(s, site), iset{site}, {});
  }

  lemma RequestedSite(s: State, site: Site, targets: set<ServerId>)
    requires Inv(s) && site.req !in s.calls
    ensures SiteInv(PublishRequest(s, site.req, targets), site)
  {
    hide MsgInv;
    assert Holds(s, AtSite(site)) && Holds(s, OfCall(site.req));
  }

  lemma RequestedCall(s: State, r: ReqId, targets: set<ServerId>)
    requires Inv(s) && r !in s.calls && (s.queue ==> |targets| <= 1)
    ensures CallInv(PublishRequest(s, r, targets), r) && Frame(s, PublishRequest(s, r, targets))
  {
    assert Holds(s, OfCall(r));
  }

  lemma RequestMail(s: State, r: ReqId, targets: set<ServerId>, m: Msg)
    requires m in PublishRequest(s, r, targets).network && m !in s.network
    ensures MsgInv(PublishRequest(s, r, targets), m)
  {
  }

  lemma PublishRequestKeepsInv(s: State, r: ReqId, targets: set<ServerId>)
    requires Inv(s) && r !in s.calls && (s.queue ==> |targets| <= 1)
    ensures Inv(PublishRequest(s, r, targets))
  {
    hide SiteInv, CallInv, MsgInv, Inv, Frame;
    var t := PublishRequest(s, r, targets);
    RequestedCall(s, r, targets);
    forall site: Site | site.req == r ensures SiteInv(t, site) {
      RequestedSite(s, site, targets);
    }
    forall m | m in t.network && m !in s.network ensures MsgInv(t, m) {
      RequestMail(s, r, targets, m);
    }
    StepKeepsInv(s, t, iset site: Site | site.req == r, {r});
  }

  lemma GrantedSite(s: State, site: Site, grantee: ServerId, targets: set<ServerId>)
    requires Inv(s) && MayGrant(s, site.req, grantee)
    ensures SiteInv(PublishGrant(s, site.req, grantee, targets), site)
  {
    assert Holds(s, AtSite(site)) && Holds(s, OfCall(site.req)) && Holds(s, InFlight(GrantMsg(site, grantee)));
  }

  lemma GrantedCall(s: State, r: ReqId, grantee: ServerId, targets: set<ServerId>)
    requires Inv(s) && MayGrant(s, r, grantee)
    ensures CallInv(PublishGrant(s, r, grantee, targets), r) && Frame(s, PublishGrant(s, r, grantee, targets))
  {
    assert Holds(s, OfCall(r));
  }

  lemma GrantMail(s: State, r: ReqId, grantee: ServerId, targets: set<ServerId>, m: Msg)
    requires MayGrant(s, r, grantee)
    requires m in PublishGrant(s, r, grantee, targets).network && m !in s.network
    ensures MsgInv(PublishGrant(s, r, grantee, targets), m)
  {
  }

  lemma PublishGrantKeepsInv(s: State, r: ReqId, grantee: ServerId, targets: set<ServerId>)
    requires Inv(s) && MayGrant(s, r, grantee)
    ensures Inv(PublishGrant(s, r, grantee, targets))
  {
    hide SiteInv, CallInv, MsgInv, Inv, Frame;
    var t := PublishGrant(s, r, grantee, targets);
    GrantedCall(s, r, grantee, targets);
    forall site: Site | site.req == r ensures SiteInv(t, site) {
      GrantedSite(s, site, grantee, targets);
    }
    forall m | m in t.network && m !in s.network ensures MsgInv(t, m) {
      GrantMail(s, r, grantee, targets, m);
    }
    StepKeepsInv(s, t, iset site: Site | site.req == r, {r});
  }

  lemma RemoveRoutesKeepsInv(s: State, r: ReqId)
    requires Inv(s) && r in s.calls && s.calls[r].phase.Leaving?
    ensures Inv(RemoveRoutes(s, r))
  {
    assert Holds(s, OfCall(r));
    StepKeepsInv(s, RemoveRoutes(s, r), iset{}, {r});
  }

  lemma TakeRequestKeepsInv(s: State, site: Site)
    requires Inv(s) && RequestMsg(site) in s.network
    ensures Inv(TakeRequest(s, site))
  {
    assert Holds(s, AtSite(site));
    StepKeepsInv(s, TakeRequest(s, site), iset{site}, {});
  }

  lemma OpenBidKeepsInv(s: State, site: Site)
    requires Inv(s) && StageOf(s, site).Decoding?
    ensures Inv(OpenBid(s, site))
  {
    assert Holds(s, AtSite(site));
    StepKeepsInv(s, OpenBid(s, site), iset{site}, {});
  }

  lemma EnterBidKeepsInv(s: State, site: Site)
    requires Inv(s) && StageOf(s, site).Claiming?
    ensures Inv(EnterBid(s, site))
  {
    assert Holds(s, AtSite(site));
    StepKeepsInv(s, EnterBid(s, site), iset{site}, {});
  }

  lemma CloseBidKeepsInv(s: State, site: Site)
    requires Inv(s)
    ensures Inv(CloseBid(s, site))
  {
    StepKeepsInv(s, CloseBid(s, site), iset{}, {});
  }

  lemma TakenUpSite(s: State, site: Site, grantee: ServerId)
    requires Inv(s) && GrantMsg(site, grantee) in s.network && site.server !in s.loops
    ensures SiteInv(TakeUpGrant(s, site, grantee), site)
  {
    assert Holds(s, AtSite(site)) && Holds(s, InFlight(GrantMsg(site, grantee)));
  }

  lemma TakeUpGrantKeepsInv(s: State, site: Site, grantee: ServerId)
    requires Inv(s) && GrantMsg(site, grantee) in s.network && site.server !in s.loops
    ensures Inv(TakeUpGrant(s, site, grantee))
  {
    hide SiteInv, CallInv, MsgInv, Inv;
    TakenUpSite(s, site, grantee);
    StepKeepsInv(s, TakeUpGrant(s, site, grantee), iset{site}, {});
  }

  lemma BufferGrantKeepsInv(s: State, server: ServerId)
    requires Inv(s) && server in s.loops
    ensures Inv(BufferGrant(s, server))
  {
    assert Holds(s, AtSite(Site(server, s.loops[server].0)));
    StepKeepsInv(s, BufferGrant(s, server), iset{Site(server, s.loops[server].0)}, {});
  }

  lemma DecideBidKeepsInv(s: State, site: Site)
    requires Inv(s) && StageOf(s, site).Bidding? && BufferOf(s, site) != []
    ensures Inv(DecideBid(s, site))
  {
    assert Holds(s, AtSite(site));
    StepKeepsInv(s, DecideBid(s, site), iset{site}, {});
  }

  lemma HandlerStepKeepsInv(s: State, a: Action)
    requires Inv(s) && Enabled(s, a) && AtServer(a) && !AboutBid(a)
    ensures Inv(HandlerStep(s, a))
  {
    hide Inv;
    if a.Receive? {
      TakeRequestKeepsInv(s, a.site);
    } else if a.SkipClaim? {
      StartHandlerKeepsInv(s, a.site);
    } else if a.PublishResponse? {
      PublishResponseKeepsInv(s, a.site);
    } else {
      EnterKeepsInv(s, a.site, StageOf(HandlerStep(s, a), a.site));
    }
  }

  lemma BidStepKeepsInv(s: State, a: Action)
    requires Inv(s) && Enabled(s, a) && AboutBid(a)
    ensures Inv(BidStep(s, a))
  {
    hide Inv;
    match a
    case RegisterBid(site) => OpenBidKeepsInv(s, site);
    case PublishBid(site, affinity) =>
      EnterBidKeepsInv(s, site);
      AddKeepsInv(EnterBid(s, site), BidMsg(site, affinity));
    case TakeGrant(site, grantee) => TakeUpGrantKeepsInv(s, site, grantee);
    case SendGrant(server) => BufferGrantKeepsInv(s, server);
    case Decide(site) => DecideBidKeepsInv(s, site);
    case Unregister(site) => UnregisterKeepsInv(s, site);
  }

  lemma ServerStepKeepsInv(s: State, a: Action)
    requires Inv(s) && Enabled(s, a) && AtServer(a)
    ensures Inv(Apply(s, a))
  {
    hide Inv, Enabled, BidStep, HandlerStep;
    if AboutBid(a) {
      BidStepKeepsInv(s, a);
    } else {
      HandlerStepKeepsInv(s, a);
    }
  }

  lemma UnregisterKeepsInv(s: State, site: Site)
    requires Inv(s) && StageOf(s, site).Decided?
    ensures Inv(BidStep(s, Unregister(site)))
  {
    assert Holds(s, AtSite(site));
    CloseBidKeepsInv(s, site);
    if StageOf(s, site).won {
      StartHandlerKeepsInv(CloseBid(s, site), site);
    } else {
      EnterKeepsInv(CloseBid(s, site), site, Done(false, None));
    }
  }

  lemma PublishResponseKeepsInv(s: State, site: Site)
    requires Inv(s) && StageOf(s, site).Responding?
    ensures Inv(HandlerStep(s, PublishResponse(site)))
  {
    var stage := StageOf(s, site);
    var done := Done(stage.ran, Some(stage.res));
    assert Holds(s, AtSite(site));
    EnterKeepsInv(s, site, done);
    AddKeepsInv(Enter(s, site, done), ReplyMsg(site.req, Answered(Some(site.server), stage.res)));
  }

  lemma RouteBidKeepsInv(s: State, site: Site, affinity: real)
    requires Inv(s) && Enabled(s, RouteBid(site, affinity))
    ensures Inv(Apply(s, RouteBid(site, affinity)))
  {
    RemoveKeepsInv(s, BidMsg(site, affinity));
    assert Holds(s, InFlight(BidMsg(site, affinity))) && Holds(s, OfCall(site.req));
    if site.req in s.calls && site.req in s.claimRoutes {
      SetCallKeepsInv(Remove(s, BidMsg(site, affinity)), site.req,
                      PutBid(s.calls[site.req], Claim(site.server, affinity)));
    }
  }

  lemma RouteReplyKeepsInv(s: State, r: ReqId, reply: Answered)
    requires Inv(s) && Enabled(s, RouteReply(r, reply))
    ensures Inv(Apply(s, RouteReply(r, reply)))
  {
    RemoveKeepsInv(s, ReplyMsg(r, reply));
    assert Holds(s, InFlight(ReplyMsg(r, reply))) && Holds(s, OfCall(r));
    if r in s.calls && r in s.replyRoutes {
      SetCallKeepsInv(Remove(s, ReplyMsg(r, reply)), r, PutReply(s.calls[r], reply));
    }
  }

  /** What selection or the waiting loop does with its channels. */
  lemma CallStepKeepsInv(s: State, r: ReqId, c: Call)
    requires Inv(s) && r in s.calls
    requires || (s.calls[r].bids != [] && c == TakeBid(s.calls[r]))
             || (s.calls[r].replies != [] && (c == HoldBack(s.calls[r]) || c == TakeReply(s.codec, s.calls[r])))
             || exists why: CallResult :: !IsAnswer(why) && c == s.calls[r].(phase := Leaving(why, None))
    ensures Inv(SetCall(s, r, c))
  {
    assert Holds(s, OfCall(r));
    SetCallKeepsInv(s, r, c);
  }

  lemma ClientStepKeepsInv(s: State, a: Action)
    requires Inv(s) && Enabled(s, a) && !AtServer(a)
    ensures Inv(Apply(s, a))
  {
    hide Inv;
    match a
    case Lose(msg) => RemoveKeepsInv(s, msg);
    case ReportUnanswered(r) => AddKeepsInv(s, ReplyMsg(r, Answered(None, Response(UNANSWERED_CODE, "", ""))));
    case Publish(r, targets) => PublishRequestKeepsInv(s, r, targets);
    case RouteBid(site, affinity) => RouteBidKeepsInv(s, site, affinity);
    case RouteReply(r, reply) => RouteReplyKeepsInv(s, r, reply);
    case GrantTo(r, grantee, targets) => PublishGrantKeepsInv(s, r, grantee, targets);
    case Leave(r) => RemoveRoutesKeepsInv(s, r);
    case Hear(r) => CallStepKeepsInv(s, r, Apply(s, a).calls[r]);
    case HearReply(r) => CallStepKeepsInv(s, r, Apply(s, a).calls[r]);
    case Answer(r) => CallStepKeepsInv(s, r, Apply(s, a).calls[r]);
    case Abort(r, _) => CallStepKeepsInv(s, r, Apply(s, a).calls[r]);
  }

  // ---------- runs ----------

  ghost predicate IsRun(states: seq<State>, actions: seq<Action>) {
    && |states| == |actions| + 1
    && (exists codec, queue, custom :: states[0] == Init(codec, queue, custom))
    && forall i :: 0 <= i < |actions| ==>
         Enabled(states[i], actions[i]) && states[i + 1] == Apply(states[i], actions[i])
  }

  lemma {:induction false} RunInv(states: seq<State>, actions: seq<Action>, i: nat)
    requires IsRun(states, actions) && i < |states|
    ensures Inv(states[i])
  {
    if i == 0 {
      var codec, queue, custom :| states[0] == Init(codec, queue, custom);
      InvInit(codec, queue, custom);
    } else {
      RunInv(states, actions, i - 1);
      if AtServer(actions[i - 1]) {
        ServerStepKeepsInv(states[i - 1], actions[i - 1]);
      } else {
        ClientStepKeepsInv(states[i - 1], actions[i - 1]);
      }
    }
  }

  /** At most one handler ever runs for a request, and it runs once. */
  lemma AtMostOneHandler(states: seq<State>, actions: seq<Action>, i: nat, x: Site, y: Site)
    requires IsRun(states, actions) && i < |states|
    requires x in states[i].ran && y in states[i].ran && x.req == y.req
    ensures x == y && states[i].ran[x] == 1
  {
    RunInv(states, actions, i);
    var s := states[i];
    assert Holds(s, AtSite(x)) && Holds(s, AtSite(y)) && Holds(s, OfCall(x.req));
    if s.queue {
      var targets := s.sentTo[x.req];
      assert {x.server, y.server} <= targets;
      SubsetSize({x.server, y.server}, targets);
    }
  }

  lemma SubsetSize(a: set<ServerId>, b: set<ServerId>)
    requires a <= b
    ensures |a| <= |b|
  {
    assert b == a + (b - a);
  }

  /** Every run of a handler for a claimed request comes after the client's only grant
      for it, and that grant names the server. */
  lemma RunFollowsTheOnlyGrant(states: seq<State>, actions: seq<Action>, i: nat, x: Site) returns (j: nat)
    requires IsRun(states, actions) && i < |states| && x in states[i].ran && !states[i].queue
    ensures j < i && actions[j].GrantTo? && actions[j].r == x.req && actions[j].grantee == x.server
    ensures forall k :: 0 <= k < |actions| && actions[k].GrantTo? && actions[k].r == x.req ==> k == j
  {
    RunInv(states, actions, i);
    assert Holds(states[i], AtSite(x));
    j := GrantHappened(states, actions, i, x.req);
    RunInv(states, actions, j);
    assert Holds(states[j], OfCall(x.req));
    forall k | 0 <= k < |actions| && actions[k].GrantTo? && actions[k].r == x.req ensures k == j {
      RunInv(states, actions, k);
      assert Holds(states[k], OfCall(x.req));
      if j < k {
        GrantStays(states, actions, j + 1, k, x.req);
      } else if k < j {
        GrantStays(states, actions, k + 1, j, x.req);
      }
    }
  }

  lemma {:induction false} GrantHappened(states: seq<State>, actions: seq<Action>, i: nat, r: ReqId) returns (j: nat)
    requires IsRun(states, actions) && i < |states| && r in states[i].grants
    ensures j < i && actions[j].GrantTo? && actions[j].r == r && Grantee(states[i], r) == Some(actions[j].grantee)
  {
    hide ClientStep, ServerStep, Enabled;
    var before := states[i - 1];
    assert states[i].grants == Apply(before, actions[i - 1]).grants;
    if actions[i - 1].GrantTo? && actions[i - 1].r == r {
      j := i - 1;
    } else {
      j := GrantHappened(states, actions, i - 1, r);
    }
  }

  lemma {:induction false} GrantStays(states: seq<State>, actions: seq<Action>, i: nat, k: nat, r: ReqId)
    requires IsRun(states, actions) && 0 < i <= k < |states|
    requires actions[i - 1].GrantTo? && actions[i - 1].r == r
    ensures r in states[k].grants
  {
    hide ClientStep, ServerStep, Enabled;
    if i < k {
      GrantStays(states, actions, i, k - 1, r);
    }
  }

  /** A run loop holding a grant can always put it in the bid's buffer of one. */
  lemma RunLoopNeverBlocks(states: seq<State>, actions: seq<Action>, i: nat, server: ServerId)
    requires IsRun(states, actions) && i < |states| && server in states[i].loops
    ensures Enabled(states[i], SendGrant(server))
  {
    RunInv(states, actions, i);
    assert Holds(states[i], AtSite(Site(server, states[i].loops[server].0)));
  }

  /** A success is the reading of what one server sent for this very request after
      running its handler; with claims in use, that server was granted the request. */
  lemma SuccessIsGenuine(states: seq<State>, actions: seq<Action>, i: nat, r: ReqId) returns (site: Site)
    requires IsRun(states, actions) && i < |states|
    requires r in states[i].calls && states[i].calls[r].phase.Left? && states[i].calls[r].phase.result.Success?
    ensures site.req == r && site in states[i].ran
    ensures !states[i].queue ==> Grantee(states[i], r) == Some(site.server)
    ensures StageOf(states[i], site).Done? && StageOf(states[i], site).sent.Some?
    ensures states[i].calls[r].phase.result == ReadResponse(states[i].codec, StageOf(states[i], site).sent.value)
  {
    RunInv(states, actions, i);
    var s := states[i];
    assert Holds(s, OfCall(r));
    site := Site(s.calls[r].phase.reply.value.from.value, r);
    assert Holds(s, AtSite(site));
  }

  /** No route entry for a request survives its return. */
  lemma NoRouteSurvives(states: seq<State>, actions: seq<Action>, i: nat, r: ReqId)
    requires IsRun(states, actions) && i < |states|
    requires r in states[i].calls && states[i].calls[r].phase.Left?
    ensures r !in states[i].claimRoutes && r !in states[i].replyRoutes
  {
    RunInv(states, actions, i);
    assert Holds(states[i], OfCall(r));
  }

  /** Without a selection function, the server granted had bid for that very request. */
  lemma GranteeHadBid(states: seq<State>, actions: seq<Action>, i: nat, r: ReqId)
    requires IsRun(states, actions) && i < |states| && r in states[i].grants && !states[i].custom
    ensures Site(states[i].grants[r], r) in states[i].bidders
  {
    RunInv(states, actions, i);
    assert Holds(states[i], OfCall(r));
  }

  /** While a claimed call is still selecting, no reply it can receive reads as a success. */
  lemma NoEarlySuccess(states: seq<State>, actions: seq<Action>, i: nat, r: ReqId, k: nat)
    requires IsRun(states, actions) && i < |states| && InPhase(states[i], r, true) && !states[i].queue
    requires k < |states[i].calls[r].replies|
    ensures !ReadResponse(states[i].codec, states[i].calls[r].replies[k].res).Success?
  {
    RunInv(states, actions, i);
    var s := states[i];
    var reply := s.calls[r].replies[k];
    assert Holds(s, OfCall(r));
    assert reply.from.Some? ==> Holds(s, AtSite(Site(reply.from.value, r)));
  }
}
