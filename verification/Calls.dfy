/**
 One unary call at the client (pkg/client/rpc.go, newRPC), and how a server's answer
 travels (pkg/server/rpc.go, sendResponse).

 The events are what the two select statements pick, in order; they may run out, which
 leaves the call pending. Encoding is left to a codec.
 */
module Calls {
  import opened Wrappers
  import opened Selection

  const UNANSWERED_CODE: string := "psrpc.unanswered"
  const UNKNOWN_CODE: string := "unknown"
  const MALFORMED_RESULT_CODE: string := "malformed_result"

  datatype Codec = Codec(serialize: string -> Result<string, string>, parse: string -> Option<string>)

  // ---------- the answer ----------

  /** `Status` is a gRPC status error, its code already mapped to a psrpc code. */
  datatype HandlerError =
    | Psrpc(code: string, message: string)
    | Status(code: string, message: string)
    | Plain(message: string)

  /** What a handler returns; a nil response is `Value(None)`. */
  datatype HandlerResult = Value(value: Option<string>) | Error(error: HandlerError)

  function WireCode(e: HandlerError): string {
    if e.Plain? then UNKNOWN_CODE else e.code
  }

  function SendResponse(codec: Codec, h: HandlerResult): Response {
    match h
    case Error(e) => Response(WireCode(e), e.message, "")
    case Value(None) => Response("", "", "")
    case Value(Some(v)) =>
      match codec.serialize(v)
      case Ok(raw) => Response("", "", raw)
      case Err(message) => Response(MALFORMED_RESULT_CODE, message, "")
  }

  datatype CallResult =
    | Pending
    | InvalidArgument
    | MalformedRequest
    | PublishFailed
    | SelectionFailed(why: Failure)
    | RequestCanceled
    | RequestTimedOut
    | CallerClosed
    | NoSubscriber
    | RemoteError(code: string, message: string)
    | MalformedResponse
    | Success(value: string)

  function ReadResponse(codec: Codec, res: Response): CallResult {
    if res.code == UNANSWERED_CODE then NoSubscriber
    else if res.error != "" then RemoteError(if res.code == "" then UNKNOWN_CODE else res.code, res.error)
    else match codec.parse(res.raw)
      case Some(value) => Success(value)
      case None => MalformedResponse
  }

  ghost predicate RoundTrips(codec: Codec, v: string) {
    && codec.serialize(v).Ok?
    && codec.parse(codec.serialize(v).value) == Some(v)
  }

  /** A value the codec carries arrives as it was returned. */
  lemma ValueArrives(codec: Codec, v: string)
    requires RoundTrips(codec, v)
    ensures ReadResponse(codec, SendResponse(codec, Value(Some(v)))) == Success(v)
  {
  }

  /** A handler error with a code of its own reaches the caller as that code and message exactly when
      the message is not empty and the code is not the stand-in's; an error without a code arrives as
      unknown. With an empty message the caller instead sees what a nil response gives it. */
  lemma ErrorArrives(codec: Codec, e: HandlerError)
    ensures var r := ReadResponse(codec, SendResponse(codec, Error(e)));
      && (!e.Plain? && e.code != "" ==>
            (r == RemoteError(e.code, e.message) <==> e.message != "" && e.code != UNANSWERED_CODE))
      && (e.Plain? || e.code == "" ==> (r == RemoteError("unknown", e.message) <==> e.message != ""))
      && (e.message == "" && (e.Plain? || e.code != UNANSWERED_CODE)
          ==> r == ReadResponse(codec, SendResponse(codec, Value(None))))
      && (!e.Plain? && e.code == UNANSWERED_CODE ==> r == NoSubscriber)
  {
  }

  /** A value the codec cannot carry arrives as the reason why; a nil response as the empty payload. */
  lemma OddValuesArrive(codec: Codec, v: string)
    ensures var r := codec.serialize(v);
      r.Err? && r.error != "" ==>
        ReadResponse(codec, SendResponse(codec, Value(Some(v)))) == RemoteError("malformed_result", r.error)
    ensures ReadResponse(codec, SendResponse(codec, Value(None)))
         == if codec.parse("").Some? then Success(codec.parse("").value) else MalformedResponse
  {
  }

  /** So a failing handler can look like a successful one. */
  lemma EmptyErrorLooksLikeSuccess(codec: Codec, zero: string)
    requires codec.parse("") == Some(zero)
    ensures ReadResponse(codec, SendResponse(codec, Error(Plain("")))) == Success(zero)
  {
  }

  // ---------- the call ----------

  datatype RequestInfo = RequestInfo(requireClaim: bool, queue: bool)

  datatype Publication = Request(requestId: string, noClaim: bool) | Grant(requestId: string, serverId: string)

  /** The environment's part in one call. */
  datatype Env = Env(serializes: bool, publishOk: bool, grantOk: bool, events: seq<Event>)

  predicate SelectsOnQueue(i: RequestInfo, opts: Opts) {
    i.queue && (opts.selectionFunc.Some? || opts.minimumAffinity > 0.0 || opts.maximumAffinity > 0.0)
  }

  predicate EndsWait(e: Event) {
    e.Closed? || e.Canceled? || e.Deadline? || e.Reply?
  }

  function WaitResult(codec: Codec, e: Event): CallResult
    requires EndsWait(e)
  {
    match e
    case Closed => CallerClosed
    case Canceled => RequestCanceled
    case Deadline => RequestTimedOut
    case Reply(res) => ReadResponse(codec, res)
  }

  /** The first bid of a queue call is granted, which has to succeed; later ones are not looked at. */
  ghost predicate IsGranted(events: seq<Event>, bids: bool, grantOk: bool, grants: seq<string>) {
    || (grants == [] && (bids ==> forall j :: 0 <= j < |events| ==> !events[j].Bid?))
    || (bids && grantOk && exists b :: IsFirstBid(events, b) && grants == [events[b].claim.serverId])
  }

  ghost predicate IsFirstBid(events: seq<Event>, b: int) {
    0 <= b < |events| && events[b].Bid? && forall j :: 0 <= j < b ==> !events[j].Bid?
  }

  /** Waiting for the response: the first event that ends the wait decides, unless a grant fails first. */
  ghost predicate IsWait(codec: Codec, events: seq<Event>, bids: bool, grantOk: bool,
                         result: CallResult, grants: seq<string>) {
    || (result == Pending && IsGranted(events, bids, grantOk, grants)
        && forall j :: 0 <= j < |events| ==> !EndsWait(events[j]))
    || (exists k :: EndsFirst(events, k)
          && IsGranted(events[..k], bids, grantOk, grants) && result == WaitResult(codec, events[k]))
    || (grants == [] && result == PublishFailed && exists b :: FailsAtBid(events, bids, grantOk, b))
  }

  /** The wait comes to a bid whose grant cannot be published. */
  ghost predicate FailsAtBid(events: seq<Event>, bids: bool, grantOk: bool, b: int) {
    bids && !grantOk && IsFirstBid(events, b) && forall j :: 0 <= j < b ==> !EndsWait(events[j])
  }

  ghost predicate EndsFirst(events: seq<Event>, k: int) {
    0 <= k < |events| && EndsWait(events[k]) && forall j :: 0 <= j < k ==> !EndsWait(events[j])
  }

  /** A claimed call that is not on a queue: selection, then at most one grant. */
  ghost predicate IsClaimedCall(codec: Codec, opts: Opts, env: Env, result: CallResult, grants: seq<string>) {
    exists used, out ::
      IsSelection(opts, env.events, used, out) && AfterSelection(codec, env, used, out, result, grants)
  }

  ghost predicate AfterSelection(codec: Codec, env: Env, used: nat, out: Outcome,
                                 result: CallResult, grants: seq<string>) {
    match out
    case Waiting => result == Pending && grants == []
    case Failed(why) => result == SelectionFailed(why) && grants == []
    case Replied(res) => result == ReadResponse(codec, res) && grants == []
    case Chosen(serverId) =>
      if env.grantOk then
        && grants == [serverId] && used <= |env.events|
        && IsWait(codec, env.events[used..], false, true, result, [])
      else result == PublishFailed && grants == []
  }

  ghost predicate IsCall(codec: Codec, i: RequestInfo, opts: Opts, env: Env, result: CallResult, grants: seq<string>) {
    if i.requireClaim && !i.queue then IsClaimedCall(codec, opts, env, result, grants)
    else IsWait(codec, env.events, i.requireClaim && i.queue, env.grantOk, result, grants)
  }

  function GrantsOf(id: string, grants: seq<string>): (published: seq<Publication>)
    ensures |published| == |grants| && forall k :: 0 <= k < |grants| ==> published[k] == Grant(id, grants[k])
  {
    seq(|grants|, k requires 0 <= k < |grants| => Grant(id, grants[k]))
  }

  lemma RouteRemoved(routes: map<string, nat>, id: string, size: nat)
    ensures routes[id := size] - {id} == routes - {id}
  {
  }

  class RPCClient {
    /** The channels messages for a request are routed to, with their buffer sizes. */
    var claimRequests: map<string, nat>
    var responseChannels: map<string, nat>
    /** What this client handed to the bus. */
    var published: seq<Publication>
    const channelSize: nat
    const codec: Codec

    constructor (channelSize: nat, codec: Codec)
      ensures claimRequests == map[] && responseChannels == map[] && published == []
      ensures this.channelSize == channelSize && this.codec == codec
    {
      claimRequests, responseChannels, published := map[], map[], [];
      this.channelSize, this.codec := channelSize, codec;
    }

    /** newRPC, with the request ID it drew. No route to the request outlives the call. */
    method Call(i: RequestInfo, opts: Opts, id: string, env: Env) returns (result: CallResult)
      modifies this
      ensures result.InvalidArgument?
        <==> i.queue && (opts.selectionFunc.Some? || opts.minimumAffinity > 0.0 || opts.maximumAffinity > 0.0)
      ensures result.MalformedRequest? <==> !result.InvalidArgument? && !env.serializes
      ensures SelectsOnQueue(i, opts) || !env.serializes
        ==> claimRequests == old(claimRequests) && responseChannels == old(responseChannels)
      ensures !SelectsOnQueue(i, opts) && env.serializes
        ==> && claimRequests == (if i.requireClaim then old(claimRequests) - {id} else old(claimRequests))
            && responseChannels == old(responseChannels) - {id}
      ensures if SelectsOnQueue(i, opts) then result == InvalidArgument && published == old(published)
        else if !env.serializes then result == MalformedRequest && published == old(published)
        else if !env.publishOk then result == PublishFailed && published == old(published)
        else exists grants ::
          && IsCall(codec, i, opts, env, result, grants)
          && published == old(published) + [Request(id, i.queue)] + GrantsOf(id, grants)
    {
      hide IsCall, GrantsOf;
      if SelectsOnQueue(i, opts) {
        return InvalidArgument;
      }
      if !env.serializes {
        return MalformedRequest;
      }
      if i.requireClaim {
        claimRequests := claimRequests[id := channelSize];
      }
      responseChannels := responseChannels[id := 1];

      var grants: seq<string>;
      if !env.publishOk {
        result := PublishFailed;
      } else {
        published := published + [Request(id, i.queue)];
        result, grants := Converse(codec, i, opts, env);
        NeitherInvalidNorMalformed(codec, i, opts, env, result, grants);
        published := published + GrantsOf(id, grants);
      }

      RouteRemoved(old(claimRequests), id, channelSize);
      RouteRemoved(old(responseChannels), id, 1);
      if i.requireClaim {
        claimRequests := claimRequests - {id};
      }
      responseChannels := responseChannels - {id};
    }
  }

  /** All of newRPC between the publication of the request and the clean-up. */
  method Converse(codec: Codec, i: RequestInfo, opts: Opts, env: Env) returns (result: CallResult, grants: seq<string>)
    ensures IsCall(codec, i, opts, env, result, grants)
  {
    if i.requireClaim && !i.queue {
      result, grants := SelectAndWait(codec, opts, env);
    } else {
      result, grants := Wait(codec, env.events, i.requireClaim && i.queue, env.grantOk);
    }
  }

  method SelectAndWait(codec: Codec, opts: Opts, env: Env) returns (result: CallResult, grants: seq<string>)
    ensures IsClaimedCall(codec, opts, env, result, grants)
  {
    var out, used, _ := SelectServerUntil(opts, env.events);
    grants := [];
    match out {
      case Waiting => result := Pending;
      case Failed(why) => result := SelectionFailed(why);
      case Replied(res) => result := ReadResponse(codec, res);
      case Chosen(serverId) =>
        if !env.grantOk {
          result := PublishFailed;
        } else {
          var none;
          result, none := Wait(codec, env.events[used..], false, true);
          grants := [serverId];
        }
    }
  }

  /** The second select loop; `bids` is nil unless the call is a claimed one on a queue. */
  method Wait(codec: Codec, events: seq<Event>, bids: bool, grantOk: bool)
    returns (result: CallResult, grants: seq<string>)
    ensures IsWait(codec, events, bids, grantOk, result, grants)
    ensures !bids ==> grants == []
  {
    hide IsGranted;
    grants := [];
    var watching := bids;
    NothingGranted(events, bids, grantOk);
    for k := 0 to |events|
      invariant forall j :: 0 <= j < k ==> !EndsWait(events[j])
      invariant IsGranted(events[..k], bids, grantOk, grants)
      invariant watching <==> bids && grants == []
      invariant !bids ==> grants == []
    {
      var e := events[k];
      GrantStep(events, k, bids, grantOk, grants);
      if EndsWait(e) {
        assert EndsFirst(events, k);
        return WaitResult(codec, e), grants;
      }
      if e.Bid? && watching {
        watching := false;
        if !grantOk {
          assert FailsAtBid(events, bids, grantOk, k);
          return PublishFailed, grants;
        }
        grants := [e.claim.serverId];
      }
    }
    assert events[..|events|] == events;
    return Pending, grants;
  }

  lemma NothingGranted(events: seq<Event>, bids: bool, grantOk: bool)
    ensures IsGranted(events[..0], bids, grantOk, [])
  {
  }

  lemma GrantStep(events: seq<Event>, k: nat, bids: bool, grantOk: bool, grants: seq<string>)
    requires k < |events| && IsGranted(events[..k], bids, grantOk, grants)
    ensures bids && grantOk && grants == [] && events[k].Bid?
      ==> IsGranted(events[..k + 1], bids, grantOk, [events[k].claim.serverId])
    ensures !(bids && grants == [] && events[k].Bid?) ==> IsGranted(events[..k + 1], bids, grantOk, grants)
    ensures bids && grants == [] ==> forall j :: 0 <= j < k ==> !events[j].Bid?
  {
    var before, after := events[..k], events[..k + 1];
    assert forall j :: 0 <= j < k ==> after[j] == before[j] == events[j];
    if bids && grants == [] && events[k].Bid? {
      assert IsFirstBid(after, k);
    } else if grants != [] {
      var b :| IsFirstBid(before, b) && grants == [before[b].claim.serverId];
      assert IsFirstBid(after, b);
    }
  }

  // ---------- what a call promises ----------

  lemma GrantsAreDetermined(events: seq<Event>, bids: bool, grantOk: bool, grants: seq<string>, grants': seq<string>)
    requires IsGranted(events, bids, grantOk, grants) && IsGranted(events, bids, grantOk, grants')
    ensures grants == grants'
  {
    forall b, c | IsFirstBid(events, b) && IsFirstBid(events, c) ensures b == c {}
  }

  /** Where a bid cannot be granted, no wait gets past it. */
  lemma BidStopsWait(events: seq<Event>, bids: bool, grants: seq<string>, b: int, n: nat)
    requires bids && IsFirstBid(events, b) && b < n <= |events|
    ensures !IsGranted(events[..n], bids, false, grants)
  {
    assert events[..n][b].Bid?;
  }

  lemma WaitIsDetermined(codec: Codec, events: seq<Event>, bids: bool, grantOk: bool,
                         result: CallResult, grants: seq<string>, result': CallResult, grants': seq<string>)
    requires IsWait(codec, events, bids, grantOk, result, grants)
    requires IsWait(codec, events, bids, grantOk, result', grants')
    ensures result == result' && grants == grants'
  {
    hide IsGranted, IsFirstBid;
    if b :| FailsAtBid(events, bids, grantOk, b) {
      BidIsNoEnd(events, b);
      forall g, n: nat | b < n <= |events| ensures !IsGranted(events[..n], bids, false, g) {
        BidStopsWait(events, bids, g, b, n);
      }
      assert events[..|events|] == events;
    } else if k :| EndsFirst(events, k) {
      GrantsAreDetermined(events[..k], bids, grantOk, grants, grants');
    } else {
      GrantsAreDetermined(events, bids, grantOk, grants, grants');
    }
  }

  lemma BidIsNoEnd(events: seq<Event>, b: int)
    requires IsFirstBid(events, b)
    ensures 0 <= b < |events| && !EndsWait(events[b])
  {
  }

  /** The environment determines a call: its result, and its grants even when they cannot be published. */
  lemma CallIsDetermined(codec: Codec, i: RequestInfo, opts: Opts, env: Env,
                         result: CallResult, grants: seq<string>, result': CallResult, grants': seq<string>)
    requires IsCall(codec, i, opts, env, result, grants) && IsCall(codec, i, opts, env, result', grants')
    ensures result == result' && grants == grants'
  {
    hide IsWait, IsSelection;
    if i.requireClaim && !i.queue {
      var used: nat, out :|
        IsSelection(opts, env.events, used, out) && AfterSelection(codec, env, used, out, result, grants);
      var used': nat, out' :|
        IsSelection(opts, env.events, used', out') && AfterSelection(codec, env, used', out', result', grants');
      SelectionIsDetermined(opts, env.events, used, out, used', out');
      if out.Chosen? && env.grantOk {
        WaitIsDetermined(codec, env.events[used..], false, true, result, [], result', []);
      }
    } else {
      WaitIsDetermined(codec, env.events, i.requireClaim && i.queue, env.grantOk, result, grants, result', grants');
    }
  }

  lemma NeitherInvalidNorMalformed(codec: Codec, i: RequestInfo, opts: Opts, env: Env,
                                   result: CallResult, grants: seq<string>)
    requires IsCall(codec, i, opts, env, result, grants)
    ensures !result.InvalidArgument? && !result.MalformedRequest?
  {
    hide IsGranted, IsSelection;
  }

  /** At most one grant per call, and only for calls that claim. */
  lemma GrantsAtMostOnce(codec: Codec, i: RequestInfo, opts: Opts, env: Env, result: CallResult, grants: seq<string>)
    requires IsCall(codec, i, opts, env, result, grants)
    ensures |grants| <= 1 && (grants != [] ==> i.requireClaim)
  {
  }

  predicate IsAnswer(result: CallResult) {
    result.NoSubscriber? || result.RemoteError? || result.MalformedResponse? || result.Success?
  }

  ghost predicate AnsweredBy(codec: Codec, events: seq<Event>, k: int, result: CallResult) {
    0 <= k < |events| && events[k].Reply? && result == ReadResponse(codec, events[k].res)
  }

  /** What ends the wait tells how it ends, unless a grant failed before. */
  lemma WaitTells(codec: Codec, events: seq<Event>, bids: bool, grantOk: bool, result: CallResult, grants: seq<string>)
    requires IsWait(codec, events, bids, grantOk, result, grants) && result != PublishFailed
    ensures result.Pending? <==> forall k :: !EndsFirst(events, k)
    ensures forall k :: EndsFirst(events, k) ==>
      && (events[k].Canceled? <==> result == RequestCanceled)
      && (events[k].Deadline? <==> result == RequestTimedOut)
      && (events[k].Closed? <==> result == CallerClosed)
      && (events[k].Reply? ==> result == ReadResponse(codec, events[k].res))
  {
    forall j, k | EndsFirst(events, j) && EndsFirst(events, k) ensures j == k {}
  }

  lemma WaitAnswer(codec: Codec, events: seq<Event>, bids: bool, grantOk: bool, result: CallResult, grants: seq<string>)
    requires IsWait(codec, events, bids, grantOk, result, grants) && IsAnswer(result)
    ensures exists k :: AnsweredBy(codec, events, k, result)
  {
    var k :| EndsFirst(events, k) && result == WaitResult(codec, events[k]);
    assert AnsweredBy(codec, events, k, result);
  }

  /** Any answer the call gives is the reading of one reply it received, and a reply
      that carries an error or is the broker's stand-in is never read as a success. */
  lemma AnswerIsAReply(codec: Codec, i: RequestInfo, opts: Opts, env: Env, result: CallResult, grants: seq<string>)
    requires IsCall(codec, i, opts, env, result, grants) && IsAnswer(result)
    ensures exists k ::
      && AnsweredBy(codec, env.events, k, result)
      && (result.Success? ==> env.events[k].res.error == "" && env.events[k].res.code != UNANSWERED_CODE)
  {
    if i.requireClaim && !i.queue {
      ClaimedAnswer(codec, opts, env, result, grants);
    } else {
      WaitAnswer(codec, env.events, i.requireClaim && i.queue, env.grantOk, result, grants);
    }
    var k :| AnsweredBy(codec, env.events, k, result);
  }

  lemma ClaimedAnswer(codec: Codec, opts: Opts, env: Env, result: CallResult, grants: seq<string>)
    requires IsClaimedCall(codec, opts, env, result, grants) && IsAnswer(result)
    ensures exists k :: AnsweredBy(codec, env.events, k, result)
  {
    hide IsWait;
    var events := env.events;
    var used: nat, out :| IsSelection(opts, events, used, out) && AfterSelection(codec, env, used, out, result, grants);
    if out.Replied? {
      assert AnsweredBy(codec, events, used - 1, result);
    } else {
      WaitAnswer(codec, events[used..], false, true, result, []);
      var k :| AnsweredBy(codec, events[used..], k, result);
      assert events[used..][k] == events[used + k];
      assert AnsweredBy(codec, events, used + k, result);
    }
  }

  /** A server's error is the call's answer only after a grant: an earlier one is held
      back, to be reported as a failed selection if no bid outdoes it. */
  lemma RemoteErrorNeedsGrant(codec: Codec, opts: Opts, env: Env, result: CallResult, grants: seq<string>)
    requires IsClaimedCall(codec, opts, env, result, grants) && result.RemoteError?
    ensures grants != []
  {
    var used: nat, out :|
      IsSelection(opts, env.events, used, out) && AfterSelection(codec, env, used, out, result, grants);
    if out.Replied? {
      assert Ends(opts, env.events[used - 1]);
    }
  }
}
