/**
 Claim selection (pkg/client/rpc.go, selectServerUntil).

 What the select statement picks, round by round, is a sequence of events. A timer
 cancels the selection context only; cancellation and the deadline end the call too.
 Affinities are real numbers, so there is no NaN.
 */
module Selection {
  import opened Wrappers

  datatype Claim = Claim(serverId: string, affinity: real)

  datatype Response = Response(code: string, error: string, raw: string)

  datatype Event =
    | Closed
    | Timer
    | Canceled
    | Deadline
    | Bid(claim: Claim)
    | Reply(res: Response)

  /** `shortCircuitTimeout` is zero when the option is off. */
  datatype Opts = Opts(
    minimumAffinity: real,
    maximumAffinity: real,
    acceptFirstAvailable: bool,
    shortCircuitTimeout: nat,
    selectionFunc: Option<seq<Claim> -> Result<string, string>>)

  datatype Failure =
    | ClientClosed
    | Custom(message: string)
    | ServerError(code: string, message: string)
    | Unavailable(claims: nat)
    | NoResponse

  datatype Outcome = Waiting | Chosen(serverId: string) | Replied(res: Response) | Failed(why: Failure)

  // ---------- the declarative specification ----------

  predicate Eligible(opts: Opts, claim: Claim) {
    opts.minimumAffinity <= 0.0 || claim.affinity >= opts.minimumAffinity
  }

  predicate ShortCircuits(opts: Opts, claim: Claim) {
    && Eligible(opts, claim)
    && (opts.acceptFirstAvailable || (opts.maximumAffinity > 0.0 && claim.affinity >= opts.maximumAffinity))
  }

  predicate Cancels(e: Event) {
    e.Timer? || e.Canceled? || e.Deadline?
  }

  /** Whether an event ends selection does not depend on what came before it. */
  predicate Ends(opts: Opts, e: Event) {
    match e
    case Bid(claim) => ShortCircuits(opts, claim)
    case Reply(res) => res.error == ""
    case _ => true
  }

  predicate EligibleBid(opts: Opts, e: Event) {
    e.Bid? && Eligible(opts, e.claim)
  }

  predicate HeldBackError(e: Event) {
    e.Reply? && e.res.error != ""
  }

  /** The eligible claims in arrival order. */
  function Eligibles(opts: Opts, events: seq<Event>): seq<Claim> {
    if events == [] then []
    else
      var last := |events| - 1;
      if EligibleBid(opts, events[last]) then Eligibles(opts, events[..last]) + [events[last].claim]
      else Eligibles(opts, events[..last])
  }

  function BidCount(events: seq<Event>): nat {
    if events == [] then 0
    else BidCount(events[..|events| - 1]) + (if events[|events| - 1].Bid? then 1 else 0)
  }

  /** Event `i` brought the earliest eligible claim of maximal positive affinity. */
  ghost predicate IsBest(opts: Opts, events: seq<Event>, i: int) {
    && 0 <= i < |events| && EligibleBid(opts, events[i]) && events[i].claim.affinity > 0.0
    && (forall j :: 0 <= j < |events| && EligibleBid(opts, events[j])
          ==> events[j].claim.affinity <= events[i].claim.affinity)
    && (forall j :: 0 <= j < i && EligibleBid(opts, events[j])
          ==> events[j].claim.affinity < events[i].claim.affinity)
  }

  ghost predicate IsLastError(events: seq<Event>, i: int) {
    && 0 <= i < |events| && HeldBackError(events[i])
    && (forall j :: i < j < |events| ==> !HeldBackError(events[j]))
  }

  ghost predicate OnlyNamelessBest(opts: Opts, events: seq<Event>) {
    forall i :: IsBest(opts, events, i) ==> events[i].claim.serverId == ""
  }

  /** The result at cancellation, given the events before it. */
  ghost predicate AtCancellation(opts: Opts, events: seq<Event>, out: Outcome) {
    match opts.selectionFunc
    case Some(f) =>
      (match f(Eligibles(opts, events))
       case Ok(id) => out == Chosen(id)
       case Err(message) => out == Failed(Custom(message)))
    case None =>
      || (exists i :: IsBest(opts, events, i) && events[i].claim.serverId != ""
            && out == Chosen(events[i].claim.serverId))
      || (&& OnlyNamelessBest(opts, events)
          && exists i :: IsLastError(events, i)
               && out == Failed(ServerError(events[i].res.code, events[i].res.error)))
      || (&& OnlyNamelessBest(opts, events)
          && (forall i :: 0 <= i < |events| ==> !HeldBackError(events[i]))
          && out == Failed(if BidCount(events) > 0 then Unavailable(BidCount(events)) else NoResponse))
  }

  /** The result when `e` ends selection after `events`. */
  ghost predicate OutcomeAt(opts: Opts, events: seq<Event>, e: Event, out: Outcome) {
    match e
    case Closed => out == Failed(ClientClosed)
    case Bid(claim) => out == Chosen(claim.serverId)
    case Reply(res) => out == Replied(res)
    case _ => AtCancellation(opts, events, out)
  }

  /** Selection consumes `used` events, the last of which is the first that ends it. */
  ghost predicate IsSelection(opts: Opts, events: seq<Event>, used: nat, out: Outcome) {
    && used <= |events|
    && (if out.Waiting? then
          used == |events| && forall j :: 0 <= j < used ==> !Ends(opts, events[j])
        else
          && 0 < used && Ends(opts, events[used - 1])
          && (forall j :: 0 <= j < used - 1 ==> !Ends(opts, events[j]))
          && OutcomeAt(opts, events[..used - 1], events[used - 1], out))
  }

  /** The specification leaves no choice: it is a function of the events. */
  lemma SelectionIsDetermined(opts: Opts, events: seq<Event>, used: nat, out: Outcome, used': nat, out': Outcome)
    requires IsSelection(opts, events, used, out) && IsSelection(opts, events, used', out')
    ensures used == used' && out == out'
  {
    if out.Waiting? != out'.Waiting? || used < used' || used' < used {
      assert false;
    }
    if !out.Waiting? && Cancels(events[used - 1]) && opts.selectionFunc.None? {
      var prefix := events[..used - 1];
      forall i, j | IsBest(opts, prefix, i) && IsBest(opts, prefix, j) ensures i == j {
        assert EligibleBid(opts, prefix[i]) && EligibleBid(opts, prefix[j]);
      }
    }
  }

  predicate BidOf(opts: Opts, events: seq<Event>, j: int, serverId: string) {
    0 <= j < |events| && EligibleBid(opts, events[j]) && events[j].claim.serverId == serverId
  }

  /** Without a custom function only a server whose eligible bid was heard is chosen. */
  lemma ChosenHadBid(opts: Opts, events: seq<Event>, used: nat, serverId: string)
    requires IsSelection(opts, events, used, Chosen(serverId)) && opts.selectionFunc.None?
    ensures exists j :: j < used && BidOf(opts, events, j, serverId)
  {
    var e, prefix := events[used - 1], events[..used - 1];
    if e.Bid? {
      assert BidOf(opts, events, used - 1, serverId);
    } else {
      var i :| IsBest(opts, prefix, i) && prefix[i].claim.serverId == serverId;
      assert BidOf(opts, events, i, serverId);
    }
  }

  // ---------- the loop ----------

  lemma Snoc(opts: Opts, events: seq<Event>, k: nat)
    requires k < |events|
    ensures events[..k + 1][..k] == events[..k] && events[..k + 1][k] == events[k]
    ensures BidCount(events[..k + 1]) == BidCount(events[..k]) + (if events[k].Bid? then 1 else 0)
    ensures Eligibles(opts, events[..k + 1])
         == if EligibleBid(opts, events[k]) then Eligibles(opts, events[..k]) + [events[k].claim]
            else Eligibles(opts, events[..k])
  {
    assert events[..k + 1][..k] == events[..k];
  }

  /** What `serverID` and `affinity` hold once the loop has seen `events`. */
  ghost predicate TracksBest(opts: Opts, events: seq<Event>, best: int, serverId: string, affinity: real) {
    if best < 0 then
      && serverId == "" && affinity == 0.0
      && forall j :: 0 <= j < |events| && EligibleBid(opts, events[j]) ==> events[j].claim.affinity <= 0.0
    else
      IsBest(opts, events, best)
      && serverId == events[best].claim.serverId && affinity == events[best].claim.affinity
  }

  /** What `resErr` holds. */
  ghost predicate TracksError(events: seq<Event>, at: int, resErr: Option<Failure>) {
    if at < 0 then
      resErr.None? && forall j :: 0 <= j < |events| ==> !HeldBackError(events[j])
    else
      IsLastError(events, at)
      && resErr == Some(ServerError(events[at].res.code, events[at].res.error))
  }

  lemma Start(opts: Opts, events: seq<Event>)
    ensures BidCount(events[..0]) == 0 && Eligibles(opts, events[..0]) == []
    ensures TracksBest(opts, events[..0], -1, "", 0.0) && TracksError(events[..0], -1, None)
    ensures !Arms(opts, events[..0])
  {
  }

  lemma BestStep(opts: Opts, events: seq<Event>, k: nat, best: int, serverId: string, affinity: real)
    requires k < |events| && TracksBest(opts, events[..k], best, serverId, affinity)
    ensures if EligibleBid(opts, events[k]) && events[k].claim.affinity > affinity
      then TracksBest(opts, events[..k + 1], k, events[k].claim.serverId, events[k].claim.affinity)
      else TracksBest(opts, events[..k + 1], best, serverId, affinity)
  {
    var before, after := events[..k], events[..k + 1];
    assert forall j :: 0 <= j < k ==> after[j] == before[j];
    assert best >= 0 ==> EligibleBid(opts, before[best]);
  }

  lemma ErrorStep(events: seq<Event>, k: nat, at: int, resErr: Option<Failure>)
    requires k < |events| && TracksError(events[..k], at, resErr)
    ensures if HeldBackError(events[k])
      then TracksError(events[..k + 1], k, Some(ServerError(events[k].res.code, events[k].res.error)))
      else TracksError(events[..k + 1], at, resErr)
  {
    var before, after := events[..k], events[..k + 1];
    assert forall j :: 0 <= j < k ==> after[j] == before[j];
  }

  lemma CancellationResult(opts: Opts, events: seq<Event>, best: int, serverId: string, affinity: real,
                           at: int, resErr: Option<Failure>, out: Outcome)
    requires opts.selectionFunc.None?
    requires TracksBest(opts, events, best, serverId, affinity) && TracksError(events, at, resErr)
    requires out == if serverId != "" then Chosen(serverId)
                    else if resErr.Some? then Failed(resErr.value)
                    else Failed(if BidCount(events) > 0 then Unavailable(BidCount(events)) else NoResponse)
    ensures AtCancellation(opts, events, out)
  {
    assert best >= 0 ==> EligibleBid(opts, events[best]);
    assert forall i :: IsBest(opts, events, i) ==> i == best;
  }

  /** The short-circuit timer runs once an eligible claim left selection open. */
  ghost predicate Arms(opts: Opts, events: seq<Event>) {
    && opts.shortCircuitTimeout > 0
    && exists j :: 0 <= j < |events| && EligibleBid(opts, events[j]) && !Ends(opts, events[j])
  }

  lemma ArmsStep(opts: Opts, events: seq<Event>, k: nat)
    requires k < |events|
    ensures Arms(opts, events[..k + 1]) <==>
      (|| Arms(opts, events[..k])
       || (opts.shortCircuitTimeout > 0 && EligibleBid(opts, events[k]) && !Ends(opts, events[k])))
  {
    var before, after := events[..k], events[..k + 1];
    assert forall j :: 0 <= j < k ==> after[j] == before[j];
    assert after[k] == events[k];
  }

  /** selectServerUntil. `armed` says whether the short-circuit timer was started. */
  method SelectServerUntil(opts: Opts, events: seq<Event>) returns (out: Outcome, used: nat, armed: bool)
    ensures IsSelection(opts, events, used, out)
    ensures armed <==> Arms(opts, events[..used])
  {
    hide TracksBest, TracksError, Arms, Eligibles, BidCount, AtCancellation;
    armed := false;
    var serverId, affinity := "", 0.0;
    var claims: seq<Claim> := [];
    var claimCount := 0;
    var resErr: Option<Failure> := None;
    ghost var best, at := -1, -1;
    used := 0;
    Start(opts, events);
    while used < |events|
      invariant 0 <= used <= |events|
      invariant forall j :: 0 <= j < used ==> !Ends(opts, events[j])
      invariant claimCount == BidCount(events[..used])
      invariant opts.selectionFunc.Some? ==> claims == Eligibles(opts, events[..used])
      invariant opts.selectionFunc.None? ==> TracksBest(opts, events[..used], best, serverId, affinity)
      invariant TracksError(events[..used], at, resErr)
      invariant armed <==> Arms(opts, events[..used])
    {
      var e := events[used];
      Snoc(opts, events, used);
      ArmsStep(opts, events, used);
      ErrorStep(events, used, at, resErr);
      if opts.selectionFunc.None? {
        BestStep(opts, events, used, best, serverId, affinity);
      }
      used := used + 1;
      match e {
        case Closed =>
          return Failed(ClientClosed), used, armed;

        case Bid(claim) =>
          claimCount := claimCount + 1;
          if (opts.minimumAffinity > 0.0 && claim.affinity >= opts.minimumAffinity) || opts.minimumAffinity <= 0.0 {
            if opts.acceptFirstAvailable || (opts.maximumAffinity > 0.0 && claim.affinity >= opts.maximumAffinity) {
              return Chosen(claim.serverId), used, armed;
            }
            if opts.selectionFunc.Some? {
              claims := claims + [claim];
            } else if claim.affinity > affinity {
              serverId := claim.serverId;
              affinity := claim.affinity;
              best := used - 1;
            }
            if opts.shortCircuitTimeout > 0 && !armed {
              armed := true;
            }
          }

        case Reply(res) =>
          if res.error == "" {
            return Replied(res), used, armed;
          }
          resErr := Some(ServerError(res.code, res.error));
          at := used - 1;

        case _ =>
          out := CancelledSelection(opts, events[..used - 1], claims, serverId, affinity, claimCount, resErr, best, at);
          return out, used, armed;
      }
    }
    return Waiting, used, armed;
  }

  /** The switch taken when the selection context is done. */
  method CancelledSelection(opts: Opts, ghost events: seq<Event>, claims: seq<Claim>, serverId: string,
                            ghost affinity: real, claimCount: nat, resErr: Option<Failure>,
                            ghost best: int, ghost at: int)
    returns (out: Outcome)
    requires claimCount == BidCount(events)
    requires opts.selectionFunc.Some? ==> claims == Eligibles(opts, events)
    requires opts.selectionFunc.None? ==> TracksBest(opts, events, best, serverId, affinity)
    requires TracksError(events, at, resErr)
    ensures !out.Waiting? && AtCancellation(opts, events, out)
  {
    if opts.selectionFunc.Some? {
      match opts.selectionFunc.value(claims) {
        case Ok(id) => out := Chosen(id);
        case Err(message) => out := Failed(Custom(message));
      }
    } else {
      if serverId != "" {
        out := Chosen(serverId);
      } else if resErr.Some? {
        out := Failed(resErr.value);
      } else if claimCount > 0 {
        out := Failed(Unavailable(claimCount));
      } else {
        out := Failed(NoResponse);
      }
      CancellationResult(opts, events, best, serverId, affinity, at, resErr, out);
    }
  }
}
