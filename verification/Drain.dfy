/**
 Closing a handler (pkg/server/rpc.go, run and close; pkg/bus/subscription.go) as a step
 system: the goroutine that forwards requests, the run loop, the handler goroutines and
 the one closer that wins the once. A request expires, and a handler returns, at any time.
 */
module Drain {
  type Request = nat

  /** What the forwarding goroutine is doing; when it leaves it closes its channel. */
  datatype Forwarder = Reading | Sending(request: Request) | Exited

  /** How far the close has got. A forced close goes from Unsubscribed to ClaimsClosed. */
  datatype Progress =
    | NotClosing
    | Signalled
    | ReaderClosed
    | Unsubscribed
    | Drained
    | Waited
    | ClaimsClosed
    | Completed

  /** `buffer` is the subscription's channel, `deaf` says the loop no longer selects it,
      `drainedCloses` and `completeCloses` count how often each latch was closed,
      `handling` is the wait group and `running` the goroutines it counts.
      `forwarded`, `received`, `counted` and `finished` are history. */
  datatype State = State(
    size: nat,
    forwarder: Forwarder,
    buffer: seq<Request>,
    deaf: bool,
    stopped: bool,
    drainedCloses: nat,
    completeCloses: nat,
    handling: int,
    running: multiset<Request>,
    force: bool,
    progress: Progress,
    claimsOpen: bool,
    forwarded: seq<Request>,
    received: seq<Request>,
    counted: seq<Request>,
    finished: multiset<Request>)

  function Init(size: nat): State {
    State(size, Reading, [], false, false, 0, 0, 0, multiset{}, false, NotClosing, true, [], [], [], multiset{})
  }

  function Rank(p: Progress): nat {
    match p
    case NotClosing => 0
    case Signalled => 1
    case ReaderClosed => 2
    case Unsubscribed => 3
    case Drained => 4
    case Waited => 5
    case ClaimsClosed => 6
    case Completed => 7
  }

  predicate Past(s: State, p: Progress) {
    Rank(s.progress) >= Rank(p)
  }

  datatype Action =
    // the forwarding goroutine
    | Read(request: Request)
    | ReadFails
    | Forward
    | Abandon
    // the run loop
    | Take(expired: bool)
    | TakeClosed
    | Stop
    // a handler goroutine
    | Finish(request: Request)
    // the closer
    | Begin(forced: bool)
    | CloseReader
    | AwaitForwarder
    | AwaitDrained
    | AwaitHandlers
    | CloseClaims
    | CloseComplete

  predicate Enabled(s: State, a: Action) {
    match a
    case Read(_) => s.forwarder.Reading?
    case ReadFails => s.forwarder.Reading?
    case Forward => s.forwarder.Sending? && (|s.buffer| < s.size || s.buffer == [])
    case Abandon => s.forwarder.Sending? && Past(s, Signalled)
    case Take(_) => !s.stopped && !s.deaf && s.buffer != []
    case TakeClosed => !s.stopped && !s.deaf && s.buffer == [] && s.forwarder.Exited?
    case Stop => !s.stopped && s.completeCloses > 0
    case Finish(request) => request in s.running
    case Begin(_) => s.progress.NotClosing?
    case CloseReader => s.progress.Signalled?
    case AwaitForwarder => s.progress.ReaderClosed? && s.forwarder.Exited?
    case AwaitDrained => s.progress.Unsubscribed? && !s.force && s.drainedCloses > 0
    case AwaitHandlers => s.progress.Drained? && s.handling == 0
    case CloseClaims => s.progress.Waited? || (s.progress.Unsubscribed? && s.force)
    case CloseComplete => s.progress.ClaimsClosed?
  }

  function Apply(s: State, a: Action): State
    requires Enabled(s, a)
  {
    match a
    case Read(request) => s.(forwarder := Sending(request))
    case ReadFails => s.(forwarder := Exited)
    case Forward =>
      var request := s.forwarder.request;
      s.(forwarder := Reading, buffer := s.buffer + [request], forwarded := s.forwarded + [request])
    case Abandon => s.(forwarder := Exited)
    case Take(expired) =>
      s.(buffer := s.buffer[1..], received := s.received + [s.buffer[0]],
         handling := if expired then s.handling else s.handling + 1,
         running := if expired then s.running else s.running + multiset{s.buffer[0]},
         counted := if expired then s.counted else s.counted + [s.buffer[0]])
    case TakeClosed => s.(deaf := true, drainedCloses := s.drainedCloses + 1)
    case Stop => s.(stopped := true)
    case Finish(request) =>
      s.(handling := s.handling - 1, running := s.running - multiset{request},
         finished := s.finished + multiset{request})
    case Begin(forced) => s.(progress := Signalled, force := forced)
    case CloseReader => s.(progress := ReaderClosed)
    case AwaitForwarder => s.(progress := Unsubscribed)
    case AwaitDrained => s.(progress := Drained)
    case AwaitHandlers => s.(progress := Waited)
    case CloseClaims => s.(progress := ClaimsClosed, claimsOpen := false)
    case CloseComplete => s.(progress := Completed, completeCloses := s.completeCloses + 1)
  }

  /** Nothing is lost between the subscription, the loop and the handlers. */
  ghost predicate Conserves(s: State) {
    && s.forwarded == s.received + s.buffer
    && multiset(s.counted) == s.running + s.finished
    && s.handling == |s.running|
  }

  /** How the latches and flags follow the close. */
  ghost predicate Orderly(s: State) {
    && s.drainedCloses == (if s.deaf then 1 else 0)
    && s.completeCloses == (if s.progress.Completed? then 1 else 0)
    && (s.stopped ==> s.progress.Completed?)
    && (s.claimsOpen <==> !Past(s, ClaimsClosed))
    && (s.deaf ==> s.forwarder.Exited? && s.buffer == [])
    && (Past(s, Unsubscribed) ==> s.forwarder.Exited?)
    && (!s.force && Past(s, Drained) ==> s.deaf)
    && (!s.force && Past(s, Waited) ==> s.handling == 0)
    && (s.progress.Drained? || s.progress.Waited? ==> !s.force)
  }

  ghost predicate Inv(s: State) {
    Conserves(s) && Orderly(s)
  }

  lemma TakeConserves(s: State, expired: bool)
    requires Conserves(s) && Enabled(s, Take(expired))
    ensures Conserves(Apply(s, Take(expired)))
  {
    var head, tail := s.buffer[0], s.buffer[1..];
    assert s.buffer == [head] + tail;
    assert s.received + ([head] + tail) == (s.received + [head]) + tail;
    assert multiset(s.counted + [head]) == multiset(s.counted) + multiset{head};
  }

  lemma ForwardConserves(s: State)
    requires Conserves(s) && Enabled(s, Forward)
    ensures Conserves(Apply(s, Forward))
  {
    var request := s.forwarder.request;
    assert s.received + (s.buffer + [request]) == (s.received + s.buffer) + [request];
  }

  lemma FinishConserves(s: State, request: Request)
    requires Conserves(s) && Enabled(s, Finish(request))
    ensures Conserves(Apply(s, Finish(request)))
  {
  }

  lemma ConservesStep(s: State, a: Action)
    requires Conserves(s) && Enabled(s, a)
    ensures Conserves(Apply(s, a))
  {
    match a
    case Take(expired) => TakeConserves(s, expired);
    case Forward => ForwardConserves(s);
    case Finish(request) => FinishConserves(s, request);
    case _ =>
      hide Conserves;
      SameCounts(s, Apply(s, a));
  }

  lemma SameCounts(s: State, t: State)
    requires Conserves(s)
    requires t.forwarded == s.forwarded && t.received == s.received && t.buffer == s.buffer
    requires t.counted == s.counted && t.running == s.running && t.finished == s.finished && t.handling == s.handling
    ensures Conserves(t)
  {
  }

  predicate ByCloser(a: Action) {
    a.Begin? || a.CloseReader? || a.AwaitForwarder? || a.AwaitDrained? || a.AwaitHandlers? || a.CloseClaims?
    || a.CloseComplete?
  }

  lemma OrderlyCloserStep(s: State, a: Action)
    requires Inv(s) && Enabled(s, a) && ByCloser(a)
    ensures Orderly(Apply(s, a))
  {
  }

  lemma OrderlyOtherStep(s: State, a: Action)
    requires Inv(s) && Enabled(s, a) && !ByCloser(a)
    ensures Orderly(Apply(s, a))
  {
  }

  lemma OrderlyStep(s: State, a: Action)
    requires Inv(s) && Enabled(s, a)
    ensures Orderly(Apply(s, a))
  {
    hide Apply, Orderly;
    if ByCloser(a) {
      OrderlyCloserStep(s, a);
    } else {
      OrderlyOtherStep(s, a);
    }
  }

  lemma InitInv(size: nat)
    ensures Inv(Init(size))
  {
  }

  // ---------- runs ----------

  ghost predicate IsRun(states: seq<State>, actions: seq<Action>) {
    && |states| == |actions| + 1
    && (exists size :: states[0] == Init(size))
    && forall i :: 0 <= i < |actions| ==>
         Enabled(states[i], actions[i]) && states[i + 1] == Apply(states[i], actions[i])
  }

  lemma {:induction false} RunInv(states: seq<State>, actions: seq<Action>, i: nat)
    requires IsRun(states, actions) && i < |states|
    ensures Inv(states[i])
  {
    if i == 0 {
      var size :| states[0] == Init(size);
      InitInv(size);
    } else {
      RunInv(states, actions, i - 1);
      ConservesStep(states[i - 1], actions[i - 1]);
      OrderlyStep(states[i - 1], actions[i - 1]);
    }
  }

  // What the steps of a run say by themselves, without the model's own records.

  /** The requests whose handler the loop started: those it took unexpired. */
  function Started(states: seq<State>, actions: seq<Action>, i: nat): seq<Request>
    requires i <= |actions| && i <= |states|
  {
    if i == 0 then []
    else if actions[i - 1] == Take(false) && states[i - 1].buffer != [] then
      Started(states, actions, i - 1) + [states[i - 1].buffer[0]]
    else Started(states, actions, i - 1)
  }

  /** All requests the loop took. */
  function Served(states: seq<State>, actions: seq<Action>, i: nat): seq<Request>
    requires i <= |actions| && i <= |states|
  {
    if i == 0 then []
    else if actions[i - 1].Take? && states[i - 1].buffer != [] then
      Served(states, actions, i - 1) + [states[i - 1].buffer[0]]
    else Served(states, actions, i - 1)
  }

  /** The requests whose handler returned. */
  function Returned(actions: seq<Action>, i: nat): multiset<Request>
    requires i <= |actions|
  {
    if i == 0 then multiset{}
    else if actions[i - 1].Finish? then Returned(actions, i - 1) + multiset{actions[i - 1].request}
    else Returned(actions, i - 1)
  }

  /** The requests read from the broker, in order. */
  function ReadIn(actions: seq<Action>, i: nat): seq<Request>
    requires i <= |actions|
  {
    if i == 0 then []
    else if actions[i - 1].Read? then ReadIn(actions, i - 1) + [actions[i - 1].request]
    else ReadIn(actions, i - 1)
  }

  lemma StepRecords(s: State, a: Action)
    requires Enabled(s, a)
    ensures a.Take? ==> s.buffer != []
    ensures Apply(s, a).counted == if a == Take(false) then s.counted + [s.buffer[0]] else s.counted
    ensures Apply(s, a).received == if a.Take? then s.received + [s.buffer[0]] else s.received
    ensures Apply(s, a).finished == if a.Finish? then s.finished + multiset{a.request} else s.finished
  {
  }

  lemma {:induction false} RecordsAreRight(states: seq<State>, actions: seq<Action>, i: nat)
    requires IsRun(states, actions) && i < |states|
    ensures states[i].counted == Started(states, actions, i)
    ensures states[i].received == Served(states, actions, i)
    ensures states[i].finished == Returned(actions, i)
  {
    if i > 0 {
      hide Apply, Enabled;
      RecordsAreRight(states, actions, i - 1);
      StepRecords(states[i - 1], actions[i - 1]);
    }
  }

  /** The reader's message that is neither forwarded nor dropped yet, or dropped for good. */
  ghost predicate ReadsAreForwarded(s: State, seen: seq<Request>) {
    match s.forwarder
    case Reading => seen == s.forwarded
    case Sending(request) => seen == s.forwarded + [request]
    case Exited => s.forwarded <= seen && |seen| <= |s.forwarded| + 1
  }

  lemma StepForwards(s: State, a: Action, seen: seq<Request>)
    requires Enabled(s, a) && ReadsAreForwarded(s, seen)
    ensures ReadsAreForwarded(Apply(s, a), if a.Read? then seen + [a.request] else seen)
  {
  }

  lemma {:induction false} RunForwards(states: seq<State>, actions: seq<Action>, i: nat)
    requires IsRun(states, actions) && i < |states|
    ensures ReadsAreForwarded(states[i], ReadIn(actions, i))
  {
    if i > 0 {
      hide Apply, Enabled, ReadsAreForwarded;
      RunForwards(states, actions, i - 1);
      StepForwards(states[i - 1], actions[i - 1], ReadIn(actions, i - 1));
    }
  }

  /** In every run the handlers that run and those that have returned are those of the unexpired requests
      the loop took; the loop takes requests in the order they were read, and misses none in between. */
  lemma UnexpiredRequestsRun(states: seq<State>, actions: seq<Action>, i: nat)
    requires IsRun(states, actions) && i < |states|
    ensures multiset(Started(states, actions, i)) == states[i].running + Returned(actions, i)
    ensures states[i].handling == |states[i].running|
    ensures Served(states, actions, i) <= ReadIn(actions, i)
  {
    RunInv(states, actions, i);
    RecordsAreRight(states, actions, i);
    RunForwards(states, actions, i);
    assert states[i].received <= states[i].forwarded <= ReadIn(actions, i);
  }

  /** A graceful close completes only once the handler of every unexpired request the run loop took has
      returned, and by then the loop has taken every request that was read but for a last one which the
      closing subscription may have dropped. */
  lemma GracefulCloseWaits(states: seq<State>, actions: seq<Action>, i: nat)
    requires IsRun(states, actions) && i < |states| && states[i].progress.Completed? && !states[i].force
    ensures Returned(actions, i) == multiset(Started(states, actions, i)) && states[i].running == multiset{}
    ensures Served(states, actions, i) <= ReadIn(actions, i) && |ReadIn(actions, i)| <= |Served(states, actions, i)| + 1
  {
    hide Inv, Conserves, Orderly, Started, Served, Returned, ReadIn, IsRun;
    RunInv(states, actions, i);
    CompletedIsDone(states[i]);
    RecordsAreRight(states, actions, i);
    RunForwards(states, actions, i);
  }

  lemma CompletedIsDone(s: State)
    requires Inv(s) && s.progress.Completed? && !s.force
    ensures s.finished == multiset(s.counted) && s.running == multiset{}
    ensures s.received == s.forwarded && s.forwarder.Exited?
  {
    assert s.received + [] == s.received;
  }

  /** No latch is ever closed twice. */
  lemma LatchesCloseOnce(states: seq<State>, actions: seq<Action>, i: nat)
    requires IsRun(states, actions) && i < |states|
    ensures states[i].drainedCloses <= 1 && states[i].completeCloses <= 1
  {
    RunInv(states, actions, i);
  }

  lemma CountStep(s: State, a: Action)
    requires Inv(s) && Enabled(s, a) && Past(s, Drained) && !s.force
    ensures Apply(s, a).handling <= s.handling && Apply(s, a).counted == s.counted
    ensures Past(Apply(s, a), Drained) && !Apply(s, a).force
  {
  }

  /** Once a graceful closer may be waiting on the count, no step raises it again. */
  lemma {:induction false} CountOnlyFalls(states: seq<State>, actions: seq<Action>, i: nat, j: nat)
    requires IsRun(states, actions) && i <= j < |states| && Past(states[i], Drained) && !states[i].force
    ensures states[j].handling <= states[i].handling && states[j].counted == states[i].counted
    ensures Past(states[j], Drained) && !states[j].force
  {
    hide Apply, Enabled, Inv;
    if i < j {
      CountOnlyFalls(states, actions, i, j - 1);
      RunInv(states, actions, j - 1);
      CountStep(states[j - 1], actions[j - 1]);
    }
  }

  /** While a graceful close lets a request run, grants for it still come in: the claim
      subscription is open and the loop still serves it. */
  lemma WaitingBidsCanBeGranted(states: seq<State>, actions: seq<Action>, i: nat)
    requires IsRun(states, actions) && i < |states| && !states[i].force && states[i].running != multiset{}
    ensures states[i].claimsOpen && !states[i].stopped
  {
    RunInv(states, actions, i);
  }

  /** A close never deadlocks: until it completes, some goroutine other than the reader can move. */
  lemma CloseNeverDeadlocks(states: seq<State>, actions: seq<Action>, i: nat) returns (a: Action)
    requires IsRun(states, actions) && i < |states| && Past(states[i], Signalled) && !states[i].progress.Completed?
    ensures Enabled(states[i], a) && !a.Read?
  {
    RunInv(states, actions, i);
    var s := states[i];
    match s.progress
    case Signalled => a := CloseReader;
    case ReaderClosed =>
      a := match s.forwarder case Reading => ReadFails case Sending(_) => Abandon case Exited => AwaitForwarder;
    case Unsubscribed =>
      a := if s.force then CloseClaims
           else if s.deaf then AwaitDrained
           else if s.buffer == [] then TakeClosed
           else Take(true);
    case Drained =>
      if s.running == multiset{} {
        a := AwaitHandlers;
      } else {
        var request :| request in s.running;
        a := Finish(request);
      }
    case Waited => a := CloseClaims;
    case ClaimsClosed => a := CloseComplete;
  }

  /** What is left to do: for the forwarder, the loop, the handlers and the closer. */
  function StepsLeft(s: State): nat {
    (match s.forwarder case Reading => 1 case Sending(_) => 4 case Exited => 0)
    + 2 * |s.buffer| + (if s.deaf then 0 else 1) + (if s.stopped then 0 else 1)
    + |s.running| + (7 - Rank(s.progress))
  }

  lemma StepLowers(s: State, a: Action)
    requires Enabled(s, a) && !a.Read?
    ensures StepsLeft(Apply(s, a)) < StepsLeft(s)
  {
  }

  ghost predicate NoReads(actions: seq<Action>, i: nat, j: nat)
    requires i <= j <= |actions|
  {
    forall k :: i <= k < j ==> !actions[k].Read?
  }

  /** A close completes: between two messages from the broker there is only a bounded number of
      steps, and when no step is left the close has completed. */
  lemma {:induction false} CloseCompletes(states: seq<State>, actions: seq<Action>, i: nat, j: nat)
    requires IsRun(states, actions) && i <= j < |states| && Past(states[i], Signalled) && NoReads(actions, i, j)
    ensures j - i + StepsLeft(states[j]) <= StepsLeft(states[i])
    ensures (forall a :: Enabled(states[j], a) ==> a.Read?) ==> states[j].progress.Completed?
  {
    hide Apply, Enabled, StepsLeft;
    if i < j {
      CloseCompletes(states, actions, i, j - 1);
      StepLowers(states[j - 1], actions[j - 1]);
    }
    StaysSignalled(states, actions, i, j);
    if !states[j].progress.Completed? {
      var a := CloseNeverDeadlocks(states, actions, j);
    }
  }

  lemma {:induction false} StaysSignalled(states: seq<State>, actions: seq<Action>, i: nat, j: nat)
    requires IsRun(states, actions) && i <= j < |states| && Past(states[i], Signalled)
    ensures Past(states[j], Signalled)
  {
    hide Apply, Enabled;
    if i < j {
      StaysSignalled(states, actions, i, j - 1);
      ProgressGoesOn(states[j - 1], actions[j - 1]);
    }
  }

  lemma ProgressGoesOn(s: State, a: Action)
    requires Enabled(s, a)
    ensures Rank(Apply(s, a).progress) >= Rank(s.progress)
  {
  }

  /** The steps of `path` lead from `s` to `t`. */
  ghost predicate Leads(s: State, path: seq<Action>, t: State)
    decreases |path|
  {
    if path == [] then s == t else Enabled(s, path[0]) && Leads(Apply(s, path[0]), path[1..], t)
  }

  /** A forced close waits for no handler: wherever it stands, a few steps of the closer and the
      forwarder complete it, with every handler still running that ran before. */
  lemma ForcedCloseDoesNotWait(states: seq<State>, actions: seq<Action>, i: nat) returns (path: seq<Action>, t: State)
    requires IsRun(states, actions) && i < |states| && Past(states[i], Signalled) && states[i].force
    ensures Leads(states[i], path, t) && t.progress.Completed?
    ensures |path| <= 5 && forall a :: a in path ==> !a.Finish? && !a.Take? && !a.Read?
    ensures t.running == states[i].running && t.handling == states[i].handling
  {
    RunInv(states, actions, i);
    path, t := ForcedPath(states[i]);
  }

  /** The closer's own steps in a forced close. */
  function CloserSteps(p: Progress): int {
    if Rank(p) >= Rank(ClaimsClosed) then 7 - Rank(p) else if Rank(p) >= Rank(Unsubscribed) then 2 else 5 - Rank(p)
  }

  lemma {:induction false} ForcedPath(s: State) returns (path: seq<Action>, t: State)
    requires Orderly(s) && Past(s, Signalled) && s.force
    ensures Leads(s, path, t) && t.progress.Completed? && t.running == s.running && t.handling == s.handling
    ensures |path| <= (if s.forwarder.Exited? then 0 else 1) + CloserSteps(s.progress)
    ensures forall a :: a in path ==> !a.Finish? && !a.Take? && !a.Read?
    decreases 7 - Rank(s.progress), if s.forwarder.Exited? then 0 else 1
  {
    if s.progress.Completed? {
      path, t := [], s;
    } else {
      var a := match s.progress
        case Signalled => CloseReader
        case ReaderClosed =>
          (match s.forwarder case Reading => ReadFails case Sending(_) => Abandon case Exited => AwaitForwarder)
        case ClaimsClosed => CloseComplete
        case _ => CloseClaims;
      var rest;
      OrderlyForced(s, a);
      rest, t := ForcedPath(Apply(s, a));
      path := [a] + rest;
      assert path[1..] == rest;
    }
  }

  lemma OrderlyForced(s: State, a: Action)
    requires Orderly(s) && Enabled(s, a) && s.force && Past(s, Signalled)
    requires !a.Take? && !a.Finish? && !a.Forward? && !a.Read?
    ensures Orderly(Apply(s, a))
  {
  }
}
