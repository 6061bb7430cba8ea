/**
 What a stream's Sends and closes achieve over whole runs of two endpoints: which outcome a Send
 has and why, that it can succeed, what was placed at the peer, and that a close carries its cause.
 */
module Sends {
  import opened Wrappers
  import opened Streams

  // ---------- the outcome of a Send ----------

  ghost predicate HasOutcome(e: End, id: Id, outcome: Option<Cause>) {
    id in e.sends && e.sends[id] in {Ending(outcome), Leaving(outcome), Ended(outcome)}
  }

  lemma SendStepOutcome(e: End, a: Action, id: Id)
    requires BySend(a) && Enabled(e, a)
    ensures forall o :: HasOutcome(e, id, o) ==> HasOutcome(SendStep(e, a), id, o)
    ensures forall o :: HasOutcome(SendStep(e, a), id, o) ==>
      HasOutcome(e, id, o) || (IsEnding(a) && a.id == id && o == Verdict(e, a))
    ensures IsEnding(a) && a.id == id ==> HasOutcome(SendStep(e, a), id, Verdict(e, a))
  {
    hide CountPending;
  }

  predicate IsEnding(a: Action) {
    a.SerializeFails? || a.PublishDataFails? || a.SeeAck? || a.SeeDone?
  }

  /** What a Send that ends with this step returns. */
  function Verdict(e: End, a: Action): Option<Cause> {
    match a
    case SerializeFails(_, cause) => Some(cause)
    case PublishDataFails(_, cause) => Some(cause)
    case SeeDone(_) => if e.ctxDone then e.core.err else Some(TIMED_OUT)
    case _ => None
  }

  lemma StepOutcome(e: End, a: Action, id: Id)
    requires Enabled(e, a)
    ensures forall o :: HasOutcome(e, id, o) ==> HasOutcome(Step(e, a), id, o)
    ensures forall o :: HasOutcome(Step(e, a), id, o) ==>
      HasOutcome(e, id, o) || (IsEnding(a) && a.id == id && o == Verdict(e, a))
    ensures IsEnding(a) && a.id == id ==> HasOutcome(Step(e, a), id, Verdict(e, a))
  {
    hide Enabled, SendStep, ReaderStep, CloserStep, Verdict;
    if BySend(a) {
      SendStepOutcome(e, a, id);
    }
  }

  /** Move `k` ends the Send `id` of one endpoint. */
  predicate Ends(moves: seq<Move>, k: nat, atClient: bool, id: Id)
    requires k < |moves|
  {
    moves[k].atClient == atClient && IsEnding(moves[k].action) && moves[k].action.id == id
  }

  lemma MoveOutcome(states: seq<Pair>, moves: seq<Move>, k: nat, atClient: bool, id: Id)
    requires IsRun(states, moves) && k < |moves|
    ensures var e, f := Sender(states[k], atClient), Sender(states[k + 1], atClient);
      && (forall o :: HasOutcome(e, id, o) ==> HasOutcome(f, id, o))
      && (forall o :: HasOutcome(f, id, o) ==>
            HasOutcome(e, id, o) || (Ends(moves, k, atClient, id) && o == Verdict(e, moves[k].action)))
      && (Ends(moves, k, atClient, id) ==> HasOutcome(f, id, Verdict(e, moves[k].action)))
  {
    hide Sender, MoveTo, CanMove, Step, Out, Enabled, Verdict;
    EndOfMove(states[k], moves[k], atClient);
    if moves[k].atClient == atClient {
      StepOutcome(Sender(states[k], atClient), moves[k].action, id);
    }
  }

  /** The outcome a Send ends with is its outcome for good. */
  lemma {:induction false} OutcomeStays(states: seq<Pair>, moves: seq<Move>, k: nat, i: nat, atClient: bool, id: Id)
    requires IsRun(states, moves) && k < i < |states| && Ends(moves, k, atClient, id)
    ensures HasOutcome(Sender(states[i], atClient), id, Verdict(Sender(states[k], atClient), moves[k].action))
  {
    hide Sender, MoveTo, CanMove, HasOutcome, Verdict;
    MoveOutcome(states, moves, i - 1, atClient, id);
    if k + 1 < i {
      OutcomeStays(states, moves, k, i - 1, atClient, id);
    }
  }

  lemma {:induction false} OutcomeHasCause(states: seq<Pair>, moves: seq<Move>, i: nat, atClient: bool, id: Id,
                                           outcome: Option<Cause>) returns (k: nat)
    requires IsRun(states, moves) && i < |states| && HasOutcome(Sender(states[i], atClient), id, outcome)
    ensures k < i && Ends(moves, k, atClient, id) && outcome == Verdict(Sender(states[k], atClient), moves[k].action)
  {
    hide MoveTo, CanMove, Verdict;
    if i > 0 {
      MoveOutcome(states, moves, i - 1, atClient, id);
      if HasOutcome(Sender(states[i - 1], atClient), id, outcome) {
        k := OutcomeHasCause(states, moves, i - 1, atClient, id, outcome);
      } else {
        k := i - 1;
      }
    }
  }

  /** An acknowledged Send has succeeded: after SeeAck its outcome is nil in every later state. */
  lemma AckedSendSucceeds(states: seq<Pair>, moves: seq<Move>, k: nat, i: nat, atClient: bool, id: Id)
    requires IsRun(states, moves) && k < i < |states| && moves[k] == Move(atClient, SeeAck(id))
    ensures HasOutcome(Sender(states[i], atClient), id, None)
  {
    OutcomeStays(states, moves, k, i, atClient, id);
  }

  // ---------- the context ----------

  /** The endpoint's caller has cancelled its context. */
  ghost predicate Cancelled(moves: seq<Move>, i: nat, atClient: bool)
    requires i <= |moves|
  {
    exists k :: 0 <= k < i && moves[k] == Move(atClient, ParentCancels)
  }

  /** Its own close has got as far as cancelling the stream's context. */
  ghost predicate CloseCancelled(moves: seq<Move>, i: nat, atClient: bool)
    requires i <= |moves|
  {
    exists k :: 0 <= k < i && moves[k] == Move(atClient, CancelContext)
  }

  lemma CloserStepContext(e: End, a: Action)
    requires !BySend(a) && !ByReader(a) && Enabled(e, a)
    ensures CloserStep(e, a).parentCancelled == (e.parentCancelled || a.ParentCancels?)
    ensures CloserStep(e, a).ctxDone == (e.ctxDone || a.ParentCancels? || a.CancelContext?)
  {
    hide MarkClosed;
  }

  lemma StepContext(e: End, a: Action)
    requires Enabled(e, a)
    ensures Step(e, a).parentCancelled == (e.parentCancelled || a.ParentCancels?)
    ensures Step(e, a).ctxDone == (e.ctxDone || a.ParentCancels? || a.CancelContext?)
  {
    hide Enabled, SendStep, ReaderStep, CloserStep;
    if !BySend(a) && !ByReader(a) {
      CloserStepContext(e, a);
    }
  }

  lemma {:induction false} ContextIs(states: seq<Pair>, moves: seq<Move>, i: nat, atClient: bool)
    requires IsRun(states, moves) && i < |states|
    ensures Sender(states[i], atClient).parentCancelled <==> Cancelled(moves, i, atClient)
    ensures Sender(states[i], atClient).ctxDone
      <==> Cancelled(moves, i, atClient) || CloseCancelled(moves, i, atClient)
  {
    if i == 0 {
      NothingCancelled(moves, atClient);
    } else {
      hide Sender, Cancelled, CloseCancelled, MoveTo, CanMove, Step, Out, Enabled;
      ContextIs(states, moves, i - 1, atClient);
      EndOfMove(states[i - 1], moves[i - 1], atClient);
      CancelledStep(moves, i - 1, atClient);
      if moves[i - 1].atClient == atClient {
        StepContext(Sender(states[i - 1], atClient), moves[i - 1].action);
      }
    }
  }

  lemma NothingCancelled(moves: seq<Move>, atClient: bool)
    ensures !Cancelled(moves, 0, atClient) && !CloseCancelled(moves, 0, atClient)
    ensures !Sender(Pair(InitEnd(), InitEnd()), atClient).ctxDone
    ensures !Sender(Pair(InitEnd(), InitEnd()), atClient).parentCancelled
  {
  }

  lemma CancelledStep(moves: seq<Move>, i: nat, atClient: bool)
    requires i < |moves|
    ensures Cancelled(moves, i + 1, atClient) <==>
      Cancelled(moves, i, atClient) || (moves[i].atClient == atClient && moves[i].action.ParentCancels?)
    ensures CloseCancelled(moves, i + 1, atClient) <==>
      CloseCancelled(moves, i, atClient) || (moves[i].atClient == atClient && moves[i].action.CancelContext?)
  {
    if moves[i].atClient == atClient && moves[i].action.ParentCancels? {
      assert moves[i] == Move(atClient, ParentCancels);
    }
    if moves[i].atClient == atClient && moves[i].action.CancelContext? {
      assert moves[i] == Move(atClient, CancelContext);
    }
  }

  /** The two ways for a Send to end with nil. */
  ghost predicate NilMove(states: seq<Pair>, moves: seq<Move>, k: nat, atClient: bool, id: Id)
    requires k < |moves| && k < |states|
  {
    || moves[k] == Move(atClient, SeeAck(id))
    || (moves[k] == Move(atClient, SeeDone(id)) && Cancelled(moves, k, atClient)
        && !Sender(states[k], atClient).core.closed)
  }

  lemma NilVerdict(states: seq<Pair>, moves: seq<Move>, k: nat, atClient: bool, id: Id)
    requires IsRun(states, moves) && k < |moves| && Ends(moves, k, atClient, id)
    ensures Verdict(Sender(states[k], atClient), moves[k].action).None? <==> NilMove(states, moves, k, atClient, id)
  {
    EndOfRun(states, moves, k, atClient);
    ContextIs(states, moves, k, atClient);
  }

  /** A Send that has ended has ended with nil exactly when it saw its acknowledgement, or saw its
      context done with its caller's cancellation and no close. */
  lemma NilExactly(states: seq<Pair>, moves: seq<Move>, i: nat, atClient: bool, id: Id, outcome: Option<Cause>)
    requires IsRun(states, moves) && i < |states| && HasOutcome(Sender(states[i], atClient), id, outcome)
    ensures outcome.None? <==> exists k :: 0 <= k < i && NilMove(states, moves, k, atClient, id)
  {
    hide Sender, MoveTo, CanMove, Verdict;
    var k := OutcomeHasCause(states, moves, i, atClient, id, outcome);
    NilVerdict(states, moves, k, atClient, id);
    if j :| 0 <= j < i && NilMove(states, moves, j, atClient, id) {
      NilVerdict(states, moves, j, atClient, id);
      OutcomeStays(states, moves, j, i, atClient, id);
    }
  }

  /** Without an acknowledgement a Send that sees a context done reports its own timeout while the
      stream's context is not cancelled, and the stream's error once its close has cancelled it. */
  lemma DoneReports(states: seq<Pair>, moves: seq<Move>, k: nat, i: nat, atClient: bool, id: Id)
    requires IsRun(states, moves) && k < i < |states| && moves[k] == Move(atClient, SeeDone(id))
    ensures !Cancelled(moves, k, atClient) && !CloseCancelled(moves, k, atClient) ==>
      HasOutcome(Sender(states[i], atClient), id, Some(TIMED_OUT))
    ensures CloseCancelled(moves, k, atClient) ==>
      Sender(states[k], atClient).core.err.Some? && Sender(states[i], atClient).core.err.Some?
      && HasOutcome(Sender(states[i], atClient), id, Sender(states[i], atClient).core.err)
  {
    OutcomeStays(states, moves, k, i, atClient, id);
    ContextIs(states, moves, k, atClient);
    if CloseCancelled(moves, k, atClient) {
      CancelledIsClosed(states, moves, k, atClient);
      ClosingIsFinal(states, moves, k, i, atClient);
    }
  }

  lemma {:induction false} CancelledIsClosed(states: seq<Pair>, moves: seq<Move>, k: nat, atClient: bool)
    requires IsRun(states, moves) && k < |states| && CloseCancelled(moves, k, atClient)
    ensures Sender(states[k], atClient).core.closed
  {
    var j :| 0 <= j < k && moves[j] == Move(atClient, CancelContext);
    hide Sender, MoveTo, CanMove, Step, Out, Deliver, CountInv, AckInv, PublishedInv;
    EndOfRun(states, moves, j, atClient);
    EndOfMove(states[j], moves[j], atClient);
    ClosingIsFinal(states, moves, j, k, atClient);
  }

  // ---------- what is placed at the peer ----------

  /** The messages an endpoint's reader has put into the receive queue, read off its Place moves. */
  function Placements(states: seq<Pair>, moves: seq<Move>, i: nat, atClient: bool): multiset<Id>
    requires i <= |moves| && i <= |states|
  {
    if i == 0 then multiset{}
    else
      var before := Placements(states, moves, i - 1, atClient);
      if moves[i - 1] == Move(atClient, Place) && Sender(states[i - 1], atClient).reader.Handling? then
        before + multiset{Sender(states[i - 1], atClient).reader.id}
      else before
  }

  lemma PlacedByReader(e: End, a: Action)
    requires ByReader(a) && Enabled(e, a)
    ensures ReaderStep(e, a).placed == if a.Place? then e.placed + multiset{e.reader.id} else e.placed
  {
    hide CountPending;
  }

  lemma PlacedByStep(e: End, a: Action)
    requires Enabled(e, a)
    ensures a.Place? ==> e.reader.Handling?
    ensures Step(e, a).placed == if a.Place? then e.placed + multiset{e.reader.id} else e.placed
  {
    hide SendStep, ReaderStep, CloserStep;
    if ByReader(a) {
      PlacedByReader(e, a);
    }
  }

  lemma {:induction false} PlacedIsPlacements(states: seq<Pair>, moves: seq<Move>, i: nat, atClient: bool)
    requires IsRun(states, moves) && i < |states|
    ensures Sender(states[i], atClient).placed == Placements(states, moves, i, atClient)
  {
    if i == 0 {
      assert Sender(states[0], atClient).placed == multiset{};
    } else {
      hide Sender, MoveTo, CanMove, Step, Out, Enabled;
      PlacedIsPlacements(states, moves, i - 1, atClient);
      EndOfMove(states[i - 1], moves[i - 1], atClient);
      if moves[i - 1].atClient == atClient {
        PlacedByStep(Sender(states[i - 1], atClient), moves[i - 1].action);
      }
    }
  }

  ghost predicate WasPublished(moves: seq<Move>, i: nat, atClient: bool, id: Id)
    requires i <= |moves|
  {
    exists k :: 0 <= k < i && moves[k] == Move(atClient, PublishData(id))
  }

  lemma PublishedByStep(e: End, a: Action, id: Id)
    requires Enabled(e, a)
    ensures id in Step(e, a).published <==> id in e.published || a == PublishData(id)
  {
    hide CountPending, ReaderStep, CloserStep;
  }

  lemma {:induction false} PublishedIs(states: seq<Pair>, moves: seq<Move>, i: nat, atClient: bool, id: Id)
    requires IsRun(states, moves) && i < |states|
    ensures id in Sender(states[i], atClient).published <==> WasPublished(moves, i, atClient, id)
  {
    if i == 0 {
      assert Sender(states[0], atClient).published == {};
    } else {
      hide Sender, MoveTo, CanMove, Step, Out, Enabled;
      PublishedIs(states, moves, i - 1, atClient, id);
      EndOfMove(states[i - 1], moves[i - 1], atClient);
      var m := moves[i - 1];
      if m.atClient == atClient {
        PublishedByStep(Sender(states[i - 1], atClient), m.action, id);
      }
      if m == Move(atClient, PublishData(id)) {
        assert WasPublished(moves, i, atClient, id);
      } else if WasPublished(moves, i - 1, atClient, id) {
        var k :| 0 <= k < i - 1 && moves[k] == Move(atClient, PublishData(id));
      }
    }
  }

  /** In every run the reader puts a message into the receive queue at most once, and only a message
      the other endpoint published. */
  lemma PlacedAtMostOnce(states: seq<Pair>, moves: seq<Move>, i: nat, fromClient: bool, id: Id)
    requires IsRun(states, moves) && i < |states|
    ensures Placements(states, moves, i, !fromClient)[id] <= 1
    ensures id in Placements(states, moves, i, !fromClient) ==> WasPublished(moves, i, fromClient, id)
  {
    NeverPlacedTwice(states, moves, i, fromClient, id);
    PlacedIsPlacements(states, moves, i, !fromClient);
    PublishedIs(states, moves, i, fromClient, id);
  }

  /** A Send that ended with nil has had its message put into the peer's receive queue exactly once,
      provided its caller has not cancelled its context. */
  lemma NilMeansPlacedOnce(states: seq<Pair>, moves: seq<Move>, i: nat, fromClient: bool, id: Id)
    requires IsRun(states, moves) && i < |states| && HasOutcome(Sender(states[i], fromClient), id, None)
    requires !Cancelled(moves, i, fromClient)
    ensures Placements(states, moves, i, !fromClient)[id] == 1
  {
    ContextIs(states, moves, i, fromClient);
    PlacedIsPlacements(states, moves, i, !fromClient);
    RunInv(states, moves, i);
    assert Delivery(Sender(states[i], fromClient), Receiver(states[i], fromClient), id);
  }

  // ---------- a Send can succeed ----------

  /** The moves of `path` lead from `s` to `t`. */
  ghost predicate Leads(s: Pair, path: seq<Move>, t: Pair)
    decreases |path|
  {
    if path == [] then s == t else CanMove(s, path[0]) && Leads(MoveTo(s, path[0]), path[1..], t)
  }

  lemma {:induction false} OneMore(s: Pair, path: seq<Move>, t: Pair, m: Move)
    requires Leads(s, path, t) && CanMove(t, m)
    ensures Leads(s, path + [m], MoveTo(t, m))
    decreases |path|
  {
    hide CanMove, MoveTo;
    if path == [] {
      assert [m][1..] == [];
    } else {
      OneMore(MoveTo(s, path[0]), path[1..], t, m);
      assert (path + [m])[1..] == path[1..] + [m];
    }
  }

  /** The pair of `x` at one side and `y` at the other. */
  function Put(atClient: bool, x: End, y: End): Pair {
    if atClient then Pair(x, y) else Pair(y, x)
  }

  lemma MoveHere(path: seq<Move>, s: Pair, atClient: bool, x: End, y: End, a: Action) returns (longer: seq<Move>)
    requires Leads(s, path, Put(atClient, x, y)) && Enabled(x, a)
    ensures longer == path + [Move(atClient, a)]
    ensures Leads(s, longer, Put(atClient, Step(x, a), Deliver(y, Out(x, a))))
  {
    hide Leads, Step, Out, Enabled, Deliver;
    longer := path + [Move(atClient, a)];
    OneMore(s, path, Put(atClient, x, y), Move(atClient, a));
  }

  lemma MoveThere(path: seq<Move>, s: Pair, atClient: bool, x: End, y: End, a: Action) returns (longer: seq<Move>)
    requires Leads(s, path, Put(atClient, x, y)) && Enabled(y, a)
    ensures longer == path + [Move(!atClient, a)]
    ensures Leads(s, longer, Put(atClient, Deliver(x, Out(y, a)), Step(y, a)))
  {
    hide Leads, Step, Out, Enabled, Deliver;
    longer := path + [Move(!atClient, a)];
    OneMore(s, path, Put(atClient, x, y), Move(!atClient, a));
  }

  ghost predicate Idles(e: End) {
    !e.core.closed && e.reader.Idle?
  }

  /** The message of a Send that waits for its acknowledgement is in the peer's mail. */
  ghost predicate Underway(x: End, y: End, id: Id) {
    Idles(x) && Idles(y) && SendAt(x, id, Published) && id in x.core.acks && Data(id) in y.inbox
  }

  lemma PeerTakes(y: End, id: Id) returns (z: End)
    requires Idles(y) && Data(id) in y.inbox
    ensures Enabled(y, TakeData(id)) && z == Step(y, TakeData(id)) && Out(y, TakeData(id)) == multiset{}
    ensures z.reader == Handling(id) && !z.core.closed && z.placed == y.placed
  {
    z := Step(y, TakeData(id));
  }

  lemma PeerPlaces(y: End, id: Id) returns (z: End)
    requires y.reader == Handling(id) && !y.core.closed
    ensures Enabled(y, Place) && z == Step(y, Place) && Out(y, Place) == multiset{}
    ensures z.reader == Placed(id) && !z.core.closed && z.placed == y.placed + multiset{id}
  {
    z := Step(y, Place);
  }

  lemma PeerAcks(y: End, id: Id) returns (z: End)
    requires y.reader == Placed(id) && !y.core.closed
    ensures Enabled(y, PublishAck) && z == Step(y, PublishAck) && Out(y, PublishAck) == multiset{Ack(id)}
    ensures z.reader == Finishing && !z.core.closed && z.placed == y.placed
  {
    z := Step(y, PublishAck);
  }

  lemma PeerReleases(y: End) returns (z: End)
    requires y.reader == Finishing && !y.core.closed
    ensures Enabled(y, Release) && z == Step(y, Release) && Out(y, Release) == multiset{}
    ensures Idles(z) && z.placed == y.placed
  {
    z := Step(y, Release);
  }

  lemma AckIsTaken(x: End, id: Id) returns (z: End)
    requires Idles(x) && SendAt(x, id, Published) && id in x.core.acks && Ack(id) in x.inbox
    ensures Enabled(x, TakeAck(id)) && z == Step(x, TakeAck(id)) && Out(x, TakeAck(id)) == multiset{}
    ensures z.reader == Acking(id) && !z.core.closed && SendAt(z, id, Published)
  {
    z := Step(x, TakeAck(id));
  }

  lemma AckIsClosed(x: End, id: Id) returns (z: End)
    requires x.reader == Acking(id) && !x.core.closed && SendAt(x, id, Published)
    ensures Enabled(x, CloseAck) && z == Step(x, CloseAck) && Out(x, CloseAck) == multiset{}
    ensures Idles(z) && SendAt(z, id, Published) && id in z.ackCloses
  {
    z := Step(x, CloseAck);
  }

  lemma AckIsSeen(x: End, id: Id) returns (z: End)
    requires Idles(x) && SendAt(x, id, Published) && id in x.ackCloses
    ensures Enabled(x, SeeAck(id)) && z == Step(x, SeeAck(id)) && Out(x, SeeAck(id)) == multiset{}
    ensures Idles(z) && SendAt(z, id, Ending(None))
  {
    z := Step(x, SeeAck(id));
  }

  lemma SendLeaves(x: End, id: Id) returns (w: End, z: End)
    requires Idles(x) && SendAt(x, id, Ending(None))
    ensures Enabled(x, Unregister(id)) && w == Step(x, Unregister(id)) && Out(x, Unregister(id)) == multiset{}
    ensures Enabled(w, Uncount(id)) && z == Step(w, Uncount(id)) && Out(w, Uncount(id)) == multiset{}
    ensures Idles(z) && SendAt(z, id, Ended(None))
  {
    w := Step(x, Unregister(id));
    z := Step(w, Uncount(id));
  }

  lemma NothingToDeliver(e: End)
    ensures Deliver(e, multiset{}) == e
  {
    assert e.inbox + multiset{} == e.inbox;
  }

  lemma MailArrives(e: End, m: Msg)
    ensures m in Deliver(e, multiset{m}).inbox
    ensures Deliver(e, multiset{m}) == e.(inbox := e.inbox + multiset{m})
  {
  }

  /** The peer's half: the message is placed and its acknowledgement is in the sender's mail. */
  lemma PeerHandles(s: Pair, path: seq<Move>, atClient: bool, x: End, y: End, id: Id)
    returns (longer: seq<Move>, x': End, y': End)
    requires Leads(s, path, Put(atClient, x, y)) && Underway(x, y, id)
    ensures Leads(s, longer, Put(atClient, x', y')) && x' == Deliver(x, multiset{Ack(id)})
    ensures Idles(y') && y'.placed == y.placed + multiset{id}
  {
    hide Enabled, Step, Out, Leads, Deliver, Idles;
    var taken := PeerTakes(y, id);
    var placed := PeerPlaces(taken, id);
    var acked := PeerAcks(placed, id);
    y' := PeerReleases(acked);
    x' := Deliver(x, multiset{Ack(id)});
    NothingToDeliver(x);
    NothingToDeliver(x');
    longer := MoveThere(path, s, atClient, x, y, TakeData(id));
    longer := MoveThere(longer, s, atClient, x, taken, Place);
    longer := MoveThere(longer, s, atClient, x, placed, PublishAck);
    longer := MoveThere(longer, s, atClient, x', acked, Release);
  }

  /** The sender's half. */
  lemma SenderEnds(s: Pair, path: seq<Move>, atClient: bool, x: End, y: End, id: Id)
    returns (longer: seq<Move>, x': End)
    requires Leads(s, path, Put(atClient, x, y))
    requires Idles(x) && SendAt(x, id, Published) && id in x.core.acks && Ack(id) in x.inbox
    ensures Leads(s, longer, Put(atClient, x', y)) && SendAt(x', id, Ended(None)) && Idles(x')
  {
    hide Enabled, Step, Out, Leads, Deliver, Idles;
    var taken := AckIsTaken(x, id);
    var closed := AckIsClosed(taken, id);
    var seen := AckIsSeen(closed, id);
    var left;
    left, x' := SendLeaves(seen, id);
    NothingToDeliver(y);
    longer := MoveHere(path, s, atClient, x, y, TakeAck(id));
    longer := MoveHere(longer, s, atClient, taken, y, CloseAck);
    longer := MoveHere(longer, s, atClient, closed, y, SeeAck(id));
    longer := MoveHere(longer, s, atClient, seen, y, Unregister(id));
    longer := MoveHere(longer, s, atClient, left, y, Uncount(id));
  }

  lemma WaitingSendEnds(s: Pair, path: seq<Move>, atClient: bool, x: End, y: End, id: Id)
    returns (longer: seq<Move>, x': End, y': End)
    requires Leads(s, path, Put(atClient, x, y)) && Underway(x, y, id)
    ensures Leads(s, longer, Put(atClient, x', y')) && SendAt(x', id, Ended(None))
    ensures Idles(x') && Idles(y') && y'.placed == y.placed + multiset{id}
  {
    hide Leads;
    var acked;
    longer, acked, y' := PeerHandles(s, path, atClient, x, y, id);
    MailArrives(x, Ack(id));
    longer, x' := SenderEnds(s, longer, atClient, acked, y', id);
  }

  // A Send that waits has its ack channel registered, taken by the reader or closed.

  ghost predicate AckLives(e: End, id: Id) {
    SendAt(e, id, Registered) || SendAt(e, id, Published) ==> AckTokens(e, id) >= 1
  }

  lemma SendStepAckLives(e: End, a: Action, id: Id)
    requires BySend(a) && Enabled(e, a) && AckLives(e, id)
    ensures AckLives(SendStep(e, a), id)
  {
  }

  lemma AckingAckLives(e: End, a: Action, id: Id)
    requires (a.TakeAck? || a.CloseAck?) && Enabled(e, a) && AckLives(e, id)
    ensures AckLives(ReaderStep(e, a), id)
  {
  }

  lemma AckLivesFrame(e: End, f: End, id: Id)
    requires AckLives(e, id) && f.sends == e.sends && f.core.acks == e.core.acks && f.ackCloses == e.ackCloses
    requires !e.reader.Acking?
    ensures AckLives(f, id)
  {
  }

  lemma ReaderStepAckLives(e: End, a: Action, id: Id)
    requires ByReader(a) && Enabled(e, a) && AckLives(e, id)
    ensures AckLives(ReaderStep(e, a), id)
  {
    hide AckLives;
    if a.TakeAck? || a.CloseAck? {
      AckingAckLives(e, a, id);
    } else {
      AckLivesFrame(e, ReaderStep(e, a), id);
    }
  }

  lemma CloserStepAckLives(e: End, a: Action, id: Id)
    requires CloseInv(e) && !BySend(a) && !ByReader(a) && Enabled(e, a) && AckLives(e, id)
    ensures AckLives(CloserStep(e, a), id)
  {
  }

  lemma StepAckLives(e: End, a: Action, id: Id)
    requires CloseInv(e) && Enabled(e, a) && AckLives(e, id)
    ensures AckLives(Step(e, a), id)
  {
    hide CloseInv, Enabled, AckLives, SendStep, ReaderStep, CloserStep;
    if BySend(a) {
      SendStepAckLives(e, a, id);
    } else if ByReader(a) {
      ReaderStepAckLives(e, a, id);
    } else {
      CloserStepAckLives(e, a, id);
    }
  }

  lemma {:induction false} RunAckLives(states: seq<Pair>, moves: seq<Move>, i: nat, atClient: bool, id: Id)
    requires IsRun(states, moves) && i < |states|
    ensures AckLives(Sender(states[i], atClient), id)
  {
    hide AckLives, EndInv, Sender, MoveTo, CanMove, Step, Out, Enabled, Deliver;
    if i == 0 {
      FirstAckLives(states[0], atClient, id);
    } else {
      RunAckLives(states, moves, i - 1, atClient, id);
      EndOfRun(states, moves, i - 1, atClient);
      EndOfMove(states[i - 1], moves[i - 1], atClient);
      var e, m := Sender(states[i - 1], atClient), moves[i - 1];
      if m.atClient == atClient {
        EndHasCloseInv(e);
        StepAckLives(e, m.action, id);
      } else {
        EndOfMove(states[i - 1], m, m.atClient);
        MailKeepsAckLives(e, Out(Sender(states[i - 1], m.atClient), m.action), id);
      }
    }
  }

  lemma FirstAckLives(s: Pair, atClient: bool, id: Id)
    requires s == Pair(InitEnd(), InitEnd())
    ensures AckLives(Sender(s, atClient), id)
  {
  }

  lemma MailKeepsAckLives(e: End, msgs: multiset<Msg>, id: Id)
    requires AckLives(e, id)
    ensures AckLives(Deliver(e, msgs), id)
  {
  }

  /** Only a Send that still waits, or is about to leave, has its ack channel registered. */
  ghost predicate AckBelongs(e: End, id: Id) {
    id in e.core.acks ==>
      SendAt(e, id, Registered) || SendAt(e, id, Published) || (id in e.sends && e.sends[id].Ending?)
  }

  lemma SendStepAckBelongs(e: End, a: Action, id: Id)
    requires BySend(a) && Enabled(e, a) && AckBelongs(e, id)
    ensures AckBelongs(SendStep(e, a), id)
  {
  }

  lemma OtherStepAcks(e: End, a: Action)
    requires !BySend(a) && Enabled(e, a)
    ensures Step(e, a).core.acks <= e.core.acks
  {
    hide SendStep;
    if ByReader(a) {
      ReaderStepAcks(e, a);
    } else {
      CloserStepAcks(e, a);
    }
  }

  lemma ReaderStepAcks(e: End, a: Action)
    requires ByReader(a) && Enabled(e, a)
    ensures ReaderStep(e, a).core.acks <= e.core.acks
  {
  }

  lemma CloserStepAcks(e: End, a: Action)
    requires !BySend(a) && !ByReader(a) && Enabled(e, a)
    ensures CloserStep(e, a).core.acks <= e.core.acks
  {
  }

  lemma StepAckBelongs(e: End, a: Action, id: Id)
    requires Enabled(e, a) && AckBelongs(e, id)
    ensures AckBelongs(Step(e, a), id)
  {
    hide Enabled, SendStep, ReaderStep, CloserStep;
    if BySend(a) {
      SendStepAckBelongs(e, a, id);
    } else {
      OtherStepAcks(e, a);
    }
  }

  /** In every run no ack channel stays registered for a Send that has left. */
  lemma {:induction false} NoAckIsLeft(states: seq<Pair>, moves: seq<Move>, i: nat, atClient: bool, id: Id)
    requires IsRun(states, moves) && i < |states|
    ensures AckBelongs(Sender(states[i], atClient), id)
  {
    hide AckBelongs, Sender, MoveTo, CanMove, Step, Out, Enabled, Deliver;
    if i == 0 {
      FirstAckBelongs(states[0], atClient, id);
    } else {
      NoAckIsLeft(states, moves, i - 1, atClient, id);
      EndOfMove(states[i - 1], moves[i - 1], atClient);
      var e, m := Sender(states[i - 1], atClient), moves[i - 1];
      if m.atClient == atClient {
        StepAckBelongs(e, m.action, id);
      } else {
        EndOfMove(states[i - 1], m, m.atClient);
        MailKeepsAckBelongs(e, Out(Sender(states[i - 1], m.atClient), m.action), id);
      }
    }
  }

  lemma FirstAckBelongs(s: Pair, atClient: bool, id: Id)
    requires s == Pair(InitEnd(), InitEnd())
    ensures AckBelongs(Sender(s, atClient), id)
  {
  }

  lemma MailKeepsAckBelongs(e: End, msgs: multiset<Msg>, id: Id)
    requires AckBelongs(e, id)
    ensures AckBelongs(Deliver(e, msgs), id)
  {
  }

  /** From every reachable state in which a Send waits, its message is in the peer's mail, both
      endpoints are open and both readers idle, it can still end with nil, its message placed. */
  lemma WaitingSendCanSucceed(states: seq<Pair>, moves: seq<Move>, i: nat, atClient: bool, id: Id)
    returns (path: seq<Move>, t: Pair)
    requires IsRun(states, moves) && i < |states|
    requires Idles(Sender(states[i], atClient)) && Idles(Receiver(states[i], atClient))
    requires SendAt(Sender(states[i], atClient), id, Published) && Data(id) in Receiver(states[i], atClient).inbox
    ensures Leads(states[i], path, t) && SendAt(Sender(t, atClient), id, Ended(None))
    ensures Receiver(t, atClient).placed == Receiver(states[i], atClient).placed + multiset{id}
  {
    var x, y := Sender(states[i], atClient), Receiver(states[i], atClient);
    RunAckLives(states, moves, i, atClient, id);
    RunInv(states, moves, i);
    assert Delivery(x, y, id);
    assert id in x.core.acks;
    hide Leads;
    assert Leads(states[i], [], Put(atClient, x, y)) by {
      NoMoves(states[i]);
    }
    var x', y';
    path, x', y' := WaitingSendEnds(states[i], [], atClient, x, y, id);
    t := Put(atClient, x', y');
  }

  lemma NoMoves(s: Pair)
    ensures Leads(s, [], s)
  {
  }

  lemma SendStarts(x: End, id: Id) returns (v: End, w: End, z: End)
    requires Idles(x) && id !in x.sends
    ensures Enabled(x, Start(id)) && v == Step(x, Start(id)) && Out(x, Start(id)) == multiset{}
    ensures Enabled(v, Register(id)) && w == Step(v, Register(id)) && Out(v, Register(id)) == multiset{}
    ensures Enabled(w, PublishData(id)) && z == Step(w, PublishData(id))
    ensures Out(w, PublishData(id)) == multiset{Data(id)}
    ensures Idles(z) && SendAt(z, id, Published) && id in z.core.acks
  {
    v := Step(x, Start(id));
    w := Step(v, Register(id));
    z := Step(w, PublishData(id));
  }

  /** From every state, reachable ones included, with both endpoints open and both readers idle, a fresh
      Send can run from its start to a nil end, its message placed once more at the peer. */
  lemma SendCanSucceed(s: Pair, atClient: bool, id: Id) returns (path: seq<Move>, t: Pair)
    requires Idles(Sender(s, atClient)) && Idles(Receiver(s, atClient)) && id !in Sender(s, atClient).sends
    ensures Leads(s, path, t) && SendAt(Sender(t, atClient), id, Ended(None))
    ensures Receiver(t, atClient).placed == Receiver(s, atClient).placed + multiset{id}
  {
    hide Leads, Step, Out, Enabled;
    var x, y := Sender(s, atClient), Receiver(s, atClient);
    NoMoves(s);
    var v, w, z := SendStarts(x, id);
    NothingToDeliver(y);
    path := MoveHere([], s, atClient, x, y, Start(id));
    path := MoveHere(path, s, atClient, v, y, Register(id));
    path := MoveHere(path, s, atClient, w, y, PublishData(id));
    MailArrives(y, Data(id));
    var x', y';
    path, x', y' := WaitingSendEnds(s, path, atClient, z, Deliver(y, multiset{Data(id)}), id);
    t := Put(atClient, x', y');
  }

  // ---------- a close carries its cause ----------

  /** A Close message carries the error of its sender; an endpoint closed by it has that error. */
  ghost predicate CausesAgree(x: End, y: End) {
    && (forall c :: Close(c) in y.inbox ==> x.core.closed && x.core.err == Some(c))
    && (y.remote ==> x.core.closed && y.core.closed && y.core.err == x.core.err)
  }

  lemma OutIsOwnCause(x: End, a: Action, c: Cause)
    requires CloseInv(x) && Enabled(x, a) && Close(c) in Out(x, a)
    ensures x.core.closed && x.core.err == Some(c)
  {
  }

  lemma SenderKeepsCauses(x: End, y: End, a: Action)
    requires EndInv(x) && Enabled(x, a) && CausesAgree(x, y)
    ensures CausesAgree(Step(x, a), Deliver(y, Out(x, a)))
  {
    hide EndInv, Enabled, Step, Out;
    assert CloseInv(x) by {
      EndHasCloseInv(x);
    }
    forall c | Close(c) in Out(x, a) ensures x.core.closed && x.core.err == Some(c) {
      OutIsOwnCause(x, a, c);
    }
    if x.core.closed {
      StepKeepsClosed(x, a);
    }
  }

  lemma EndHasCloseInv(x: End)
    requires EndInv(x)
    ensures CloseInv(x)
  {
  }

  lemma CloserTakesCause(x: End, y: End, a: Action)
    requires CloseInv(y) && !BySend(a) && !ByReader(a) && Enabled(y, a) && CausesAgree(x, y)
    ensures CausesAgree(x, CloserStep(y, a))
  {
  }

  lemma OtherTakesNoCause(x: End, y: End, a: Action)
    requires EndInv(y) && (BySend(a) || ByReader(a)) && Enabled(y, a) && CausesAgree(x, y)
    ensures CausesAgree(x, Step(y, a))
  {
    hide EndInv, Enabled, SendStep, ReaderStep;
    if y.core.closed {
      StepKeepsClosed(y, a);
    }
  }

  lemma ReceiverKeepsCauses(x: End, y: End, a: Action)
    requires EndInv(y) && Enabled(y, a) && CausesAgree(x, y)
    ensures CausesAgree(Deliver(x, Out(y, a)), Step(y, a))
  {
    hide EndInv, CloseInv, Enabled, SendStep, ReaderStep, CloserStep, Out;
    if BySend(a) || ByReader(a) {
      OtherTakesNoCause(x, y, a);
    } else {
      EndHasCloseInv(y);
      CloserTakesCause(x, y, a);
    }
  }

  /** In every run an endpoint that was closed by its peer has its peer's error, and the peer is closed. */
  lemma {:induction false} RemoteCloseHasCause(states: seq<Pair>, moves: seq<Move>, i: nat, fromClient: bool)
    requires IsRun(states, moves) && i < |states|
    ensures CausesAgree(Sender(states[i], fromClient), Receiver(states[i], fromClient))
  {
    if i > 0 {
      hide CausesAgree, EndInv, Step, Out, Enabled, Deliver;
      RemoteCloseHasCause(states, moves, i - 1, fromClient);
      EndOfRun(states, moves, i - 1, true);
      EndOfRun(states, moves, i - 1, false);
      var x, y, m := Sender(states[i - 1], fromClient), Receiver(states[i - 1], fromClient), moves[i - 1];
      if m.atClient == fromClient {
        SenderKeepsCauses(x, y, m.action);
      } else {
        ReceiverKeepsCauses(x, y, m.action);
      }
    }
  }

  lemma LocalCloseGoesOut(x: End, cause: Cause) returns (w: End, z: End)
    requires CloseInv(x) && !x.core.closed
    ensures Enabled(x, LocalClose(cause)) && w == Step(x, LocalClose(cause)) && Out(x, LocalClose(cause)) == multiset{}
    ensures Enabled(w, SendClose(true)) && z == Step(w, SendClose(true))
    ensures Out(w, SendClose(true)) == multiset{Close(cause)} && z.core.err == Some(cause)
  {
    w := Step(x, LocalClose(cause));
    z := Step(w, SendClose(true));
  }

  lemma CloseIsTaken(y: End, cause: Cause) returns (z: End)
    requires Idles(y) && Close(cause) in y.inbox
    ensures Enabled(y, TakeClose(cause)) && z == Step(y, TakeClose(cause)) && Out(y, TakeClose(cause)) == multiset{}
    ensures z.core.closed && z.core.err == Some(cause) && z.remote && z.reader == RemoteClosing
  {
    z := Step(y, TakeClose(cause));
  }

  /** From every reachable state a close of one open endpoint can reach the other, open one with an
      idle reader: both then have the cause given to the close. */
  lemma CloseCanArrive(states: seq<Pair>, moves: seq<Move>, i: nat, atClient: bool, cause: Cause)
    returns (path: seq<Move>, t: Pair)
    requires IsRun(states, moves) && i < |states|
    requires !Sender(states[i], atClient).core.closed && Idles(Receiver(states[i], atClient))
    ensures path
         == [Move(atClient, LocalClose(cause)), Move(atClient, SendClose(true)), Move(!atClient, TakeClose(cause))]
    ensures Leads(states[i], path, t)
    ensures Sender(t, atClient).core.err == Receiver(t, atClient).core.err == Some(cause)
  {
    var s, x, y := states[i], Sender(states[i], atClient), Receiver(states[i], atClient);
    EndOfRun(states, moves, i, atClient);
    hide Leads, Step, Out, Enabled;
    var w, z := LocalCloseGoesOut(x, cause);
    NothingToDeliver(y);
    MailArrives(y, Close(cause));
    var mailed := Deliver(y, multiset{Close(cause)});
    var u := CloseIsTaken(mailed, cause);
    NothingToDeliver(z);
    NoMoves(s);
    path := MoveHere([], s, atClient, x, y, LocalClose(cause));
    path := MoveHere(path, s, atClient, w, y, SendClose(true));
    path := MoveThere(path, s, atClient, z, mailed, TakeClose(cause));
    t := Put(atClient, z, u);
  }
}
