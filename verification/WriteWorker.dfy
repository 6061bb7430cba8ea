/**
 The Redis bus's subscriptions from end to end (pkg/bus/redisbus/redisbus.go): the table of
 module Reconcile, the write queue that holds reconcile operations, the wake-up channel and
 the worker that drains the queue. Pushing an operation and signalling are separate steps.
 */
module WriteWorker {
  import opened Reconcile

  datatype Worker = Parked | Draining | Reconciling

  /** `ops` counts the queued reconcile operations, `signalling` those pushed but not signalled. */
  datatype State = State(table: Table, ops: nat, signalling: nat, token: bool, worker: Worker)

  datatype Action =
    | Request(step: Step)
    | Signal
    | Wake
    | Pop
    | Ask
    | Hear(subscribeFailed: bool, unsubscribeFailed: bool)
    | Return
    | Park

  /** Whether a subscriber's step calls reconcileSubscriptions. */
  predicate Marks(t: Table, s: Step) {
    match s
    case Subscribe(c, queue, _) => c !in ListsOf(t, queue)
    case Unsubscribe(c, queue, id) => Listed(t, c, queue) == [id]
    case _ => false
  }

  predicate Enabled(s: State, a: Action) {
    match a
    case Request(step) => FromSubscribers([step])
    case Signal => s.signalling > 0
    case Wake => s.worker.Parked? && s.token
    case Pop => s.worker.Draining? && s.ops > 0
    case Ask => s.worker.Reconciling? && s.table.batch.None? && s.table.dirty != {}
    case Hear(_, _) => s.worker.Reconciling? && s.table.batch.Some?
    case Return => s.worker.Reconciling? && s.table.batch.None? && s.table.dirty == {}
    case Park => s.worker.Draining? && s.ops == 0
  }

  function Apply(s: State, a: Action): State
    requires Enabled(s, a)
  {
    match a
    case Request(step) =>
      assert step in [step];
      var pushed := if Marks(s.table, step) then 1 else 0;
      s.(table := Reconcile.Apply(s.table, step), ops := s.ops + pushed, signalling := s.signalling + pushed)
    case Signal => s.(signalling := s.signalling - 1, token := true)
    case Wake => s.(worker := Draining, token := false)
    case Pop => s.(worker := Reconciling, ops := s.ops - 1)
    case Ask => s.(table := Reconcile.Apply(s.table, TakeBatch))
    case Hear(subscribeFailed, unsubscribeFailed) =>
      s.(table := Reconcile.Apply(s.table, FinishBatch(subscribeFailed, unsubscribeFailed)))
    case Return => s.(worker := Draining)
    case Park => s.(worker := Parked)
  }

  /** Something dirty has an operation queued or the worker on it, and queued operations have
      a token, an active worker or a pusher about to signal. */
  ghost predicate Cared(s: State) {
    && (s.table.batch.Some? ==> s.worker.Reconciling?)
    && (s.table.dirty != {} ==> s.ops > 0 || s.worker.Reconciling?)
    && (s.ops > 0 ==> s.token || !s.worker.Parked? || s.signalling > 0)
  }

  lemma OnlyMarksDirty(t: Table, s: Step)
    requires FromSubscribers([s]) && (Marks(t, s) || Reconcile.Inv(t))
    ensures s.Subscribe? || s.Unsubscribe?
    ensures !Marks(t, s) ==> Reconcile.Apply(t, s).dirty == t.dirty
    ensures Reconcile.Apply(t, s).batch == t.batch
  {
    assert s in [s];
    if s.Unsubscribe? && !Marks(t, s) {
      assert ChannelInv(t, s.channel);
      var list, id := Listed(t, s.channel, s.queue), s.id;
      if id in list {
        var i := Index(list, id);
        assert |list[..i] + list[i + 1..]| == |list| - 1;
        assert list == [list[0]] || |list| > 1;
      }
    }
  }

  lemma StepIsCaredFor(s: State, a: Action)
    requires Reconcile.Inv(s.table) && Cared(s) && Enabled(s, a)
    ensures Reconcile.Inv(Apply(s, a).table) && Cared(Apply(s, a))
  {
    hide Reconcile.Inv, Marks;
    match a
    case Request(step) =>
      OnlyMarksDirty(s.table, step);
      StepKeepsInv(s.table, step);
    case Ask => StepKeepsInv(s.table, TakeBatch);
    case Hear(f, g) => StepKeepsInv(s.table, FinishBatch(f, g));
    case _ =>
  }

  ghost predicate IsRun(states: seq<State>, actions: seq<Action>) {
    && |states| == |actions| + 1 && states[0] == State(EMPTY, 0, 0, false, Parked)
    && forall i :: 0 <= i < |actions| ==>
         Enabled(states[i], actions[i]) && states[i + 1] == Apply(states[i], actions[i])
  }

  lemma {:induction false} RunInv(states: seq<State>, actions: seq<Action>, i: nat)
    requires IsRun(states, actions) && i < |states|
    ensures Reconcile.Inv(states[i].table) && Cared(states[i])
  {
    hide Cared, Apply, Enabled;
    if i == 0 {
      StartIsCaredFor(states[0]);
    } else {
      RunInv(states, actions, i - 1);
      StepIsCaredFor(states[i - 1], actions[i - 1]);
    }
  }

  lemma StartIsCaredFor(s: State)
    requires s == State(EMPTY, 0, 0, false, Parked)
    ensures Reconcile.Inv(s.table) && Cared(s)
  {
    forall c ensures ChannelInv(s.table, c) {}
  }

  /** However subscribers, the worker and broker failures interleave: when only subscribers can
      move, the broker is subscribed to exactly the channels that have subscribers. */
  lemma RestMeansSubscribed(states: seq<State>, actions: seq<Action>, i: nat, c: Channel)
    requires IsRun(states, actions) && i < |states|
    requires forall a :: Enabled(states[i], a) ==> a.Request?
    ensures c in states[i].table.current <==> Desired(states[i].table, c)
  {
    RunInv(states, actions, i);
    var s := states[i];
    assert !Enabled(s, Signal) && !Enabled(s, Wake) && !Enabled(s, Pop) && !Enabled(s, Ask);
    assert !Enabled(s, Hear(false, false)) && !Enabled(s, Return) && !Enabled(s, Park);
    assert ChannelInv(s.table, c);
  }

  function WorkerSteps(s: State): nat {
    match s.worker
    case Parked => 0
    case Draining => 1
    case Reconciling =>
      (if s.table.batch.Some? then 1 else 0) + (if s.table.dirty != {} then 2 else 0) + 2
  }

  function StepsLeft(s: State): nat {
    6 * s.ops + 3 * s.signalling + (if s.token then 2 else 0) + WorkerSteps(s)
  }

  /** And rest comes: with a broker that answers, every step but a subscriber's brings it closer. */
  lemma RestComesCloser(s: State, a: Action)
    requires Enabled(s, a) && !a.Request? && a != Hear(true, true) && a != Hear(true, false) && a != Hear(false, true)
    ensures StepsLeft(Apply(s, a)) < StepsLeft(s)
  {
  }
}
