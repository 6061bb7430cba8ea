/**
 The two work queues of the Redis bus (pkg/bus/redisbus/redisbus.go): the write queue,
 whose worker drains it, and the publish queues, whose workers take everything at once.
 A wake-up channel of capacity one holds a token or nothing.
 */
module WakeQueues {
  // ---------- the write queue ----------

  type Op = nat

  datatype Worker = Parked | Awake | Busy(op: Op)

  /** `signalling` counts pushers that have pushed and not signalled yet.
      `pushed` and `ran` are history. */
  datatype Ops = Ops(ops: seq<Op>, token: bool, worker: Worker, signalling: nat, pushed: seq<Op>, ran: seq<Op>)

  datatype OpStep = Push(op: Op) | Signal | Wake | Pop | FinishOp | Park

  predicate OpEnabled(s: Ops, a: OpStep) {
    match a
    case Push(_) => true
    case Signal => s.signalling > 0
    case Wake => s.worker.Parked? && s.token
    case Pop => s.worker.Awake? && s.ops != []
    case FinishOp => s.worker.Busy?
    case Park => s.worker.Awake? && s.ops == []
  }

  function OpApply(s: Ops, a: OpStep): Ops
    requires OpEnabled(s, a)
  {
    match a
    case Push(op) => s.(ops := s.ops + [op], signalling := s.signalling + 1, pushed := s.pushed + [op])
    case Signal => s.(signalling := s.signalling - 1, token := true)
    case Wake => s.(worker := Awake, token := false)
    case Pop => s.(worker := Busy(s.ops[0]), ops := s.ops[1..])
    case FinishOp => s.(worker := Awake, ran := s.ran + [s.worker.op])
    case Park => s.(worker := Parked)
  }

  function InHand(w: Worker): seq<Op> {
    if w.Busy? then [w.op] else []
  }

  /** Pending work is never forgotten, and work is done in the order it was pushed. */
  ghost predicate OpInv(s: Ops) {
    && (s.ops != [] ==> s.token || !s.worker.Parked? || s.signalling > 0)
    && s.ran + (InHand(s.worker) + s.ops) == s.pushed
  }

  lemma OpStepKeepsInv(s: Ops, a: OpStep)
    requires OpInv(s) && OpEnabled(s, a)
    ensures OpInv(OpApply(s, a))
  {
    match a
    case Push(op) => assert s.ran + (InHand(s.worker) + (s.ops + [op])) == s.pushed + [op];
    case Pop => assert [] + s.ops == s.ops == [s.ops[0]] + s.ops[1..];
    case FinishOp => assert (s.ran + [s.worker.op]) + ([] + s.ops) == s.ran + ([s.worker.op] + s.ops);
    case _ =>
  }

  ghost predicate IsOpRun(states: seq<Ops>, steps: seq<OpStep>) {
    && |states| == |steps| + 1 && states[0] == Ops([], false, Parked, 0, [], [])
    && forall i :: 0 <= i < |steps| ==> OpEnabled(states[i], steps[i]) && states[i + 1] == OpApply(states[i], steps[i])
  }

  lemma {:induction false} OpRunInv(states: seq<Ops>, steps: seq<OpStep>, i: nat)
    requires IsOpRun(states, steps) && i < |states|
    ensures OpInv(states[i])
  {
    if i == 0 {
      assert OpInv(states[0]);
    } else {
      OpRunInv(states, steps, i - 1);
      OpStepKeepsInv(states[i - 1], steps[i - 1]);
    }
  }

  /** No wake-up is lost: while work is pending, someone other than a new pusher can move. */
  lemma PendingOpsGetRun(states: seq<Ops>, steps: seq<OpStep>, i: nat) returns (a: OpStep)
    requires IsOpRun(states, steps) && i < |states| && states[i].ops != []
    ensures OpEnabled(states[i], a) && !a.Push? && !a.Park?
  {
    OpRunInv(states, steps, i);
    var s := states[i];
    a := if s.worker.Awake? then Pop
         else if s.worker.Busy? then FinishOp
         else if s.token then Wake
         else Signal;
  }

  /** The operations pushed in the first `i` steps. */
  function Pushes(steps: seq<OpStep>, i: nat): seq<Op>
    requires i <= |steps|
  {
    if i == 0 then []
    else if steps[i - 1].Push? then Pushes(steps, i - 1) + [steps[i - 1].op]
    else Pushes(steps, i - 1)
  }

  /** The operations the worker was busy with when it finished one. */
  function Finishes(states: seq<Ops>, steps: seq<OpStep>, i: nat): seq<Op>
    requires i <= |steps| && i <= |states|
  {
    if i == 0 then []
    else if steps[i - 1].FinishOp? then Finishes(states, steps, i - 1) + InHand(states[i - 1].worker)
    else Finishes(states, steps, i - 1)
  }

  lemma {:induction false} OpRecordsAreRight(states: seq<Ops>, steps: seq<OpStep>, i: nat)
    requires IsOpRun(states, steps) && i < |states|
    ensures states[i].pushed == Pushes(steps, i) && states[i].ran == Finishes(states, steps, i)
  {
    if i > 0 {
      OpRecordsAreRight(states, steps, i - 1);
    }
  }

  /** In every run the operations run in the order in which they were pushed, none left out in between. */
  lemma OpsRunInOrder(states: seq<Ops>, steps: seq<OpStep>, i: nat)
    requires IsOpRun(states, steps) && i < |states|
    ensures Finishes(states, steps, i) + (InHand(states[i].worker) + states[i].ops) == Pushes(steps, i)
  {
    OpRunInv(states, steps, i);
    OpRecordsAreRight(states, steps, i);
  }

  /** At rest, everything pushed has run, in order. */
  lemma RestMeansDone(states: seq<Ops>, steps: seq<OpStep>, i: nat)
    requires IsOpRun(states, steps) && i < |states|
    requires forall a: OpStep :: OpEnabled(states[i], a) ==> a.Push?
    ensures Finishes(states, steps, i) == Pushes(steps, i)
  {
    OpsRunInOrder(states, steps, i);
    var s := states[i];
    assert !OpEnabled(s, Signal) && !OpEnabled(s, Wake) && !OpEnabled(s, Pop);
    assert !OpEnabled(s, FinishOp) && !OpEnabled(s, Park);
    assert Finishes(states, steps, i) + ([] + []) == Finishes(states, steps, i);
  }

  class WriteOpQueue {
    var ops: seq<Op>
    /** The operations drain has run. */
    var ran: seq<Op>

    constructor ()
      ensures ops == [] && ran == []
    {
      ops, ran := [], [];
    }

    method PushBack(op: Op)
      modifies this
      ensures ops == old(ops) + [op] && ran == old(ran)
    {
      ops := ops + [op];
    }

    /** drain, with what others push while the lock is released around each operation. */
    method Drain(others: seq<seq<Op>>)
      modifies this
      ensures ops == [] && exists n :: 0 <= n <= |others| && ran == old(ran) + (old(ops) + Flatten(others[..n]))
    {
      ghost var start, queued := ran, ops;
      var k := 0;
      assert start + (queued + Flatten(others[..0])) == start + queued;
      while |ops| > 0
        invariant 0 <= k <= |others|
        invariant ran + ops == start + (queued + Flatten(others[..k]))
        decreases |others| - k, |ops|
      {
        ghost var before := ran + ops;
        var op := ops[0];
        ops := ops[1..];
        ran := ran + [op];
        assert ran + ops == before;
        if k < |others| {
          FlattenSnoc(others, k);
          assert ran + (ops + others[k]) == before + others[k];
          assert start + (queued + (Flatten(others[..k]) + others[k])) == before + others[k];
          ghost var kept, ran' := ops, ran;
          for j := 0 to |others[k]|
            invariant ops == kept + others[k][..j] && ran == ran'
          {
            assert others[k][..j + 1] == others[k][..j] + [others[k][j]];
            PushBack(others[k][j]);
          }
          assert others[k][..|others[k]|] == others[k];
          k := k + 1;
        }
      }
      assert ran + [] == ran;
    }
  }

  function Flatten(lists: seq<seq<Op>>): seq<Op> {
    if lists == [] then [] else Flatten(lists[..|lists| - 1]) + lists[|lists| - 1]
  }

  lemma FlattenSnoc(lists: seq<seq<Op>>, k: nat)
    requires k < |lists|
    ensures Flatten(lists[..k + 1]) == Flatten(lists[..k]) + lists[k]
  {
    assert lists[..k + 1][..k] == lists[..k];
  }

  // ---------- the publish queues ----------

  const BUCKETS := 17

  type Channel = string

  datatype Message = Message(channel: Channel, payload: string)

  /** A publish worker takes its token, takes all messages, and sends them in one pipeline. */
  datatype Publisher = Idle | Woken | Sending

  /** `handed` is everything given to the pipeline so far. */
  datatype Bucket = Bucket(messages: seq<Message>, token: bool, worker: Publisher, handed: seq<Message>)

  datatype BucketStep = Enqueue(m: Message) | TakeToken | TakeAll | Exec

  predicate BucketEnabled(b: Bucket, a: BucketStep) {
    match a
    case Enqueue(_) => true
    case TakeToken => b.worker.Idle? && b.token
    case TakeAll => b.worker.Woken?
    case Exec => b.worker.Sending?
  }

  function BucketApply(b: Bucket, a: BucketStep): Bucket
    requires BucketEnabled(b, a)
  {
    match a
    case Enqueue(m) => b.(messages := b.messages + [m], token := true)
    case TakeToken => b.(worker := Woken, token := false)
    case TakeAll => b.(worker := Sending, handed := b.handed + b.messages, messages := [])
    case Exec => b.(worker := Idle)
  }

  class PublishQueue {
    var messages: seq<Message>
    var wakeup: bool
    ghost var worker: Publisher
    ghost var handed: seq<Message>

    ghost function View(): Bucket
      reads this
    {
      Bucket(messages, wakeup, worker, handed)
    }

    constructor ()
      ensures View() == Bucket([], false, Idle, [])
    {
      messages, wakeup, worker, handed := [], false, Idle, [];
    }

    /** Enqueue: one critical section, signal included. */
    method Enqueue(channel: Channel, payload: string)
      modifies this
      ensures View() == BucketApply(old(View()), BucketStep.Enqueue(Message(channel, payload)))
    {
      messages := messages + [Message(channel, payload)];
      if !wakeup {
        wakeup := true;
      }
    }

    /** One turn of the worker that found a token; others enqueue `late` before it has the lock. */
    method WorkerTurn(late: seq<Message>) returns (batch: seq<Message>)
      requires wakeup && worker.Idle?
      modifies this
      ensures batch == old(messages) + late && messages == [] && handed == old(handed) + batch
      ensures worker.Idle? && (wakeup <==> late != [])
    {
      wakeup, worker := false, Woken;
      ghost var before := messages;
      for k := 0 to |late|
        invariant messages == before + late[..k] && worker.Woken? && handed == old(handed)
        invariant wakeup <==> k > 0
      {
        assert late[..k + 1] == late[..k] + [late[k]];
        Enqueue(late[k].channel, late[k].payload);
      }
      assert late[..|late|] == late;
      batch := messages;
      messages := [];
      handed, worker := handed + batch, Sending;
      worker := Idle;
    }
  }

  /** The bus: the hash spreads channels over the buckets; `log` is what was published, in order. */
  datatype Bus = Bus(hash: Channel -> nat, buckets: map<nat, Bucket>, log: seq<Message>)

  datatype BusStep = Publish(m: Message) | Work(bucket: nat, step: BucketStep)

  function BucketOf(s: Bus, c: Channel): nat {
    s.hash(c) % BUCKETS
  }

  predicate BusEnabled(s: Bus, a: BusStep) {
    match a
    case Publish(m) => BucketOf(s, m.channel) in s.buckets
    case Work(bucket, step) => bucket in s.buckets && !step.Enqueue? && BucketEnabled(s.buckets[bucket], step)
  }

  function BusApply(s: Bus, a: BusStep): Bus
    requires BusEnabled(s, a)
  {
    match a
    case Publish(m) =>
      var k := BucketOf(s, m.channel);
      s.(buckets := s.buckets[k := BucketApply(s.buckets[k], Enqueue(m))], log := s.log + [m])
    case Work(bucket, step) => s.(buckets := s.buckets[bucket := BucketApply(s.buckets[bucket], step)])
  }

  function OnChannel(messages: seq<Message>, c: Channel): seq<Message> {
    if messages == [] then []
    else
      var last := |messages| - 1;
      if messages[last].channel == c then OnChannel(messages[..last], c) + [messages[last]]
      else OnChannel(messages[..last], c)
  }

  lemma {:induction false} OnChannelConcat(a: seq<Message>, b: seq<Message>, c: Channel)
    ensures OnChannel(a + b, c) == OnChannel(a, c) + OnChannel(b, c)
  {
    if b == [] {
      assert a + b == a;
    } else {
      var last := |b| - 1;
      OnChannelConcat(a, b[..last], c);
      assert (a + b)[..|a| + last] == a + b[..last];
    }
  }

  ghost predicate BucketInv(s: Bus, k: nat) {
    k in s.buckets ==>
      var b := s.buckets[k];
      && (b.messages != [] ==> b.token || b.worker.Woken?)
      && (forall c :: BucketOf(s, c) == k ==> OnChannel(b.handed + b.messages, c) == OnChannel(s.log, c))
  }

  ghost predicate BusInv(s: Bus) {
    forall k :: BucketInv(s, k)
  }

  lemma PublishKeepsInv(s: Bus, m: Message)
    requires BusInv(s) && BusEnabled(s, Publish(m))
    ensures BusInv(BusApply(s, Publish(m)))
  {
    var t := BusApply(s, Publish(m));
    var home := BucketOf(s, m.channel);
    forall k ensures BucketInv(t, k) {
      assert BucketInv(s, k);
      if k in s.buckets {
        forall c | BucketOf(t, c) == k
          ensures OnChannel(t.buckets[k].handed + t.buckets[k].messages, c) == OnChannel(t.log, c)
        {
          var b := s.buckets[k];
          OnChannelConcat(s.log, [m], c);
          OnChannelConcat(b.handed + b.messages, [m], c);
          assert b.handed + (b.messages + [m]) == (b.handed + b.messages) + [m];
          assert c != m.channel ==> OnChannel([m], c) == [];
        }
      }
    }
  }

  lemma WorkKeepsInv(s: Bus, bucket: nat, step: BucketStep)
    requires BusInv(s) && BusEnabled(s, Work(bucket, step))
    ensures BusInv(BusApply(s, Work(bucket, step)))
  {
    var t := BusApply(s, Work(bucket, step));
    var b := s.buckets[bucket];
    assert (b.handed + b.messages) + [] == b.handed + b.messages;
    forall k ensures BucketInv(t, k) {
      assert BucketInv(s, k);
    }
  }

  ghost predicate IsBusRun(states: seq<Bus>, steps: seq<BusStep>) {
    && |states| == |steps| + 1 && states[0].log == []
    && (forall k: nat :: k in states[0].buckets <==> k < BUCKETS)
    && (forall k: nat :: k in states[0].buckets ==> states[0].buckets[k] == Bucket([], false, Idle, []))
    && forall i :: 0 <= i < |steps| ==>
         BusEnabled(states[i], steps[i]) && states[i + 1] == BusApply(states[i], steps[i])
  }

  lemma {:induction false} BusRunInv(states: seq<Bus>, steps: seq<BusStep>, i: nat)
    requires IsBusRun(states, steps) && i < |states|
    ensures BusInv(states[i]) && forall k: nat :: k in states[i].buckets <==> k < BUCKETS
  {
    if i == 0 {
      forall k ensures BucketInv(states[0], k) {
      }
    } else {
      BusRunInv(states, steps, i - 1);
      match steps[i - 1]
      case Publish(m) => PublishKeepsInv(states[i - 1], m);
      case Work(bucket, step) => WorkKeepsInv(states[i - 1], bucket, step);
    }
  }

  /** The messages published in the first `i` steps. */
  function Publications(steps: seq<BusStep>, i: nat): seq<Message>
    requires i <= |steps|
  {
    if i == 0 then []
    else if steps[i - 1].Publish? then Publications(steps, i - 1) + [steps[i - 1].m]
    else Publications(steps, i - 1)
  }

  /** The messages a bucket's worker found when it took them. */
  function Taken(states: seq<Bus>, steps: seq<BusStep>, i: nat, k: nat): seq<Message>
    requires i <= |steps| && i <= |states|
  {
    if i == 0 then []
    else if steps[i - 1] == Work(k, TakeAll) && k in states[i - 1].buckets then
      Taken(states, steps, i - 1, k) + states[i - 1].buckets[k].messages
    else Taken(states, steps, i - 1, k)
  }

  lemma {:induction false} BusRecordsAreRight(states: seq<Bus>, steps: seq<BusStep>, i: nat, k: nat)
    requires IsBusRun(states, steps) && i < |states| && k < BUCKETS
    ensures k in states[i].buckets
    ensures states[i].log == Publications(steps, i) && states[i].buckets[k].handed == Taken(states, steps, i, k)
  {
    if i > 0 {
      BusRecordsAreRight(states, steps, i - 1, k);
    }
  }

  /** Per channel, what its bucket's worker took and what is still queued is what was published on it,
      in the order in which it was published. */
  lemma ChannelOrderIsKept(states: seq<Bus>, steps: seq<BusStep>, i: nat, c: Channel)
    requires IsBusRun(states, steps) && i < |states|
    ensures BucketOf(states[i], c) in states[i].buckets
    ensures var k := BucketOf(states[i], c);
      OnChannel(Taken(states, steps, i, k), c) + OnChannel(states[i].buckets[k].messages, c)
      == OnChannel(Publications(steps, i), c)
  {
    BusRunInv(states, steps, i);
    var k := BucketOf(states[i], c);
    BusRecordsAreRight(states, steps, i, k);
    assert BucketInv(states[i], k);
    OnChannelConcat(states[i].buckets[k].handed, states[i].buckets[k].messages, c);
  }

  /** A channel keeps its bucket. */
  lemma {:induction false} SameBucket(states: seq<Bus>, steps: seq<BusStep>, i: nat, c: Channel)
    requires IsBusRun(states, steps) && i < |states|
    ensures BucketOf(states[i], c) == BucketOf(states[0], c)
  {
    if i > 0 {
      SameBucket(states, steps, i - 1, c);
    }
  }

  /** No publication is forgotten: a bucket with messages has a worker that can move. */
  lemma PendingMessagesGetSent(states: seq<Bus>, steps: seq<BusStep>, i: nat, k: nat) returns (a: BusStep)
    requires IsBusRun(states, steps) && i < |states| && k < BUCKETS
    requires k in states[i].buckets && states[i].buckets[k].messages != []
    ensures a.Work? && a.bucket == k && BusEnabled(states[i], a)
  {
    BusRunInv(states, steps, i);
    assert BucketInv(states[i], k);
    var b := states[i].buckets[k];
    a := Work(k, if b.worker.Woken? then TakeAll else if b.worker.Sending? then Exec else TakeToken);
  }
}
