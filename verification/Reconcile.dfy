/**
 Subscription reconciliation (pkg/bus/redisbus/redisbus.go). Subscribers come and go under
 the transport's lock; one worker brings the broker in line, with the lock released while
 it talks to the broker, which may fail. Each critical section is one step.
 */
module Reconcile {
  import opened Wrappers

  type Channel = string
  type SubId = nat
  type Lists = map<Channel, seq<SubId>>

  /** The channels the worker has asked the broker about and not heard back on. */
  datatype Batch = Batch(subscribe: set<Channel>, unsubscribe: set<Channel>)

  datatype Table = Table(subs: Lists, queues: Lists, dirty: set<Channel>, current: set<Channel>, batch: Option<Batch>)

  datatype Step =
    | Subscribe(channel: Channel, queue: bool, id: SubId)
    | Unsubscribe(channel: Channel, queue: bool, id: SubId)
    | TakeBatch
    | FinishBatch(subscribeFailed: bool, unsubscribeFailed: bool)

  predicate Desired(t: Table, c: Channel) {
    c in t.subs || c in t.queues
  }

  function ListsOf(t: Table, queue: bool): Lists {
    if queue then t.queues else t.subs
  }

  function WithLists(t: Table, queue: bool, lists: Lists): Table {
    if queue then t.(queues := lists) else t.(subs := lists)
  }

  function Index(list: seq<SubId>, id: SubId): (i: nat)
    ensures i <= |list| && (i < |list| ==> list[i] == id) && (i == |list| ==> id !in list)
    ensures forall j :: 0 <= j < i ==> list[j] != id
  {
    if list == [] then 0 else if list[0] == id then 0 else Index(list[1..], id) + 1
  }

  function AddSub(t: Table, c: Channel, queue: bool, id: SubId): Table {
    var lists := ListsOf(t, queue);
    if c in lists then WithLists(t, queue, lists[c := lists[c] + [id]])
    else WithLists(t, queue, lists[c := [id]]).(dirty := t.dirty + {c})
  }

  function RemoveSub(t: Table, c: Channel, queue: bool, id: SubId): Table {
    var lists := ListsOf(t, queue);
    if c !in lists || id !in lists[c] then t
    else
      var i := Index(lists[c], id);
      var rest := lists[c][..i] + lists[c][i + 1..];
      if rest == [] then WithLists(t, queue, lists - {c}).(dirty := t.dirty + {c})
      else WithLists(t, queue, lists[c := rest])
  }

  /** The channels among `seen` to subscribe, and those to unsubscribe. */
  function Wanted(t: Table, seen: set<Channel>): set<Channel> {
    set c | c in seen && c !in t.current && Desired(t, c)
  }

  function Unwanted(t: Table, seen: set<Channel>): set<Channel> {
    set c | c in seen && c in t.current && !Desired(t, c)
  }

  lemma NothingSeen(t: Table)
    ensures Wanted(t, {}) == {} && Unwanted(t, {}) == {}
  {
  }

  lemma OneMoreSeen(t: Table, seen: set<Channel>, c: Channel)
    ensures Wanted(t, seen + {c}) == if c !in t.current && Desired(t, c) then Wanted(t, seen) + {c} else Wanted(t, seen)
    ensures Unwanted(t, seen + {c})
         == if c in t.current && !Desired(t, c) then Unwanted(t, seen) + {c} else Unwanted(t, seen)
  {
  }

  function ToSubscribe(t: Table): set<Channel> {
    Wanted(t, t.dirty)
  }

  function ToUnsubscribe(t: Table): set<Channel> {
    Unwanted(t, t.dirty)
  }

  function Taken(t: Table): Table {
    t.(dirty := {}, batch := Some(Batch(ToSubscribe(t), ToUnsubscribe(t))))
  }

  function Finished(t: Table, subscribeFailed: bool, unsubscribeFailed: bool): Table
    requires t.batch.Some?
  {
    var b := t.batch.value;
    t.(dirty := t.dirty + (if subscribeFailed then b.subscribe else {})
                + (if unsubscribeFailed then b.unsubscribe else {}),
       current := (t.current + (if subscribeFailed then {} else b.subscribe))
                  - (if unsubscribeFailed then {} else b.unsubscribe),
       batch := None)
  }

  predicate Enabled(t: Table, s: Step) {
    match s
    case TakeBatch => t.batch.None? && t.dirty != {}
    case FinishBatch(_, _) => t.batch.Some?
    case _ => true
  }

  function Apply(t: Table, s: Step): Table
    requires Enabled(t, s)
  {
    match s
    case Subscribe(c, queue, id) => AddSub(t, c, queue, id)
    case Unsubscribe(c, queue, id) => RemoveSub(t, c, queue, id)
    case TakeBatch => Taken(t)
    case FinishBatch(subscribeFailed, unsubscribeFailed) => Finished(t, subscribeFailed, unsubscribeFailed)
  }

  // ---------- the invariant ----------

  predicate InFlight(t: Table, c: Channel) {
    t.batch.Some? && (c in t.batch.value.subscribe || c in t.batch.value.unsubscribe)
  }

  /** A channel that is neither dirty nor in flight is as desired; one in flight and not
      dirty is wanted exactly as its batch asks. */
  ghost predicate ChannelInv(t: Table, c: Channel) {
    && (c !in t.dirty && !InFlight(t, c) ==> (c in t.current <==> Desired(t, c)))
    && (t.batch.Some? && c in t.batch.value.subscribe
        ==> c !in t.current && (c !in t.dirty ==> Desired(t, c)))
    && (t.batch.Some? && c in t.batch.value.unsubscribe
        ==> c in t.current && (c !in t.dirty ==> !Desired(t, c)))
    && (c in t.subs ==> t.subs[c] != []) && (c in t.queues ==> t.queues[c] != [])
  }

  ghost predicate Inv(t: Table) {
    forall c :: ChannelInv(t, c)
  }

  const EMPTY := Table(map[], map[], {}, {}, None)

  lemma StepKeepsInv(t: Table, s: Step)
    requires Inv(t) && Enabled(t, s)
    ensures Inv(Apply(t, s))
  {
    forall c ensures ChannelInv(Apply(t, s), c) {
      assert ChannelInv(t, c);
    }
  }

  ghost predicate IsRun(tables: seq<Table>, steps: seq<Step>) {
    && |tables| == |steps| + 1 && tables[0] == EMPTY
    && forall i :: 0 <= i < |steps| ==> Enabled(tables[i], steps[i]) && tables[i + 1] == Apply(tables[i], steps[i])
  }

  lemma {:induction false} RunInv(tables: seq<Table>, steps: seq<Step>, i: nat)
    requires IsRun(tables, steps) && i < |tables|
    ensures Inv(tables[i])
  {
    if i == 0 {
      assert forall c :: ChannelInv(EMPTY, c);
    } else {
      RunInv(tables, steps, i - 1);
      StepKeepsInv(tables[i - 1], steps[i - 1]);
    }
  }

  /** Whenever the reconcile loop can exit, every channel is as desired. */
  lemma SettledWhenClean(tables: seq<Table>, steps: seq<Step>, i: nat, c: Channel)
    requires IsRun(tables, steps) && i < |tables| && tables[i].dirty == {} && tables[i].batch.None?
    ensures c in tables[i].current <==> Desired(tables[i], c)
  {
    RunInv(tables, steps, i);
    assert ChannelInv(tables[i], c);
  }

  /** One undisturbed round the broker serves is enough to settle everything. */
  lemma OneGoodRoundSettles(t: Table)
    requires Inv(t) && Enabled(t, TakeBatch)
    ensures var u := Apply(Apply(t, TakeBatch), FinishBatch(false, false));
      u.dirty == {} && u.batch.None? && forall c :: c in u.current <==> Desired(u, c)
  {
    var u := Apply(Apply(t, TakeBatch), FinishBatch(false, false));
    forall c ensures c in u.current <==> Desired(u, c) {
      assert ChannelInv(t, c);
    }
  }

  /** In every run a batch asks the broker for the difference between what is desired and what is
      current, over all channels and not only the dirty ones; and until it is answered the broker
      is subscribed to none of the channels it subscribes and to all it unsubscribes. */
  lemma BatchesAreWanted(tables: seq<Table>, steps: seq<Step>, i: nat, c: Channel)
    requires IsRun(tables, steps) && i < |tables|
    ensures i < |steps| && steps[i].TakeBatch? ==>
      var t, b := tables[i], tables[i + 1].batch;
      && b.Some?
      && (c in b.value.subscribe <==> Desired(t, c) && c !in t.current)
      && (c in b.value.unsubscribe <==> c in t.current && !Desired(t, c))
    ensures tables[i].batch.Some? ==>
      var b := tables[i].batch.value;
      (c in b.subscribe ==> c !in tables[i].current) && (c in b.unsubscribe ==> c in tables[i].current)
  {
    RunInv(tables, steps, i);
    assert ChannelInv(tables[i], c);
  }

  function Listed(t: Table, c: Channel, queue: bool): seq<SubId> {
    if c in ListsOf(t, queue) then ListsOf(t, queue)[c] else []
  }

  lemma FoundLast(before: seq<SubId>, id: SubId)
    requires id !in before
    ensures var i := Index(before + [id], id);
      i == |before| && (before + [id])[..i] + (before + [id])[i + 1..] == before
  {
    assert forall j :: 0 <= j < |before| ==> (before + [id])[j] == before[j] != id;
  }

  /** Leaving undoes joining: one subscriber of the list goes, the others keep their order. */
  lemma LeaveUndoesJoin(t: Table, c: Channel, queue: bool, id: SubId)
    requires Inv(t) && id !in Listed(t, c, queue)
    ensures var joined := AddSub(t, c, queue, id);
      && Listed(joined, c, queue) == Listed(t, c, queue) + [id]
      && ListsOf(RemoveSub(joined, c, queue, id), queue) == ListsOf(t, queue)
  {
    assert ChannelInv(t, c);
    var lists, before := ListsOf(t, queue), Listed(t, c, queue);
    FoundLast(before, id);
    assert c in lists ==> lists[c := before + [id]][c := before] == lists;
    assert c !in lists ==> before + [id] == [id] && lists[c := [id]] - {c} == lists;
  }

  lemma FoundThere(a: seq<SubId>, id: SubId, b: seq<SubId>)
    requires id !in a
    ensures Index(a + [id] + b, id) == |a|
    ensures (a + [id] + b)[..|a|] + (a + [id] + b)[|a| + 1..] == a + b
  {
    assert (a + [id] + b)[|a|] == id;
    assert forall j :: 0 <= j < |a| ==> (a + [id] + b)[j] == a[j] != id;
  }

  /** Unsubscribing takes out the subscriber itself, wherever in the list it is, and nobody else
      on this channel, on another one or of the other kind. */
  lemma LeaverIsTheOne(t: Table, c: Channel, queue: bool, a: seq<SubId>, id: SubId, b: seq<SubId>)
    requires Listed(t, c, queue) == a + [id] + b && id !in a
    ensures Listed(RemoveSub(t, c, queue, id), c, queue) == a + b
    ensures forall c', queue' :: c' != c || queue' != queue ==>
      Listed(RemoveSub(t, c, queue, id), c', queue') == Listed(t, c', queue')
  {
    FoundThere(a, id, b);
    assert id in a + [id] + b;
  }

  /** And a subscriber that is not listed leaves without a trace. */
  lemma StrangerLeavesNoTrace(t: Table, c: Channel, queue: bool, id: SubId)
    requires id !in Listed(t, c, queue)
    ensures RemoveSub(t, c, queue, id) == t
  {
  }

  lemma JoinerIsLast(t: Table, c: Channel, queue: bool, id: SubId)
    ensures Listed(AddSub(t, c, queue, id), c, queue) == Listed(t, c, queue) + [id]
    ensures forall c', queue' :: c' != c || queue' != queue ==>
      Listed(AddSub(t, c, queue, id), c', queue') == Listed(t, c', queue')
  {
  }

  /** Subscriber IDs are not used twice on a list, as the source's are addresses. */
  ghost predicate FreshIds(steps: seq<Step>) {
    forall j, k :: 0 <= j < k < |steps| && steps[j].Subscribe? ==> steps[j] != steps[k]
  }

  /** Nobody has left between steps `k` and `n` who joined at step `k`. */
  ghost predicate Stayed(steps: seq<Step>, k: nat, n: nat)
    requires k < n <= |steps|
  {
    steps[k].Subscribe? &&
    forall m :: k < m < n ==> steps[m] != Unsubscribe(steps[k].channel, steps[k].queue, steps[k].id)
  }

  /** Of those that joined a list in the first `k` steps, who has stayed until step `n`, in order of joining. */
  ghost function Stayers(steps: seq<Step>, k: nat, n: nat, c: Channel, queue: bool): seq<SubId>
    requires k <= n <= |steps|
  {
    if k == 0 then []
    else if steps[k - 1] == Subscribe(c, queue, IdOf(steps[k - 1])) && Stayed(steps, k - 1, n) then
      Stayers(steps, k - 1, n, c, queue) + [steps[k - 1].id]
    else Stayers(steps, k - 1, n, c, queue)
  }

  function IdOf(s: Step): SubId {
    if s.Subscribe? then s.id else 0
  }

  lemma {:induction false} StayersJoined(steps: seq<Step>, k: nat, n: nat, c: Channel, queue: bool, id: SubId)
    requires k <= n <= |steps|
    ensures id in Stayers(steps, k, n, c, queue) <==>
      exists j :: 0 <= j < k && steps[j] == Subscribe(c, queue, id) && Stayed(steps, j, n)
  {
    if k > 0 {
      StayersJoined(steps, k - 1, n, c, queue, id);
    }
  }

  /** A step that is no Unsubscribe on the list changes none of its stayers. */
  lemma {:induction false} OthersStay(steps: seq<Step>, k: nat, n: nat, c: Channel, queue: bool)
    requires k <= n < |steps|
    requires !(steps[n].Unsubscribe? && steps[n].channel == c && steps[n].queue == queue)
    ensures Stayers(steps, k, n + 1, c, queue) == Stayers(steps, k, n, c, queue)
  {
    if k > 0 {
      OthersStay(steps, k - 1, n, c, queue);
      if steps[k - 1] == Subscribe(c, queue, IdOf(steps[k - 1])) {
        assert Stayed(steps, k - 1, n + 1) <==> Stayed(steps, k - 1, n);
      }
    }
  }

  /** The list without its only occurrence of `id`. */
  ghost predicate IsWithout(list: seq<SubId>, id: SubId, rest: seq<SubId>) {
    if id !in list then rest == list
    else exists a, b :: list == a + [id] + b && id !in a && rest == a + b
  }

  lemma {:induction false} LeaverGoes(steps: seq<Step>, k: nat, n: nat, c: Channel, queue: bool, id: SubId)
    requires k <= n < |steps| && FreshIds(steps) && steps[n] == Unsubscribe(c, queue, id)
    ensures IsWithout(Stayers(steps, k, n, c, queue), id, Stayers(steps, k, n + 1, c, queue))
  {
    if k > 0 {
      var list, rest := Stayers(steps, k - 1, n, c, queue), Stayers(steps, k - 1, n + 1, c, queue);
      LeaverGoes(steps, k - 1, n, c, queue, id);
      var s := steps[k - 1];
      if s == Subscribe(c, queue, IdOf(s)) && Stayed(steps, k - 1, n) {
        if s.id == id {
          StayersJoined(steps, k - 1, n, c, queue, id);
          assert !Stayed(steps, k - 1, n + 1);
          assert list + [id] == list + [id] + [] && list + [] == list;
        } else {
          assert Stayed(steps, k - 1, n + 1);
          AppendKeepsWithout(list, id, rest, s.id);
        }
      } else {
        assert s == Subscribe(c, queue, IdOf(s)) ==> !Stayed(steps, k - 1, n + 1);
      }
    }
  }

  lemma AppendKeepsWithout(list: seq<SubId>, id: SubId, rest: seq<SubId>, x: SubId)
    requires IsWithout(list, id, rest) && x != id
    ensures IsWithout(list + [x], id, rest + [x])
  {
    if id in list {
      var a, b :| list == a + [id] + b && id !in a && rest == a + b;
      assert list + [x] == a + [id] + (b + [x]) && rest + [x] == a + (b + [x]);
    }
  }

  /** In every run each list holds exactly the subscribers that joined it and have not left, in the order
      in which they joined. */
  lemma {:induction false} ListsAreTheStayers(tables: seq<Table>, steps: seq<Step>, i: nat, c: Channel, queue: bool)
    requires IsRun(tables, steps) && i < |tables| && FreshIds(steps)
    ensures Listed(tables[i], c, queue) == Stayers(steps, i, i, c, queue)
  {
    if i > 0 {
      var t, s, n := tables[i - 1], steps[i - 1], i - 1;
      ListsAreTheStayers(tables, steps, n, c, queue);
      match s
      case Subscribe(x, q, id) =>
        hide AddSub;
        JoinerIsLast(t, x, q, id);
        OthersStay(steps, n, n, c, queue);
        assert Stayed(steps, n, i);
      case Unsubscribe(x, q, id) =>
        hide RemoveSub;
        if x == c && q == queue {
          LeaverGoes(steps, n, n, c, queue, id);
          var list, rest := Stayers(steps, n, n, c, queue), Stayers(steps, n, i, c, queue);
          if id in list {
            var a, b :| list == a + [id] + b && id !in a && rest == a + b;
            LeaverIsTheOne(t, c, queue, a, id, b);
          } else {
            StrangerLeavesNoTrace(t, c, queue, id);
          }
        } else {
          OthersStay(steps, n, n, c, queue);
          OtherListKept(t, x, q, id, c, queue);
        }
      case _ => OthersStay(steps, n, n, c, queue);
    }
  }

  lemma OtherListKept(t: Table, x: Channel, q: bool, id: SubId, c: Channel, queue: bool)
    requires x != c || q != queue
    ensures Listed(RemoveSub(t, x, q, id), c, queue) == Listed(t, c, queue)
  {
  }

  // ---------- the transport ----------

  /** What happens while the lock is released: other goroutines' steps, then the broker's answers. */
  datatype Round = Round(others: seq<Step>, subscribeFailed: bool, unsubscribeFailed: bool)

  predicate FromSubscribers(steps: seq<Step>) {
    forall s :: s in steps ==> s.Subscribe? || s.Unsubscribe?
  }

  class Transport {
    var subs: Lists
    var queues: Lists
    var dirtyChannels: set<Channel>
    var currentChannels: set<Channel>
    /** The reconcile loop's local variables, while its lock is released. */
    ghost var batch: Option<Batch>

    ghost function View(): Table
      reads this
    {
      Table(subs, queues, dirtyChannels, currentChannels, batch)
    }

    constructor ()
      ensures View() == EMPTY
    {
      subs, queues, dirtyChannels, currentChannels, batch := map[], map[], {}, {}, None;
    }

    /** subscribe: only a channel's first subscriber makes it dirty. */
    method Subscribe(c: Channel, queue: bool, id: SubId)
      modifies this
      ensures View() == AddSub(old(View()), c, queue, id)
    {
      var lists := if queue then queues else subs;
      if c !in lists {
        lists := lists[c := []];
        assert lists[c] + [id] == [id];
        dirtyChannels := dirtyChannels + {c};
      }
      lists := lists[c := lists[c] + [id]];
      if queue {
        queues := lists;
      } else {
        subs := lists;
      }
    }

    /** unsubscribe: a subscriber that is not listed changes nothing. */
    method Unsubscribe(c: Channel, queue: bool, id: SubId)
      modifies this
      ensures View() == RemoveSub(old(View()), c, queue, id)
    {
      var lists := if queue then queues else subs;
      if c !in lists {
        return;
      }
      var list := lists[c];
      var i := FindIndex(list, id);
      if i == |list| {
        return;
      }
      list := list[..i] + list[i + 1..];
      lists := lists[c := list];
      if |list| == 0 {
        assert lists - {c} == ListsOf(View(), queue) - {c};
        lists := lists - {c};
        dirtyChannels := dirtyChannels + {c};
      }
      if queue {
        queues := lists;
      } else {
        subs := lists;
      }
    }

    /** The loop over the dirty channels that fills a batch. */
    method FillBatch() returns (subscribe: set<Channel>, unsubscribe: set<Channel>)
      ensures subscribe == ToSubscribe(View()) && unsubscribe == ToUnsubscribe(View())
    {
      subscribe, unsubscribe := {}, {};
      var rest := dirtyChannels;
      hide Wanted, Unwanted;
      NothingSeen(View());
      assert dirtyChannels - rest == {};
      while rest != {}
        invariant rest <= dirtyChannels
        invariant subscribe == Wanted(View(), dirtyChannels - rest)
        invariant unsubscribe == Unwanted(View(), dirtyChannels - rest)
        decreases |rest|
      {
        var c :| c in rest;
        OneMoreSeen(View(), dirtyChannels - rest, c);
        assert dirtyChannels - (rest - {c}) == dirtyChannels - rest + {c};
        rest := rest - {c};
        var current := c in currentChannels;
        var desired := c in subs || c in queues;
        if !current && desired {
          subscribe := subscribe + {c};
        } else if current && !desired {
          unsubscribe := unsubscribe + {c};
        }
      }
      assert dirtyChannels - rest == dirtyChannels;
    }

    /** The second critical section of a round: what failed is dirty again. */
    method RecordAnswers(subscribe: set<Channel>, unsubscribe: set<Channel>,
                         subscribeFailed: bool, unsubscribeFailed: bool)
      requires batch == Some(Batch(subscribe, unsubscribe))
      modifies this
      ensures View() == Finished(old(View()), subscribeFailed, unsubscribeFailed)
    {
      if subscribeFailed {
        dirtyChannels := dirtyChannels + subscribe;
      } else {
        currentChannels := currentChannels + subscribe;
      }
      if unsubscribeFailed {
        dirtyChannels := dirtyChannels + unsubscribe;
      } else {
        currentChannels := currentChannels - unsubscribe;
      }
      batch := None;
    }

    /** Other goroutines, while the worker does not hold the lock. */
    method Interleave(others: seq<Step>)
      requires FromSubscribers(others) && Inv(View())
      modifies this
      ensures Inv(View()) && batch == old(batch)
    {
      for k := 0 to |others|
        invariant Inv(View()) && batch == old(batch)
      {
        var step := others[k];
        StepKeepsInv(View(), step);
        if step.Subscribe? {
          Subscribe(step.channel, step.queue, step.id);
        } else {
          Unsubscribe(step.channel, step.queue, step.id);
        }
      }
    }

    /** redisReconcileSubscriptionsOp.run, for as many rounds as the environment gives.
        If it exits, every channel is as desired. */
    method Run(rounds: seq<Round>) returns (exited: bool)
      requires Inv(View()) && batch.None?
      requires forall r :: r in rounds ==> FromSubscribers(r.others)
      modifies this
      ensures Inv(View()) && batch.None?
      ensures exited <==> dirtyChannels == {}
      ensures exited ==> forall c :: c in currentChannels <==> c in subs || c in queues
    {
      var k := 0;
      while |dirtyChannels| > 0 && k < |rounds|
        invariant Inv(View()) && batch.None?
        decreases |rounds| - k
      {
        StepKeepsInv(View(), TakeBatch);
        var subscribe, unsubscribe := FillBatch();
        dirtyChannels := {};
        batch := Some(Batch(subscribe, unsubscribe));

        Interleave(rounds[k].others);

        StepKeepsInv(View(), FinishBatch(rounds[k].subscribeFailed, rounds[k].unsubscribeFailed));
        RecordAnswers(subscribe, unsubscribe, rounds[k].subscribeFailed, rounds[k].unsubscribeFailed);
        k := k + 1;
      }
      exited := |dirtyChannels| == 0;
      forall c ensures exited ==> (c in currentChannels <==> c in subs || c in queues) {
        assert ChannelInv(View(), c);
      }
    }
  }

  method FindIndex(list: seq<SubId>, id: SubId) returns (i: nat)
    ensures i == Index(list, id)
  {
    i := 0;
    assert list[0..] == list;
    while i < |list| && list[i] != id
      invariant i <= |list| && Index(list, id) == i + Index(list[i..], id)
    {
      var rest := list[i..];
      assert rest[0] == list[i] && rest[1..] == list[i + 1..];
      assert Index(rest, id) == Index(rest[1..], id) + 1;
      i := i + 1;
    }
    assert i < |list| ==> list[i..][0] == id;
  }
}
