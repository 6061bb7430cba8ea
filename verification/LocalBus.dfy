/**
 The in-process bus of pkg/bus/localbus/localbus.go: lists of subscriptions whose slots are
 reused, round-robin dispatch on queues, and the two tables that find a list by its channel.
 A method is one critical section of the source.
 */
module LocalBus {
  import opened RoundRobin

  type Payload = seq<bv8>

  /** `offered` are the payloads given to `Write`; `list` and `index` are what `onClose` captured. */
  class Subscription {
    var cancelled: bool
    var channelClosed: bool
    var offered: seq<Payload>
    var list: SubList?
    var index: nat

    constructor ()
      ensures !cancelled && !channelClosed && offered == [] && list == null
    {
      cancelled, channelClosed, offered, list := false, false, [], null;
    }

    /** A write to a closed message channel would panic. */
    method Write(b: Payload)
      requires !channelClosed
      modifies this`offered
      ensures offered == old(offered) + [b]
    {
      offered := offered + [b];
    }
  }

  function Filled(subs: seq<Subscription?>): (filled: seq<bool>)
    ensures |filled| == |subs|
    ensures forall i :: 0 <= i < |subs| ==> filled[i] == (subs[i] != null)
  {
    seq(|subs|, i requires 0 <= i < |subs| => subs[i] != null)
  }

  lemma {:induction false} FillingCounts(filled: seq<bool>, i: nat, b: bool)
    requires i < |filled| && filled[i] != b
    ensures Count(filled[i := b]) == Count(filled) + (if b then 1 else -1)
  {
    var last := |filled| - 1;
    if i == last {
      assert filled[i := b][..last] == filled[..last];
    } else {
      assert filled[i := b][..last] == filled[..last][i := b];
      FillingCounts(filled[..last], i, b);
    }
  }

  lemma {:induction false} CountIsPositive(filled: seq<bool>)
    ensures Count(filled) > 0 <==> exists i :: 0 <= i < |filled| && filled[i]
    ensures Count(filled) <= |filled|
  {
    if filled != [] {
      var last := |filled| - 1;
      CountIsPositive(filled[..last]);
      if Count(filled[..last]) > 0 {
        var i :| 0 <= i < last && filled[..last][i];
        assert filled[i];
      }
      if i :| 0 <= i < |filled| && filled[i] {
        assert i < last ==> filled[..last][i];
      }
    }
  }

  function Members(subs: seq<Subscription?>): set<Subscription> {
    set s: Subscription | s in subs
  }

  lemma SlotIsLive(subs: seq<Subscription?>, i: nat)
    requires i < |subs| && subs[i] != null
    ensures subs[i] in Members(subs)
  {}

  lemma NobodyLive(subs: seq<Subscription?>)
    ensures Members(subs) == {} <==> forall j :: 0 <= j < |subs| ==> subs[j] == null
  {
    forall j | 0 <= j < |subs| && subs[j] != null ensures subs[j] in Members(subs) {}
  }

  lemma MembersGrow(subs: seq<Subscription?>, i: nat, sub: Subscription)
    requires i <= |subs| && (i < |subs| ==> subs[i] == null)
    ensures Members(if i < |subs| then subs[i := sub] else subs + [sub]) == Members(subs) + {sub}
  {
    var after := if i < |subs| then subs[i := sub] else subs + [sub];
    assert after[i] == sub;
    forall s | s in Members(subs) ensures s in Members(after) {
      var j :| 0 <= j < |subs| && subs[j] == s;
      assert after[j] == s;
    }
  }

  lemma MembersShrink(subs: seq<Subscription?>, i: nat, sub: Subscription)
    requires i < |subs| && subs[i] == sub && forall j :: 0 <= j < |subs| && j != i ==> subs[j] != sub
    ensures Members(subs[i := null]) == Members(subs) - {sub}
  {
    forall s | s in Members(subs) - {sub} ensures s in Members(subs[i := null]) {
      var j :| 0 <= j < |subs| && subs[j] == s;
      assert subs[i := null][j] == s;
    }
  }

  /** The slot `i` steps on from `w`, going round once. */
  function Cursor(w: nat, i: nat, n: nat): nat
    requires w < n && i <= n
  {
    if w + i < n then w + i else w + i - n
  }

  /** The slots seen in the first `i` steps from `w` on are empty. */
  ghost predicate Scanned(filled: seq<bool>, w: nat, i: nat) {
    forall j :: 0 <= j < |filled| && (w <= j < w + i || j < w + i - |filled|) ==> !filled[j]
  }

  lemma NothingScanned(filled: seq<bool>, w: nat)
    requires w <= |filled|
    ensures Scanned(filled, w, 0)
  {}

  lemma ScanStep(filled: seq<bool>, w: nat, i: nat)
    requires w < |filled| && i <= |filled| && Scanned(filled, w, i)
    ensures var c := Cursor(w, i, |filled|);
      && c < |filled| && Wrap(if i == 0 then w else Cursor(w, i - 1, |filled|) + 1, |filled|) == c
      && if filled[c] then IsNextFilled(filled, w, c) else Scanned(filled, w, i + 1)
  {}

  /** One step further than all the way round. */
  lemma ScannedAll(filled: seq<bool>, w: nat, start: nat, picks: seq<nat>)
    requires w < |filled| && Scanned(filled, w, |filled| + 1) && IsDispatchRun(filled, start, picks)
    ensures Cursor(w, |filled|, |filled|) == w && forall j :: 0 <= j < |filled| ==> !filled[j]
    ensures picks == [] && forall other :: IsDispatchRun(filled, other, [])
  {
    assert picks != [] ==> IsPick(filled, start, picks, 0);
  }

  lemma Appended(filled: seq<bool>, start: nat, picks: seq<nat>, p: nat)
    requires IsDispatchRun(filled, start, picks)
    requires IsNextFilled(filled, Wrap(if picks == [] then start else picks[|picks| - 1] + 1, |filled|), p)
    ensures IsDispatchRun(filled, start, picks + [p])
  {
    var after := picks + [p];
    forall t | 0 <= t < |after| ensures IsPick(filled, start, after, t) {
      assert t < |picks| ==> IsPick(filled, start, picks, t);
    }
  }

  class SubList {
    const channel: string
    const queue: bool
    var subs: seq<Subscription?>
    var subCount: int
    var next: nat

    /** The slots a queue has chosen since its members last changed; where the cursor was then,
        and how many payloads each slot's subscription had been offered. */
    ghost var picks: seq<nat>
    ghost var start: nat
    ghost var marks: seq<nat>

    constructor (channel: string, queue: bool)
      ensures Valid() && Tallied() && subs == [] && this.channel == channel && this.queue == queue
    {
      this.channel, this.queue := channel, queue;
      subs, subCount, next := [], 0, 0;
      picks, start, marks := [], 0, [];
    }

    ghost predicate InPlace(i: nat)
      requires i < |subs|
      reads `subs, subs`list, subs`index, subs`channelClosed
    {
      subs[i] != null ==> subs[i].list == this && subs[i].index == i && !subs[i].channelClosed
    }

    ghost predicate Valid()
      reads this, subs`list, subs`index, subs`channelClosed
    {
      && subCount == Count(Filled(subs))
      && (forall i :: 0 <= i < |subs| ==> InPlace(i))
      && History()
      && next == AfterLastPick()
    }

    /** Since a queue's members last changed, a slot's subscription was offered one payload each
        time the slot was chosen. */
    ghost predicate Tallied()
      reads `subs, `picks, `marks, subs`offered
    {
      queue ==> |marks| == |subs| && forall i :: 0 <= i < |subs| ==> SlotTallied(i)
    }

    ghost predicate SlotTallied(i: nat)
      requires i < |subs| && |marks| == |subs|
      reads `subs, `picks, `marks, subs`offered
    {
      subs[i] != null ==> |subs[i].offered| == marks[i] + Times(picks, i)
    }

    /** The ghost record starts again. */
    ghost method Restart()
      modifies `picks, `start, `marks
      ensures picks == [] && start == next && Tallied()
    {
      picks, start := [], next;
      marks := seq(|subs|, i requires 0 <= i < |subs| reads this, subs =>
        if subs[i] == null then 0 else |subs[i].offered|);
    }

    ghost function Live(): set<Subscription>
      reads `subs
    {
      Members(subs)
    }

    lemma LiveIsHere()
      requires Valid()
      ensures forall s :: s in Live() ==> s.list == this
      ensures forall s: Subscription :: s in subs ==> s in Live()
      ensures subs == [] ==> Live() == {}
    {
      forall s | s in Live() ensures s.list == this {
        var j :| 0 <= j < |subs| && subs[j] == s;
        assert InPlace(j);
      }
    }

    /** create: the new subscription gets the first free slot, or a new one. */
    method Create() returns (sub: Subscription)
      requires Valid()
      modifies this
      ensures Valid() && fresh(sub) && sub.list == this && !sub.cancelled && sub.offered == []
      ensures sub.index <= |old(subs)| && forall j :: 0 <= j < sub.index ==> old(subs)[j] != null
      ensures sub.index < |old(subs)| ==> old(subs)[sub.index] == null
      ensures subs == if sub.index < |old(subs)| then old(subs)[sub.index := sub] else old(subs) + [sub]
      ensures Live() == old(Live()) + {sub} && subCount == old(subCount) + 1 > 0
      ensures picks == [] && Tallied()
    {
      sub := new Subscription();
      subCount := subCount + 1;
      var added, index, i := false, 0, 0;
      while i < |subs|
        invariant i <= |subs| && !added && subs == old(subs) && index == 0
        invariant forall j :: 0 <= j < i ==> subs[j] != null
      {
        if subs[i] == null {
          added, index := true, i;
          FillingCounts(Filled(subs), i, true);
          subs := subs[i := sub];
          break;
        }
        i := i + 1;
      }
      if !added {
        index := |subs|;
        subs := subs + [sub];
        assert Filled(subs)[..index] == Filled(old(subs));
      } else {
        assert Filled(subs) == Filled(old(subs))[index := true];
      }
      MembersGrow(old(subs), index, sub);
      sub.list, sub.index := this, index;
      Restart();
      assert subs[index] == sub;
      forall j | 0 <= j < |subs| ensures InPlace(j) {
        assert j != index ==> j < |old(subs)| && old(InPlace(j));
      }
    }

    /** The part of onUnsubscribe that the list's own lock guards. */
    method Vacate(sub: Subscription)
      requires Valid() && sub.list == this && sub.index < |subs| && subs[sub.index] == sub
      modifies this
      ensures Valid() && subs == old(subs)[sub.index := null]
      ensures Live() == old(Live()) - {sub} && subCount == old(subCount) - 1 >= 0
      ensures picks == [] && Tallied()
    {
      FillingCounts(Filled(subs), sub.index, false);
      forall j | 0 <= j < |subs| && j != sub.index ensures subs[j] != sub {
        assert InPlace(j);
      }
      MembersShrink(subs, sub.index, sub);
      assert Filled(subs[sub.index := null]) == Filled(subs)[sub.index := false];
      subs := subs[sub.index := null];
      subCount := subCount - 1;
      Restart();
      forall j | 0 <= j < |subs| ensures InPlace(j) {
        assert old(InPlace(j));
      }
    }

    ghost predicate History()
      reads `subs, `picks, `start
    {
      IsDispatchRun(Filled(subs), start, picks)
    }

    ghost function AfterLastPick(): nat
      reads `picks, `start
    {
      if picks == [] then start else picks[|picks| - 1] + 1
    }

    /** The write to the chosen slot, which the history records. */
    method HandTo(s: Subscription, p: nat, b: Payload)
      requires p < |subs| && subs[p] == s && next == p + 1
      requires subCount == Count(Filled(subs)) && (forall i :: 0 <= i < |subs| ==> InPlace(i)) && History()
      requires IsNextFilled(Filled(subs), Wrap(AfterLastPick(), |subs|), p)
      modifies `picks, s`offered
      ensures Valid() && picks == old(picks) + [p]
      ensures forall j :: 0 <= j < |subs| && subs[j] != null ==>
        subs[j].offered == if j == p then old(subs[j].offered) + [b] else old(subs[j].offered)
    {
      hide Count, Filled, IsNextFilled, IsDispatchRun;
      forall j | 0 <= j < |subs| && j != p ensures subs[j] != s {
        assert InPlace(j) && InPlace(p);
      }
      assert InPlace(p);
      s.Write(b);
      Appended(Filled(subs), start, picks, p);
      picks := picks + [p];
    }

    /** dispatch on a queue: one live subscription gets the payload, if there is one. */
    method DispatchToOne(b: Payload)
      requires Valid() && subs != []
      modifies this`next, this`picks, this`start, Live()`offered
      ensures Valid() && 0 < next <= |subs|
      ensures Live() == {} ==> picks == [] && next == Wrap(old(next), |subs|) + 1
      ensures Live() != {} ==> picks == old(picks) + [next - 1] && start == old(start)
      ensures Live() != {} ==> IsNextFilled(Filled(subs), Wrap(old(next), |subs|), next - 1)
      ensures forall j :: 0 <= j < |subs| && subs[j] != null ==>
        subs[j].offered == if j == next - 1 then old(subs[j].offered) + [b] else old(subs[j].offered)
    {
      hide Count, Filled, Scanned, IsNextFilled, IsDispatchRun, Cursor, Members;
      ghost var filled, w, n := Filled(subs), Wrap(next, |subs|), |subs|;
      NothingScanned(filled, w);
      assert w == Wrap(AfterLastPick(), n);
      var i := 0;
      while i <= |subs|
        invariant i <= n + 1 && Scanned(filled, w, i)
        invariant picks == old(picks) && start == old(start)
        invariant forall j :: 0 <= j < n ==> InPlace(j)
        invariant next == if i == 0 then old(next) else Cursor(w, i - 1, n) + 1
        invariant forall j :: 0 <= j < n && subs[j] != null ==> subs[j].offered == old(subs[j].offered)
      {
        ScanStep(filled, w, i);
        if next >= |subs| {
          next := 0;
        }
        var s := subs[next];
        next := next + 1;
        if s != null {
          SlotIsLive(subs, next - 1);
          HandTo(s, next - 1, b);
          return;
        }
        i := i + 1;
      }
      ScannedAll(filled, w, start, picks);
      NobodyLive(subs);
      start := next;
    }

    /** dispatch on a list that is no queue: every live subscription gets the payload. */
    method DispatchToAll(b: Payload)
      requires Valid()
      modifies Live()`offered
      ensures Valid()
      ensures forall j :: 0 <= j < |subs| && subs[j] != null ==> subs[j].offered == old(subs[j].offered) + [b]
    {
      hide Count, Filled, IsDispatchRun, Members;
      var i := 0;
      while i < |subs|
        invariant i <= |subs|
        invariant forall j :: 0 <= j < |subs| ==> InPlace(j)
        invariant forall j :: 0 <= j < |subs| && subs[j] != null ==>
          subs[j].offered == if j < i then old(subs[j].offered) + [b] else old(subs[j].offered)
      {
        var s := subs[i];
        if s != null {
          assert InPlace(i);
          SlotIsLive(subs, i);
          forall j | 0 <= j < |subs| && j != i ensures subs[j] != s {
            assert InPlace(j);
          }
          s.Write(b);
        }
        i := i + 1;
      }
    }

    /** dispatch, `chosen` being a queue's choice. */
    method Dispatch(b: Payload) returns (ghost chosen: Subscription?)
      requires Valid() && Tallied() && subs != []
      modifies this`next, this`picks, this`start, Live()`offered
      ensures Valid() && Tallied()
      ensures chosen != null <==> queue && Live() != {}
      ensures chosen != null ==> 0 < next <= |subs| && subs[next - 1] == chosen && chosen in Live()
      ensures chosen != null ==> picks == old(picks) + [next - 1] && start == old(start)
      ensures chosen != null ==> IsNextFilled(Filled(subs), Wrap(old(next), |subs|), next - 1)
      ensures forall s :: s in Live() ==>
        s.offered == if !queue || s == chosen then old(s.offered) + [b] else old(s.offered)
    {
      hide Valid, History, Count, Filled, Times;
      chosen := null;
      NobodyLive(subs);
      if queue {
        DispatchToOne(b);
        if Live() != {} {
          NextIsFilled(subs, Wrap(old(next), |subs|), next - 1);
          chosen := subs[next - 1];
          forall j | 0 <= j < |subs| ensures SlotTallied(j) {
            assert old(SlotTallied(j));
            TimesAppend(old(picks), next - 1, j);
          }
        }
      } else {
        DispatchToAll(b);
      }
      SlotsAreLive(chosen);
    }

    /** A slot's subscription is `chosen` only in the chosen slot. */
    lemma SlotsAreLive(chosen: Subscription?)
      requires Valid()
      requires chosen != null ==> 0 < next <= |subs| && subs[next - 1] == chosen
      ensures forall s :: s in Live() ==> exists j :: 0 <= j < |subs| && subs[j] == s
      ensures chosen != null ==> forall j :: 0 <= j < |subs| && subs[j] == chosen ==> j == next - 1
    {
      forall j | 0 <= j < |subs| && chosen != null && subs[j] == chosen ensures j == next - 1 {
        assert InPlace(j) && InPlace(next - 1);
      }
    }
  }

  lemma TimesAppend(picks: seq<nat>, p: nat, j: nat)
    ensures Times(picks + [p], j) == Times(picks, j) + if p == j then 1 else 0
  {
    assert (picks + [p])[..|picks|] == picks;
  }

  lemma NextIsFilled(subs: seq<Subscription?>, start: nat, p: nat)
    requires IsNextFilled(Filled(subs), start, p)
    ensures p < |subs| && subs[p] != null
  {}

  /** Since its members last changed, a queue with `n` live subscriptions has offered each of them
      `k / n` of the `k` payloads it dispatched, rounded down or up. */
  lemma DispatchIsFair(l: SubList, p: nat)
    requires l.Valid() && l.Tallied() && l.queue && p < |l.subs| && l.subs[p] != null
    ensures l.subCount > 0 && |l.marks| == |l.subs|
    ensures |l.picks| / l.subCount
         <= |l.subs[p].offered| - l.marks[p]
         <= (|l.picks| + l.subCount - 1) / l.subCount
  {
    assert l.SlotTallied(p);
    FairShares(Filled(l.subs), l.start, l.picks, p);
  }

  /** `lists` are all lists ever made, and `live` the subscriptions whose onClose has not run. */
  class Transport {
    var subs: map<string, SubList>
    var queues: map<string, SubList>
    ghost var lists: set<SubList>
    ghost var live: set<Subscription>

    function Table(queue: bool): map<string, SubList>
      reads `subs, `queues
    {
      if queue then queues else subs
    }

    ghost predicate Listed(l: SubList)
      reads `subs, `queues, l`subCount
    {
      l.channel in Table(l.queue) && Table(l.queue)[l.channel] == l <==> l.subCount > 0
    }

    ghost predicate Slotted(s: Subscription)
      reads `lists, s`list, s`index, lists`subs
    {
      s.list != null && s.list in lists && s.index < |s.list.subs| && s.list.subs[s.index] == s
    }

    ghost predicate EntryOk(queue: bool, channel: string)
      reads `subs, `queues, `lists
    {
      channel in Table(queue) ==>
        var l := Table(queue)[channel];
        l in lists && l.channel == channel && l.queue == queue
    }

    ghost predicate TablesOk()
      reads `subs, `queues, `lists
    {
      forall queue, channel :: EntryOk(queue, channel)
    }

    ghost predicate Kept(l: SubList)
      reads `subs, `queues, `live, l, l.subs
    {
      l.Valid() && l.Tallied() && l.Live() <= live && l.subs != [] && Listed(l)
    }

    /** Everything but that `but`, which a subscriber may be about to join, is found in its table. */
    ghost predicate ValidBut(but: set<SubList>)
      reads this, lists, live
    {
      && TablesOk()
      && (forall l :: l in lists ==> l.Live() <= live)
      && (forall l :: l in lists ==> l.Valid())
      && (forall l :: l in lists ==> l.Tallied())
      && (forall l :: l in lists && l !in but ==> l.subs != [] && Listed(l))
      && (forall s :: s in live ==> Slotted(s))
    }

    ghost predicate Valid()
      reads this, lists, live
    {
      ValidBut({})
    }

    constructor ()
      ensures Valid() && live == {} && subs == map[] && queues == map[]
    {
      subs, queues := map[], map[];
      lists, live := {}, {};
    }

    method Join(l: SubList) returns (sub: Subscription)
      requires ValidBut({l}) && l in lists && l.channel in Table(l.queue) && Table(l.queue)[l.channel] == l
      modifies `live, l
      ensures Valid() && fresh(sub) && live == old(live) + {sub} && sub.list == l
    {
      hide SubList.Valid, SubList.Live, SubList.InPlace, SubList.History, TablesOk;
      sub := l.Create();
      live := live + {sub};
      forall k | k in lists ensures Kept(k) {
        if k != l {
          assert old(Kept(k));
        }
      }
      forall s | s in live ensures Slotted(s) {
        if s != sub {
          assert old(Slotted(s));
        }
      }
    }

    /** subscribe: a new live subscription; everybody else keeps theirs. */
    method Subscribe(channel: string, queue: bool) returns (sub: Subscription)
      requires Valid()
      modifies this, if channel in Table(queue) then {Table(queue)[channel]} else {}
      ensures Valid() && fresh(sub) && live == old(live) + {sub}
      ensures sub.list != null && sub.list.channel == channel && sub.list.queue == queue
    {
      hide SubList.Valid, SubList.Live, SubList.InPlace, SubList.History;
      assert EntryOk(queue, channel);
      var l: SubList;
      if channel in Table(queue) {
        l := Table(queue)[channel];
      } else {
        l := new SubList(channel, queue);
        if queue {
          queues := queues[channel := l];
        } else {
          subs := subs[channel := l];
        }
        lists := lists + {l};
        l.LiveIsHere();
        forall k | k in old(lists) ensures Kept(k) {
          assert old(Kept(k));
        }
        forall s | s in live ensures Slotted(s) {
          assert old(Slotted(s));
        }
      }
      forall q, c ensures EntryOk(q, c) {
        assert old(EntryOk(q, c));
      }
      sub := Join(l);
    }

    /** Close, first step. */
    method Cancel(sub: Subscription)
      requires Valid()
      modifies sub`cancelled
      ensures Valid() && sub.cancelled
    {
      sub.cancelled := true;
    }

    lemma ListedIsInTable(l: SubList)
      requires Listed(l)
      ensures l.subCount > 0 ==> l.channel in Table(l.queue) && Table(l.queue)[l.channel] == l
    {
    }

    /** What onUnsubscribe does with the table: an empty list leaves it. */
    method DropIfEmpty(l: SubList)
      requires TablesOk() && l in lists && l.channel in Table(l.queue) && Table(l.queue)[l.channel] == l
      requires l.subCount >= 0 && forall k :: k in lists && k != l ==> Listed(k)
      modifies `subs, `queues
      ensures TablesOk() && forall k :: k in lists ==> Listed(k)
    {
      if l.subCount == 0 {
        if l.queue {
          queues := queues - {l.channel};
        } else {
          subs := subs - {l.channel};
        }
      }
      forall q, c ensures EntryOk(q, c) {
        assert old(EntryOk(q, c));
      }
      forall k | k in lists ensures Listed(k) {
        assert k != l ==> old(Listed(k));
      }
    }

    /** Close, second step: onClose, which empties the captured slot and drops an empty list. */
    method Unsubscribe(sub: Subscription)
      requires Valid() && sub in live
      modifies this, sub.list
      ensures Valid() && live == old(live) - {sub} && lists == old(lists)
    {
      hide SubList.Valid, SubList.Live, SubList.InPlace, SubList.History, SubList.Tallied, TablesOk, Listed;
      assert Slotted(sub);
      forall k | k in lists && k != sub.list ensures sub !in k.Live() {
        k.LiveIsHere();
      }
      var l := sub.list;
      ListedIsInTable(l);
      l.Vacate(sub);
      DropIfEmpty(l);
      live := live - {sub};
      forall k | k in lists ensures Kept(k) {
        assert old(Kept(k));
      }
      forall s | s in live ensures Slotted(s) {
        assert old(Slotted(s));
      }
    }

    /** Close, last step. */
    method CloseChannel(sub: Subscription)
      requires Valid() && sub !in live && !sub.channelClosed
      modifies sub`channelClosed
      ensures Valid() && sub.channelClosed
    {
      sub.channelClosed := true;
    }

    /** The live subscriptions of one kind on one channel. */
    ghost function On(queue: bool, channel: string): set<Subscription>
      reads `live, live`list
    {
      set s | s in live && s.list != null && s.list.queue == queue && s.list.channel == channel
    }

    lemma OnIsTable(queue: bool, channel: string)
      requires Valid()
      ensures On(queue, channel) == if channel in Table(queue) then Table(queue)[channel].Live() else {}
    {
      forall s | s in On(queue, channel)
        ensures channel in Table(queue) && Table(queue)[channel] == s.list && s in s.list.Live()
      {
        assert Slotted(s);
        CountIsPositive(Filled(s.list.subs));
      }
      if channel in Table(queue) {
        var l := Table(queue)[channel];
        assert EntryOk(queue, channel);
        forall s | s in l.Live() ensures s in On(queue, channel) {
          var j :| 0 <= j < |l.subs| && l.subs[j] == s;
          assert l.InPlace(j);
        }
      }
    }

    /** Close: the reader's steps in their order. */
    method Close(sub: Subscription)
      requires Valid() && sub in live && !sub.channelClosed
      modifies this, sub.list, sub
      ensures Valid() && live == old(live) - {sub} && sub.channelClosed
    {
      Cancel(sub);
      Unsubscribe(sub);
      CloseChannel(sub);
    }

    /** A dispatch on any list a publisher once looked up, `chosen` being a queue's choice. */
    method DispatchTo(l: SubList, b: Payload) returns (ghost chosen: Subscription?)
      requires Valid() && l in lists
      modifies l`next, l`picks, l`start, l.Live()`offered
      ensures Valid()
      ensures chosen != null <==> l.queue && l.Live() != {}
      ensures chosen != null ==> chosen in l.Live()
      ensures forall s :: s in l.Live() ==>
        s.offered == if !l.queue || s == chosen then old(s.offered) + [b] else old(s.offered)
      ensures chosen != null ==> |l.picks| == |old(l.picks)| + 1 && l.marks == old(l.marks)
    {
      hide SubList.Valid, SubList.Live, SubList.Tallied, Slotted, EntryOk, Listed;
      forall k | k in lists && k != l ensures forall s: Subscription :: s in k.subs ==> s !in l.Live() {
        k.LiveIsHere();
        l.LiveIsHere();
      }
      chosen := l.Dispatch(b);
      forall k | k in lists ensures Kept(k) {
        assert old(Kept(k));
        assert k != l ==> k.Tallied();
      }
      forall s | s in live ensures Slotted(s) {
        assert old(Slotted(s));
      }
    }

    /** Publish with nothing in between: every plain subscription of the channel gets the payload,
        and one of its queue subscriptions if there is any; nobody else does. */
    method Publish(channel: string, b: Payload) returns (ghost chosen: Subscription?)
      requires Valid()
      modifies lists, live`offered
      ensures Valid()
      ensures chosen != null <==> On(true, channel) != {}
      ensures chosen != null ==> chosen in On(true, channel)
      ensures forall s :: s in live ==>
        s.offered == if s in On(false, channel) || s == chosen then old(s.offered) + [b] else old(s.offered)
    {
      hide SubList.Valid, SubList.Live, On;
      chosen := null;
      OnIsTable(false, channel);
      OnIsTable(true, channel);
      KindsApart(channel);
      assert EntryOk(false, channel) && EntryOk(true, channel);
      if channel in subs {
        var none := DispatchTo(subs[channel], b);
      }
      if channel in queues {
        chosen := DispatchTo(queues[channel], b);
      }
    }

    lemma KindsApart(channel: string)
      ensures On(false, channel) !! On(true, channel)
      ensures On(false, channel) <= live && On(true, channel) <= live
    {}

    /** Seen from the transport: a queue's live subscription has its fair share of what was
        dispatched on its list since anybody last joined or left it. */
    lemma SubscriberGetsFairShare(sub: Subscription)
      requires Valid() && sub in live && sub.list != null && sub.list.queue
      ensures sub.index < |sub.list.marks| && sub.list.subCount > 0
      ensures |sub.list.picks| / sub.list.subCount
           <= |sub.offered| - sub.list.marks[sub.index]
           <= (|sub.list.picks| + sub.list.subCount - 1) / sub.list.subCount
    {
      assert Slotted(sub);
      DispatchIsFair(sub.list, sub.index);
    }
  }
}
