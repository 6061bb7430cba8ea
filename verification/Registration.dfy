/**
 A server's handler table and the registration of a group of handlers
 (pkg/server/server.go, pkg/server/registration.go), run sequentially.
 */
module Registration {
  import opened Wrappers
  import Channels

  type HandlerId = nat

  datatype Error = ServerClosed | HandlerExists | CreateFailed(message: string)

  /** One Registerer: its rpc, and the handler that creating it yields, or why that fails. */
  datatype Member = Member(rpc: string, created: Result<HandlerId, string>)

  datatype Server = Server(handlers: map<string, HandlerId>, active: int, shutdown: bool)

  function Key(m: Member, topic: seq<string>): string {
    Channels.HandlerKey(m.rpc, topic)
  }

  /** RegisterHandler. */
  function Register(s: Server, m: Member, topic: seq<string>): (Option<Error>, Server) {
    if s.shutdown then (Some(ServerClosed), s)
    else if Key(m, topic) in s.handlers then (Some(HandlerExists), s)
    else if m.created.Err? then (Some(CreateFailed(m.created.error)), s)
    else (None, s.(active := s.active + 1, handlers := s.handlers[Key(m, topic) := m.created.value]))
  }

  /** DeregisterHandler: the handler closes and its onCompleted runs. */
  function Deregister(s: Server, m: Member, topic: seq<string>): Server {
    if Key(m, topic) !in s.handlers then s
    else s.(active := s.active - 1, handlers := s.handlers - {Key(m, topic)})
  }

  /** RegistererSlice.Deregister of the first `n`, in their order. */
  function DeregisterFirst(s: Server, rs: seq<Member>, n: nat, topic: seq<string>): Server
    requires n <= |rs|
  {
    if n == 0 then s else Deregister(DeregisterFirst(s, rs, n - 1, topic), rs[n - 1], topic)
  }

  /** RegistererSlice.Register, when the first `i` have been registered. */
  function RegisterFrom(s: Server, rs: seq<Member>, i: nat, topic: seq<string>): (Option<Error>, Server)
    requires i <= |rs|
    decreases |rs| - i
  {
    if i == |rs| then (None, s)
    else
      var (err, t) := Register(s, rs[i], topic);
      if err.Some? then (err, DeregisterFirst(t, rs, i, topic)) else RegisterFrom(t, rs, i + 1, topic)
  }

  /** The server's own fields; each registration is checked, created and entered without interruption. */
  class RPCServer {
    var handlers: map<string, HandlerId>
    var active: int
    var shutdown: bool

    ghost function View(): Server
      reads this
    {
      Server(handlers, active, shutdown)
    }

    constructor ()
      ensures View() == Server(map[], 0, false)
    {
      handlers, active, shutdown := map[], 0, false;
    }

    method RegisterHandler(m: Member, topic: seq<string>) returns (err: Option<Error>)
      modifies this
      ensures (err, View()) == Register(old(View()), m, topic)
    {
      if shutdown {
        return Some(ServerClosed);
      }
      var key := Channels.HandlerKey(m.rpc, topic);
      if key in handlers {
        return Some(HandlerExists);
      }
      if m.created.Err? {
        return Some(CreateFailed(m.created.error));
      }
      active := active + 1;
      handlers := handlers[key := m.created.value];
      return None;
    }

    method DeregisterHandler(m: Member, topic: seq<string>)
      modifies this
      ensures View() == Deregister(old(View()), m, topic)
    {
      var key := Channels.HandlerKey(m.rpc, topic);
      if key in handlers {
        active := active - 1;
        handlers := handlers - {key};
      }
    }

    /** All-or-nothing, by lemma `AllOrNothing`. */
    method RegisterGroup(rs: seq<Member>, topic: seq<string>) returns (err: Option<Error>)
      modifies this
      ensures (err, View()) == RegisterFrom(old(View()), rs, 0, topic)
      ensures err.Some? ==> View() == old(View())
    {
      hide Register, DeregisterFirst, Registrable, Entered;
      AllOrNothing(View(), rs, topic);
      var i := 0;
      while i < |rs|
        invariant i <= |rs|
        invariant RegisterFrom(View(), rs, i, topic) == RegisterFrom(old(View()), rs, 0, topic)
      {
        err := RegisterHandler(rs[i], topic);
        if err.Some? {
          DeregisterGroup(rs, i, topic);
          return;
        }
        i := i + 1;
      }
      return None;
    }

    method DeregisterGroup(rs: seq<Member>, n: nat, topic: seq<string>)
      requires n <= |rs|
      modifies this
      ensures View() == DeregisterFirst(old(View()), rs, n, topic)
    {
      var i := 0;
      while i < n
        invariant i <= n && View() == DeregisterFirst(old(View()), rs, i, topic)
      {
        DeregisterHandler(rs[i], topic);
        i := i + 1;
      }
    }
  }

  predicate HandledBy(t: Server, m: Member, topic: seq<string>) {
    m.created.Ok? && Key(m, topic) in t.handlers && t.handlers[Key(m, topic)] == m.created.value
  }

  /** `t` is `s` with the first `n` members entered, none of whose keys `s` had. */
  ghost predicate Entered(s: Server, rs: seq<Member>, n: nat, topic: seq<string>, t: Server)
    requires n <= |rs|
  {
    && t.shutdown == s.shutdown && t.active == s.active + n
    && (forall i :: 0 <= i < n ==> IsNew(s, rs, i, topic))
    && t.handlers.Keys == s.handlers.Keys + KeysOf(rs, n, topic)
    && (forall k :: k in s.handlers ==> t.handlers[k] == s.handlers[k])
    && (forall i :: 0 <= i < n ==> HandledBy(t, rs[i], topic))
  }

  function KeysOf(rs: seq<Member>, n: nat, topic: seq<string>): set<string>
    requires n <= |rs|
  {
    if n == 0 then {} else KeysOf(rs, n - 1, topic) + {Key(rs[n - 1], topic)}
  }

  lemma {:induction false} KeysOfFirst(rs: seq<Member>, n: nat, topic: seq<string>)
    requires n <= |rs|
    ensures forall k :: k in KeysOf(rs, n, topic) <==> exists i :: 0 <= i < n && Key(rs[i], topic) == k
  {
    hide Key;
    if n > 0 {
      KeysOfFirst(rs, n - 1, topic);
    }
  }

  /** Member `i`'s key is in use neither before the group nor by an earlier member. */
  ghost predicate IsNew(s: Server, rs: seq<Member>, i: nat, topic: seq<string>)
    requires i < |rs|
  {
    && Key(rs[i], topic) !in s.handlers
    && forall j :: 0 <= j < i ==> Key(rs[j], topic) != Key(rs[i], topic)
  }

  lemma EnterOne(s: Server, rs: seq<Member>, n: nat, topic: seq<string>, t: Server)
    requires n < |rs| && Entered(s, rs, n, topic, t)
    ensures var (err, t') := Register(t, rs[n], topic);
      if err.None? then Entered(s, rs, n + 1, topic, t') else t' == t
    ensures Register(t, rs[n], topic).0.None? <==> !s.shutdown && rs[n].created.Ok? && IsNew(s, rs, n, topic)
  {
    hide Key;
    KeysOfFirst(rs, n, topic);
  }

  lemma RemoveTwice(m: map<string, HandlerId>, keys: set<string>, k: string)
    ensures m - keys - {k} == m - (keys + {k})
  {}

  /** What the rollback has left after taking out the first `i` of `n`. */
  lemma {:induction false} Rollback(s: Server, rs: seq<Member>, n: nat, topic: seq<string>, t: Server, i: nat)
    requires i <= n <= |rs| && Entered(s, rs, n, topic, t)
    ensures var u := DeregisterFirst(t, rs, i, topic);
      && u.shutdown == t.shutdown && u.active == t.active - i
      && u.handlers == t.handlers - KeysOf(rs, i, topic)
  {
    hide Key;
    if i == 0 {
      assert t.handlers - {} == t.handlers;
    } else {
      Rollback(s, rs, n, topic, t, i - 1);
      var k := Key(rs[i - 1], topic);
      assert k in t.handlers && k !in KeysOf(rs, i - 1, topic) by {
        KeysOfFirst(rs, i - 1, topic);
        KeysOfFirst(rs, n, topic);
        assert IsNew(s, rs, i - 1, topic);
      }
      RemoveTwice(t.handlers, KeysOf(rs, i - 1, topic), k);
    }
  }

  lemma RollbackUndoes(s: Server, rs: seq<Member>, n: nat, topic: seq<string>, t: Server)
    requires n <= |rs| && Entered(s, rs, n, topic, t)
    ensures DeregisterFirst(t, rs, n, topic) == s
  {
    hide Key;
    Rollback(s, rs, n, topic, t, n);
    KeysOfFirst(rs, n, topic);
    var u := DeregisterFirst(t, rs, n, topic);
    forall k | k in KeysOf(rs, n, topic) ensures k !in s.handlers {
      var i :| 0 <= i < n && Key(rs[i], topic) == k;
      assert IsNew(s, rs, i, topic);
    }
    assert u.handlers == s.handlers;
  }

  /** Whether the members from `i` on can all be entered. */
  ghost predicate Registrable(s: Server, rs: seq<Member>, i: nat, topic: seq<string>) {
    forall j :: i <= j < |rs| ==> !s.shutdown && rs[j].created.Ok? && IsNew(s, rs, j, topic)
  }

  lemma {:induction false} FromHere(s: Server, rs: seq<Member>, i: nat, topic: seq<string>, t: Server)
    requires i <= |rs| && Entered(s, rs, i, topic, t)
    ensures var (err, u) := RegisterFrom(t, rs, i, topic);
      && (err.None? <==> Registrable(s, rs, i, topic))
      && if err.None? then Entered(s, rs, |rs|, topic, u) else u == s
    decreases |rs| - i
  {
    hide Entered, IsNew, Register;
    if i < |rs| {
      EnterOne(s, rs, i, topic, t);
      var (err, t') := Register(t, rs[i], topic);
      if err.None? {
        FromHere(s, rs, i + 1, topic, t');
      } else {
        RollbackUndoes(s, rs, i, topic, t);
      }
    }
  }

  /** A group is registered as a whole or the server is as before; and it is registered exactly
      when the server is open and every member can be created under a key of its own. */
  lemma AllOrNothing(s: Server, rs: seq<Member>, topic: seq<string>)
    ensures var (err, t) := RegisterFrom(s, rs, 0, topic);
      && (err.None? <==> Registrable(s, rs, 0, topic))
      && if err.None? then Entered(s, rs, |rs|, topic, t) else t == s
  {
    assert s.handlers.Keys + KeysOf(rs, 0, topic) == s.handlers.Keys;
    FromHere(s, rs, 0, topic, s);
  }

  /** Deregistering a registered group restores the server. */
  lemma DeregisterUndoesRegister(s: Server, rs: seq<Member>, topic: seq<string>)
    requires RegisterFrom(s, rs, 0, topic).0.None?
    ensures DeregisterFirst(RegisterFrom(s, rs, 0, topic).1, rs, |rs|, topic) == s
  {
    AllOrNothing(s, rs, topic);
    RollbackUndoes(s, rs, |rs|, topic, RegisterFrom(s, rs, 0, topic).1);
  }

  /** The active count is the number of handlers, whatever is registered and deregistered. */
  ghost predicate Counted(s: Server) {
    s.active == |s.handlers|
  }

  lemma OneStepKeepsCount(s: Server, m: Member, topic: seq<string>)
    requires Counted(s)
    ensures Counted(Register(s, m, topic).1) && Counted(Deregister(s, m, topic))
  {
    var k := Key(m, topic);
    if k in s.handlers {
      assert s.handlers.Keys == (s.handlers - {k}).Keys + {k};
      assert |s.handlers| == |s.handlers - {k}| + 1;
    } else if m.created.Ok? {
      var after := s.handlers[k := m.created.value];
      assert after.Keys == s.handlers.Keys + {k};
      assert |after| == |s.handlers| + 1;
    }
  }

  lemma {:induction false} DeregisterKeepsCount(s: Server, rs: seq<Member>, n: nat, topic: seq<string>)
    requires Counted(s) && n <= |rs|
    ensures Counted(DeregisterFirst(s, rs, n, topic))
  {
    hide Counted, Deregister;
    if n > 0 {
      DeregisterKeepsCount(s, rs, n - 1, topic);
      OneStepKeepsCount(DeregisterFirst(s, rs, n - 1, topic), rs[n - 1], topic);
    }
  }

  lemma {:induction false} GroupKeepsCount(s: Server, rs: seq<Member>, i: nat, topic: seq<string>)
    requires Counted(s) && i <= |rs|
    ensures Counted(RegisterFrom(s, rs, i, topic).1)
    decreases |rs| - i
  {
    if i < |rs| {
      OneStepKeepsCount(s, rs[i], topic);
      var (err, t) := Register(s, rs[i], topic);
      if err.Some? {
        DeregisterKeepsCount(t, rs, i, topic);
      } else {
        GroupKeepsCount(t, rs, i + 1, topic);
      }
    }
  }

  /** Members with different non-empty rpc names never stand in each other's way. */
  lemma DistinctRpcsRegister(s: Server, rs: seq<Member>, topic: seq<string>)
    requires !s.shutdown && s.handlers == map[]
    requires forall i :: 0 <= i < |rs| ==> rs[i].created.Ok? && rs[i].rpc != ""
    requires forall i, j :: 0 <= i < j < |rs| ==> rs[i].rpc != rs[j].rpc
    ensures RegisterFrom(s, rs, 0, topic).0.None?
  {
    AllOrNothing(s, rs, topic);
    forall i | 0 <= i < |rs| ensures IsNew(s, rs, i, topic) {
      forall j | 0 <= j < i ensures Key(rs[j], topic) != Key(rs[i], topic) {
        Channels.HandlerKeyDetermines(rs[j].rpc, topic, rs[i].rpc, topic);
      }
    }
  }

  /** Why the first `i` members could be entered and member `i` could not. */
  ghost predicate Reason(s: Server, rs: seq<Member>, i: nat, topic: seq<string>, e: Error)
    requires i < |rs|
  {
    if s.shutdown then e == ServerClosed
    else if !IsNew(s, rs, i, topic) then e == HandlerExists
    else rs[i].created.Err? && e == CreateFailed(rs[i].created.error)
  }

  ghost predicate FailsFirst(s: Server, rs: seq<Member>, i: nat, topic: seq<string>)
    requires i < |rs|
  {
    && !(!s.shutdown && rs[i].created.Ok? && IsNew(s, rs, i, topic))
    && forall j :: 0 <= j < i ==> !s.shutdown && rs[j].created.Ok? && IsNew(s, rs, j, topic)
  }

  lemma RegisterReason(s: Server, rs: seq<Member>, n: nat, topic: seq<string>, t: Server)
    requires n < |rs| && Entered(s, rs, n, topic, t)
    ensures Register(t, rs[n], topic).0.Some? ==> Reason(s, rs, n, topic, Register(t, rs[n], topic).0.value)
  {
    hide Key;
    KeysOfFirst(rs, n, topic);
  }

  lemma {:induction false} ReasonFromHere(s: Server, rs: seq<Member>, i: nat, topic: seq<string>, t: Server, k: nat)
    requires i <= k < |rs| && Entered(s, rs, i, topic, t) && FailsFirst(s, rs, k, topic)
    ensures var err := RegisterFrom(t, rs, i, topic).0;
      err.Some? && Reason(s, rs, k, topic, err.value)
    decreases k - i
  {
    hide Entered, IsNew, Register;
    EnterOne(s, rs, i, topic, t);
    RegisterReason(s, rs, i, topic, t);
    if i < k {
      ReasonFromHere(s, rs, i + 1, topic, Register(t, rs[i], topic).1, k);
    }
  }

  /** A group that cannot be registered reports why its first failing member failed: the server is closed,
      the member's key is taken by a handler or an earlier member, or it cannot be created. */
  lemma FirstFailureIsReported(s: Server, rs: seq<Member>, topic: seq<string>, k: nat)
    requires k < |rs| && FailsFirst(s, rs, k, topic)
    ensures var err := RegisterFrom(s, rs, 0, topic).0;
      err.Some? && Reason(s, rs, k, topic, err.value)
  {
    assert s.handlers.Keys + KeysOf(rs, 0, topic) == s.handlers.Keys;
    ReasonFromHere(s, rs, 0, topic, s, k);
  }

  /** On an open server a member can be registered exactly under a topic whose surviving part its method
      is not registered under yet. */
  lemma TopicsAreApart(s: Server, m: Member, topic: seq<string>, others: seq<(string, seq<string>)>)
    requires !s.shutdown && m.created.Ok? && m.rpc != ""
    requires forall o :: o in others ==> o.0 != ""
    requires s.handlers.Keys == set o | o in others :: Channels.HandlerKey(o.0, o.1)
    ensures Register(s, m, topic).0.None?
      <==> forall o :: o in others && o.0 == m.rpc ==> Channels.Canon(o.1) != Channels.Canon(topic)
  {
    hide Channels.HandlerKey, Channels.Canon;
    forall o | o in others
      ensures Channels.HandlerKey(o.0, o.1) == Channels.HandlerKey(m.rpc, topic)
        <==> o.0 == m.rpc && Channels.Canon(o.1) == Channels.Canon(topic)
    {
      Channels.HandlerKeyDetermines(o.0, o.1, m.rpc, topic);
    }
  }
}
