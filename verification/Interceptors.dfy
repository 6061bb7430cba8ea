/**
 Interceptor chains (internal/interceptors/interceptor.go). The server chain hands every
 interceptor the same `next` function, which finds its place by one shared cursor; it is
 compared with the nested composition in which each interceptor calls the one after it.
 */
module Interceptors {
  type Req(!new)
  type Res(!new)
  type World(!new)

  /** What an interceptor does next: call its handler, or return. Either may change the world. */
  datatype Action = Call(req: Req, world: World) | Return(res: Res, world: World)

  /** An interceptor's code, given its request and its handler's answers so far; it calls its
      handler at most `maxCalls` times, which is arbitrary. */
  datatype Interceptor = Interceptor(
    maxCalls: nat,
    step: (Req, seq<Res>, World) -> Action,
    finish: (Req, seq<Res>, World) -> (Res, World))

  /** Enter: interceptor `k` starts, or the handler proper when `k` is the number of interceptors.
      Handle: interceptor `k` calls its handler for the `j`-th time, counted from 0. */
  datatype Event = Enter(k: nat, req: Req) | Handle(k: nat, j: nat, req: Req)

  datatype State = State(world: World, trace: seq<Event>)

  datatype Chain = Chain(interceptors: seq<Interceptor>, base: (Req, World) -> (Res, World))

  function Log(s: State, e: Event): State {
    s.(trace := s.trace + [e])
  }

  function Decide(c: Interceptor, req: Req, answers: seq<Res>, world: World): Action {
    if |answers| < c.maxCalls then c.step(req, answers, world)
    else var (res, after) := c.finish(req, answers, world); Return(res, after)
  }

  // ---------- the nested composition ----------

  /** Calls interceptor `k`, or the handler proper. */
  function Nested(c: Chain, k: nat, req: Req, s: State): (r: (Res, State))
    requires k <= |c.interceptors|
    ensures s.trace + [Enter(k, req)] <= r.1.trace
    decreases |c.interceptors| - k, 1, 0
  {
    if k == |c.interceptors| then
      var (res, world) := c.base(req, s.world);
      (res, Log(s, Enter(k, req)).(world := world))
    else NestedFrom(c, k, req, [], Log(s, Enter(k, req)))
  }

  /** Interceptor `k` after some answers of its handler. */
  function NestedFrom(c: Chain, k: nat, req: Req, answers: seq<Res>, s: State): (r: (Res, State))
    requires k < |c.interceptors| && |answers| <= c.interceptors[k].maxCalls
    ensures s.trace <= r.1.trace
    decreases |c.interceptors| - k, 0, c.interceptors[k].maxCalls - |answers|
  {
    var action := Decide(c.interceptors[k], req, answers, s.world);
    if action.Return? then (action.res, s.(world := action.world))
    else
      var called := Log(s, Handle(k, |answers|, action.req)).(world := action.world);
      var (res, after) := Nested(c, k + 1, action.req, called);
      NestedFrom(c, k, req, answers + [res], after)
  }

  // ---------- the shared cursor ----------

  /** state.next with the cursor at `i`; the cursor's new place comes back too. */
  function Shared(c: Chain, i: nat, req: Req, s: State): (r: (Res, nat, State))
    requires i < |c.interceptors|
    ensures i <= r.1 < |c.interceptors| && (i + 1 < |c.interceptors| ==> i + 1 <= r.1)
    ensures s.trace + [Enter(i, req)] <= r.2.trace
    decreases |c.interceptors| - i, 1, 0
  {
    if i == |c.interceptors| - 1 then
      var (res, after) := NestedFrom(c, i, req, [], Log(s, Enter(i, req)));
      (res, i, after)
    else SharedFrom(c, i, i + 1, req, [], Log(s, Enter(i, req)))
  }

  /** Interceptor `k` after some answers, with the cursor at `i`. */
  function SharedFrom(c: Chain, k: nat, i: nat, req: Req, answers: seq<Res>, s: State): (r: (Res, nat, State))
    requires k < i < |c.interceptors| && |answers| <= c.interceptors[k].maxCalls
    ensures i <= r.1 < |c.interceptors| && s.trace <= r.2.trace
    decreases |c.interceptors| - i, 2, c.interceptors[k].maxCalls - |answers|
  {
    var action := Decide(c.interceptors[k], req, answers, s.world);
    if action.Return? then (action.res, i, s.(world := action.world))
    else
      var (res, i', after) :=
        Shared(c, i, action.req, Log(s, Handle(k, |answers|, action.req)).(world := action.world));
      SharedFrom(c, k, i', req, answers + [res], after)
  }

  /** The chained interceptor around `c.base`: without interceptors there is none. */
  function ServerChain(c: Chain, req: Req, s: State): (Res, State) {
    if |c.interceptors| < 2 then Nested(c, 0, req, s)
    else var r := Shared(c, 0, req, s); (r.0, r.2)
  }

  /** The closure state of one call of the chained interceptor. */
  class Cursor {
    const chain: Chain
    var i: nat

    constructor (chain: Chain)
      ensures this.chain == chain && i == 0
    {
      this.chain, i := chain, 0;
    }

    /** state.next */
    method Next(req: Req, s: State) returns (res: Res, after: State)
      requires i < |chain.interceptors|
      modifies this
      ensures (res, i, after) == Shared(chain, old(i), req, s)
      decreases |chain.interceptors| - i, 1
    {
      if i == |chain.interceptors| - 1 {
        var r := NestedFrom(chain, i, req, [], Log(s, Enter(i, req)));
        return r.0, r.1;
      }
      i := i + 1;
      res, after := RunInterceptor(i - 1, req, Log(s, Enter(i - 1, req)));
    }

    /** Interceptor `k`, whose handler is `Next`. */
    method RunInterceptor(k: nat, req: Req, s: State) returns (res: Res, after: State)
      requires k < i < |chain.interceptors|
      modifies this
      ensures (res, i, after) == SharedFrom(chain, k, old(i), req, [], s)
      decreases |chain.interceptors| - i, 2
    {
      var answers := [];
      after := s;
      var action := Decide(chain.interceptors[k], req, answers, after.world);
      while action.Call?
        invariant old(i) <= i < |chain.interceptors| && |answers| <= chain.interceptors[k].maxCalls
        invariant action == Decide(chain.interceptors[k], req, answers, after.world)
        invariant SharedFrom(chain, k, old(i), req, [], s) == SharedFrom(chain, k, i, req, answers, after)
        decreases chain.interceptors[k].maxCalls - |answers|
      {
        var answer;
        answer, after := Next(action.req, Log(after, Handle(k, |answers|, action.req)).(world := action.world));
        answers := answers + [answer];
        action := Decide(chain.interceptors[k], req, answers, after.world);
      }
      return action.res, after.(world := action.world);
    }
  }

  // ---------- when the two agree ----------

  /** No interceptor but the last two has called its handler a second time. */
  ghost predicate Tame(c: Chain, trace: seq<Event>) {
    forall e :: e in trace && e.Handle? && e.j > 0 ==> e.k + 2 >= |c.interceptors|
  }

  ghost predicate Differ(a: seq<Event>, b: seq<Event>) {
    exists p :: 0 <= p < |a| && p < |b| && a[p] != b[p]
  }

  lemma DifferGrows(a: seq<Event>, b: seq<Event>, a': seq<Event>, b': seq<Event>)
    requires Differ(a, b) && a <= a' && b <= b'
    ensures Differ(a', b')
  {
    var p :| 0 <= p < |a| && p < |b| && a[p] != b[p];
    assert a'[p] != b'[p];
  }

  lemma UntameGrows(c: Chain, a: seq<Event>, b: seq<Event>)
    requires a <= b && Tame(c, b)
    ensures Tame(c, a)
  {
    assert forall e :: e in a ==> e in b;
  }

  /** The two outcomes are the same, or the traces show a difference. */
  ghost predicate Agree(c: Chain, n: (Res, State), s: (Res, nat, State)) {
    if Tame(c, n.1.trace) then s.0 == n.0 && s.2 == n.1 else Differ(s.2.trace, n.1.trace)
  }

  lemma {:induction false} LastIsTame(c: Chain, req: Req, answers: seq<Res>, s: State)
    requires c.interceptors != [] && |answers| <= c.interceptors[|c.interceptors| - 1].maxCalls && Tame(c, s.trace)
    ensures Tame(c, NestedFrom(c, |c.interceptors| - 1, req, answers, s).1.trace)
    decreases c.interceptors[|c.interceptors| - 1].maxCalls - |answers|
  {
    var k := |c.interceptors| - 1;
    var action := Decide(c.interceptors[k], req, answers, s.world);
    if action.Call? {
      var called := Log(s, Handle(k, |answers|, action.req)).(world := action.world);
      var (res, after) := Nested(c, k + 1, action.req, called);
      LastIsTame(c, req, answers + [res], after);
    }
  }

  lemma {:induction false} NextAgrees(c: Chain, i: nat, req: Req, s: State)
    requires i < |c.interceptors| && Tame(c, s.trace)
    ensures Agree(c, Nested(c, i, req, s), Shared(c, i, req, s))
    decreases |c.interceptors| - i, 1, 0
  {
    var entered := Log(s, Enter(i, req));
    assert Tame(c, entered.trace);
    if i == |c.interceptors| - 1 {
      LastIsTame(c, req, [], entered);
    } else {
      InterceptorAgrees(c, i, i + 1, req, [], entered);
    }
  }

  lemma {:induction false} InterceptorAgrees(c: Chain, k: nat, i: nat, req: Req, answers: seq<Res>, s: State)
    requires k < i < |c.interceptors| && |answers| <= c.interceptors[k].maxCalls && Tame(c, s.trace)
    requires if answers == [] then i == k + 1 else k + 2 < |c.interceptors| ==> k + 2 <= i
    ensures Agree(c, NestedFrom(c, k, req, answers, s), SharedFrom(c, k, i, req, answers, s))
    decreases |c.interceptors| - i, 2, c.interceptors[k].maxCalls - |answers|
  {
    var n, m := NestedFrom(c, k, req, answers, s), SharedFrom(c, k, i, req, answers, s);
    var action := Decide(c.interceptors[k], req, answers, s.world);
    if action.Call? {
      var e := Handle(k, |answers|, action.req);
      var called := Log(s, e).(world := action.world);
      var inner, other := Nested(c, k + 1, action.req, called), Shared(c, i, action.req, called);
      if i == k + 1 {
        assert Tame(c, called.trace);
        NextAgrees(c, i, action.req, called);
        if Tame(c, inner.1.trace) {
          InterceptorAgrees(c, k, other.1, req, answers + [inner.0], inner.1);
        } else {
          if Tame(c, n.1.trace) {
            UntameGrows(c, inner.1.trace, n.1.trace);
          }
          DifferGrows(other.2.trace, inner.1.trace, m.2.trace, n.1.trace);
        }
      } else {
        assert e in called.trace && called.trace <= n.1.trace;
        var p := |called.trace|;
        assert (called.trace + [Enter(k + 1, action.req)])[p] != (called.trace + [Enter(i, action.req)])[p];
        DifferGrows(called.trace + [Enter(i, action.req)], called.trace + [Enter(k + 1, action.req)],
                    m.2.trace, n.1.trace);
      }
    }
  }

  /** The chain with the shared cursor does what the nested composition does, in the same order
      and with the same result, exactly when no interceptor before the last two calls its handler twice. */
  lemma SameAsNestedExactly(c: Chain, req: Req, world: World)
    ensures ServerChain(c, req, State(world, [])) == Nested(c, 0, req, State(world, []))
       <==> |c.interceptors| < 2 || Tame(c, Nested(c, 0, req, State(world, [])).1.trace)
  {
    if |c.interceptors| >= 2 {
      NextAgrees(c, 0, req, State(world, []));
    }
  }

  /** Every handler call is one of the calls its interceptor is allowed. */
  ghost predicate WithinCalls(c: Chain, trace: seq<Event>) {
    forall e :: e in trace && e.Handle? ==> e.k < |c.interceptors| && e.j < c.interceptors[e.k].maxCalls
  }

  lemma {:induction false} NestedWithinCalls(c: Chain, k: nat, req: Req, s: State)
    requires k <= |c.interceptors| && WithinCalls(c, s.trace)
    ensures WithinCalls(c, Nested(c, k, req, s).1.trace)
    decreases |c.interceptors| - k, 1, 0
  {
    if k < |c.interceptors| {
      InterceptorWithinCalls(c, k, req, [], Log(s, Enter(k, req)));
    }
  }

  lemma {:induction false} InterceptorWithinCalls(c: Chain, k: nat, req: Req, answers: seq<Res>, s: State)
    requires k < |c.interceptors| && |answers| <= c.interceptors[k].maxCalls && WithinCalls(c, s.trace)
    ensures WithinCalls(c, NestedFrom(c, k, req, answers, s).1.trace)
    decreases |c.interceptors| - k, 0, c.interceptors[k].maxCalls - |answers|
  {
    var action := Decide(c.interceptors[k], req, answers, s.world);
    if action.Call? {
      var called := Log(s, Handle(k, |answers|, action.req)).(world := action.world);
      NestedWithinCalls(c, k + 1, action.req, called);
      var (res, after) := Nested(c, k + 1, action.req, called);
      InterceptorWithinCalls(c, k, req, answers + [res], after);
    }
  }

  /** So interceptors that call their handler at most once can be chained in any number. */
  lemma CallingOnceIsEnough(c: Chain, req: Req, world: World)
    requires forall k :: 0 <= k < |c.interceptors| - 2 ==> c.interceptors[k].maxCalls <= 1
    ensures ServerChain(c, req, State(world, [])) == Nested(c, 0, req, State(world, []))
  {
    SameAsNestedExactly(c, req, world);
    NestedWithinCalls(c, 0, req, State(world, []));
  }

  /** An interceptor that calls its handler once, with its own request, and returns its answer. */
  ghost predicate PassesThrough(i: Interceptor) {
    && i.maxCalls == 1
    && (forall req, world :: i.step(req, [], world) == Call(req, world))
    && (forall req, res, world :: i.finish(req, [res], world) == (res, world))
  }

  /** Enter 0, handle 0, enter 1, ... up to the handler proper. */
  function PassTrace(k: nat, n: nat, req: Req): seq<Event>
    requires k <= n
    decreases n - k
  {
    if k == n then [Enter(k, req)] else [Enter(k, req), Handle(k, 0, req)] + PassTrace(k + 1, n, req)
  }

  lemma {:induction false} NestedPasses(c: Chain, k: nat, req: Req, s: State)
    requires k <= |c.interceptors| && forall i :: i in c.interceptors ==> PassesThrough(i)
    ensures var (res, world) := c.base(req, s.world);
      Nested(c, k, req, s) == (res, State(world, s.trace + PassTrace(k, |c.interceptors|, req)))
    decreases |c.interceptors| - k
  {
    if k < |c.interceptors| {
      var i := c.interceptors[k];
      assert PassesThrough(i);
      var entered := Log(s, Enter(k, req));
      var called := Log(entered, Handle(k, 0, req));
      NestedPasses(c, k + 1, req, called);
      var (res, after) := Nested(c, k + 1, req, called);
      assert NestedFrom(c, k, req, [], entered) == NestedFrom(c, k, req, [] + [res], after);
      assert [] + [res] == [res];
      assert called.trace + PassTrace(k + 1, |c.interceptors|, req) == s.trace + PassTrace(k, |c.interceptors|, req);
    }
  }

  /** A chain of interceptors that pass everything on returns the handler's answer, and enters them in
      their order, each once. */
  lemma TransparentChain(c: Chain, req: Req, world: World)
    requires forall i :: i in c.interceptors ==> PassesThrough(i)
    ensures var (res, after) := c.base(req, world);
      ServerChain(c, req, State(world, [])) == (res, State(after, PassTrace(0, |c.interceptors|, req)))
  {
    forall k | 0 <= k < |c.interceptors| - 2 ensures c.interceptors[k].maxCalls <= 1 {
      assert PassesThrough(c.interceptors[k]);
    }
    CallingOnceIsEnough(c, req, world);
    NestedPasses(c, 0, req, State(world, []));
    assert [] + PassTrace(0, |c.interceptors|, req) == PassTrace(0, |c.interceptors|, req);
  }

  /** Three interceptors of which the first calls its handler twice, as one that retries does. */
  lemma RetryingFirstOfThree(req: Req, res: Res, world: World) returns (c: Chain)
    ensures |c.interceptors| == 3
    ensures ServerChain(c, req, State(world, [])) != Nested(c, 0, req, State(world, []))
  {
    var quiet := Interceptor(0, (r, _, w) => Call(r, w), (_, _, w) => (res, w));
    c := Chain([Interceptor(2, (r, _, w) => Call(r, w), (_, _, w) => (res, w)), quiet, quiet], (_, w) => (res, w));
    var s := Log(State(world, []), Enter(0, req));
    var first := Nested(c, 1, req, Log(s, Handle(0, 0, req)));
    var second := Nested(c, 1, req, Log(first.1, Handle(0, 1, req)).(world := first.1.world));
    assert NestedFrom(c, 0, req, [], s) == NestedFrom(c, 0, req, [] + [first.0], first.1);
    var called := Log(first.1, Handle(0, 1, req));
    assert Handle(0, 1, req) in called.trace && called.trace <= second.1.trace;
    assert second.1.trace <= Nested(c, 0, req, State(world, [])).1.trace;
    SameAsNestedExactly(c, req, world);
  }

  // ---------- the client chain ----------

  /** The first interceptor outermost. */
  function Compose<H>(interceptors: seq<H -> H>, handler: H): H {
    if interceptors == [] then handler else interceptors[0](Compose(interceptors[1..], handler))
  }

  /** A handler that is told who was entered before it. */
  type Tracer = seq<int> -> seq<int>

  /** Interceptor `k` passes on what it is told, and its own number `first + k`. */
  ghost predicate TellsNumber(interceptors: seq<Tracer -> Tracer>, first: nat) {
    forall k, h, told :: 0 <= k < |interceptors| ==> interceptors[k](h)(told) == h(told + [first + k])
  }

  /** Called through the chain, the handler learns that the first interceptor was entered first, and so on inwards. */
  lemma {:induction false} FirstIsOutermost(interceptors: seq<Tracer -> Tracer>, first: nat, handler: Tracer,
                                            told: seq<int>)
    requires TellsNumber(interceptors, first)
    ensures Compose(interceptors, handler)(told) == handler(told + seq(|interceptors|, k => first + k))
    decreases |interceptors|
  {
    if interceptors == [] {
      assert told + seq(0, k => first + k) == told;
    } else {
      var rest := interceptors[1..];
      forall k, h, t | 0 <= k < |rest| ensures rest[k](h)(t) == h(t + [first + 1 + k]) {
        assert interceptors[k + 1](h)(t) == h(t + [first + (k + 1)]);
      }
      FirstIsOutermost(rest, first + 1, handler, told + [first]);
      assert told + [first] + seq(|rest|, k => first + 1 + k) == told + seq(|interceptors|, k => first + k);
    }
  }

  method ChainClientInterceptors<H>(interceptors: seq<H -> H>, handler: H) returns (chained: H)
    ensures chained == Compose(interceptors, handler)
  {
    chained := handler;
    var i := |interceptors|;
    while i > 0
      invariant 0 <= i <= |interceptors| && chained == Compose(interceptors[i..], handler)
    {
      i := i - 1;
      chained := interceptors[i](chained);
      assert interceptors[i..][1..] == interceptors[i + 1..];
    }
    assert interceptors[0..] == interceptors;
  }
}
