/**
 The retry interceptors of pkg/middleware/retry.go with the default policy, nested to any
 depth around a base handler. Option lists are lists of WithRequestTimeout values; replies,
 cancellation and waiting are given by the environment.
 */
module Retry {
  import opened Wrappers

  type Err = string
  const CANCELED: Err := "request canceled"

  /** RetryOptions; `recoverable` is IsRecoverable or the default isTimeout. */
  datatype Level = Level(maxAttempts: int, timeout: int, backoff: int, recoverable: Err -> bool)

  /** What the base handler answers, call by call, for as long as somebody watches; and whether
      the context is done at a check (or before the wait at that check is over). */
  datatype Env = Env(replies: seq<Option<Err>>, done: nat -> bool)

  /** One call of the base handler: its options, and each level's attempt number, outermost first. */
  datatype Call = Call(opts: seq<int>, attempts: seq<int>)

  datatype State = State(calls: seq<Call>, checks: nat)

  /** Running: the base handler was called more often than the environment has replies. */
  datatype Outcome = Finished(err: Option<Err>) | Running

  /** Options apply in order, so the last one wins. */
  function RequestTimeout(opts: seq<int>): int {
    if opts == [] then 0 else opts[|opts| - 1]
  }

  /** requestTimeout, as the loop over the options. */
  method ApplyOptions(opts: seq<int>) returns (timeout: int)
    ensures timeout == RequestTimeout(opts)
  {
    timeout := 0;
    var i := 0;
    while i < |opts|
      invariant i <= |opts| && timeout == RequestTimeout(opts[..i])
    {
      timeout := opts[i];
      i := i + 1;
    }
    assert opts[..i] == opts;
  }

  function NextOptions(opts: seq<int>, timeout: int, caller: int): seq<int> {
    if timeout > 0 && caller == 0 then opts + [timeout] else opts
  }

  /** A call through all `levels`; `caller` is what an outer level passes in the context. */
  function Run(levels: seq<Level>, caller: Option<int>, opts: seq<int>, attempts: seq<int>, env: Env, s: State)
    : (r: (Outcome, State))
    requires |s.calls| <= |env.replies|
    ensures s.calls <= r.1.calls && |r.1.calls| <= |env.replies|
    ensures r.0.Finished? ==> |s.calls| < |r.1.calls|
    ensures r.0.Running? ==> |r.1.calls| == |env.replies|
    decreases |env.replies| - |s.calls|, |levels|, 1
  {
    if levels == [] then
      if |s.calls| == |env.replies| then (Running, s)
      else (Finished(env.replies[|s.calls|]), s.(calls := s.calls + [Call(opts, attempts)]))
    else
      var callerTimeout := if caller.Some? then caller.value else RequestTimeout(opts);
      RunFrom(levels, callerTimeout, opts, attempts, 1, levels[0].timeout, env, s)
  }

  /** The outermost level from its given attempt on. */
  function RunFrom(levels: seq<Level>, caller: int, opts: seq<int>, attempts: seq<int>, attempt: int, timeout: int,
                   env: Env, s: State): (r: (Outcome, State))
    requires |s.calls| <= |env.replies| && levels != []
    ensures s.calls <= r.1.calls && |r.1.calls| <= |env.replies|
    ensures r.0.Finished? ==> |s.calls| < |r.1.calls|
    ensures r.0.Running? ==> |r.1.calls| == |env.replies|
    decreases |env.replies| - |s.calls|, |levels|, 0
  {
    var inner := Run(levels[1..], Some(caller), NextOptions(opts, timeout, caller), attempts + [attempt], env, s);
    var l, t := levels[0], inner.1;
    if inner.0.Running? || inner.0.err.None? then inner
    else if !l.recoverable(inner.0.err.value) || attempt == l.maxAttempts then inner
    else if env.done(t.checks) then (Finished(Some(CANCELED)), t.(checks := t.checks + 1))
    else RunFrom(levels, caller, opts, attempts, attempt + 1, timeout + l.backoff, env, t.(checks := t.checks + 1))
  }

  /** The closure of getRetryWithBackoffParameters with the timeout it captures. */
  class BackoffPolicy {
    const level: Level
    var timeout: int

    constructor (level: Level)
      ensures this.level == level && timeout == level.timeout
    {
      this.level, timeout := level, level.timeout;
    }

    method Next(err: Err, attempt: int) returns (retry: bool, next: int)
      modifies this
      ensures retry <==> level.recoverable(err) && attempt != level.maxAttempts
      ensures timeout == old(timeout) + (if retry then level.backoff else 0) && (retry ==> next == timeout)
    {
      if !level.recoverable(err) || attempt == level.maxAttempts {
        return false, 0;
      }
      timeout := timeout + level.backoff;
      return true, timeout;
    }
  }

  /** The interceptor's handler. */
  method Intercept(levels: seq<Level>, caller: Option<int>, opts: seq<int>, attempts: seq<int>, env: Env, s: State)
    returns (outcome: Outcome, after: State)
    requires |s.calls| <= |env.replies|
    ensures (outcome, after) == Run(levels, caller, opts, attempts, env, s)
    decreases |env.replies| - |s.calls|, |levels|, 1
  {
    if levels == [] {
      if |s.calls| == |env.replies| {
        return Running, s;
      }
      return Finished(env.replies[|s.calls|]), s.(calls := s.calls + [Call(opts, attempts)]);
    }
    var callerTimeout;
    if caller.Some? {
      callerTimeout := caller.value;
    } else {
      callerTimeout := ApplyOptions(opts);
    }
    outcome, after := RetryLoop(levels, callerTimeout, opts, attempts, env, s);
  }

  /** retry. */
  method RetryLoop(levels: seq<Level>, caller: int, opts: seq<int>, attempts: seq<int>, env: Env, s: State)
    returns (outcome: Outcome, after: State)
    requires |s.calls| <= |env.replies| && levels != []
    ensures (outcome, after) == RunFrom(levels, caller, opts, attempts, 1, levels[0].timeout, env, s)
    decreases |env.replies| - |s.calls|, |levels|, 0
  {
    var timeout, attempt := levels[0].timeout, 1;
    var policy := new BackoffPolicy(levels[0]);
    after := s;
    while true
      invariant policy.level == levels[0] && policy.timeout == timeout
      invariant |s.calls| <= |after.calls| <= |env.replies|
      invariant RunFrom(levels, caller, opts, attempts, 1, levels[0].timeout, env, s)
             == RunFrom(levels, caller, opts, attempts, attempt, timeout, env, after)
      decreases |env.replies| - |after.calls|
    {
      var nextOpts := opts;
      if timeout > 0 && caller == 0 {
        nextOpts := opts + [timeout];
      }
      outcome, after := Intercept(levels[1..], Some(caller), nextOpts, attempts + [attempt], env, after);
      if outcome.Running? || outcome.err.None? {
        return;
      }
      var retry, next := policy.Next(outcome.err.value, attempt);
      if !retry {
        return;
      }
      timeout := next;
      attempt := attempt + 1;
      var done := env.done(after.checks);
      after := after.(checks := after.checks + 1);
      if done {
        return Finished(Some(CANCELED)), after;
      }
    }
  }

  // ---------- how often the base handler is called ----------

  ghost predicate Stops(l: Level) {
    l.maxAttempts >= 1 || forall err :: !l.recoverable(err)
  }

  function Limit(l: Level): nat {
    if l.maxAttempts >= 1 then l.maxAttempts else 1
  }

  function Product(levels: seq<Level>): nat {
    if levels == [] then 1 else Limit(levels[0]) * Product(levels[1..])
  }

  ghost predicate AllStop(levels: seq<Level>) {
    forall l :: l in levels ==> Stops(l)
  }

  /** The calls made, and one more that is asked for if the run has not finished. */
  function Asked(r: (Outcome, State), s: State): int {
    |r.1.calls| - |s.calls| + if r.0.Running? then 1 else 0
  }

  /** The base handler is called at most as often as the product of the limits says. */
  lemma {:induction false} CallsAreBounded(levels: seq<Level>, caller: Option<int>, opts: seq<int>, attempts: seq<int>,
                                           env: Env, s: State)
    requires |s.calls| <= |env.replies| && AllStop(levels)
    ensures Asked(Run(levels, caller, opts, attempts, env, s), s) <= Product(levels)
    decreases |env.replies| - |s.calls|, |levels|, 1
  {
    if levels != [] {
      var callerTimeout := if caller.Some? then caller.value else RequestTimeout(opts);
      assert levels[0] in levels;
      LaterCallsAreBounded(levels, callerTimeout, opts, attempts, 1, levels[0].timeout, env, s);
    }
  }

  lemma {:induction false} LaterCallsAreBounded(levels: seq<Level>, caller: int, opts: seq<int>, attempts: seq<int>,
                                                attempt: int, timeout: int, env: Env, s: State)
    requires |s.calls| <= |env.replies| && levels != [] && AllStop(levels) && 1 <= attempt <= Limit(levels[0])
    ensures Asked(RunFrom(levels, caller, opts, attempts, attempt, timeout, env, s), s)
         <= (Limit(levels[0]) - attempt + 1) * Product(levels[1..])
    decreases |env.replies| - |s.calls|, |levels|, 0
  {
    var l, p := levels[0], Product(levels[1..]);
    assert AllStop(levels[1..]) && Stops(l);
    var next := NextOptions(opts, timeout, caller);
    CallsAreBounded(levels[1..], Some(caller), next, attempts + [attempt], env, s);
    var inner := Run(levels[1..], Some(caller), next, attempts + [attempt], env, s);
    var t := inner.1.(checks := inner.1.checks + 1);
    Multiples(Limit(l) - attempt, p);
    if inner.0.Finished? && inner.0.err.Some? && l.recoverable(inner.0.err.value) && attempt != l.maxAttempts
       && !env.done(inner.1.checks) {
      LaterCallsAreBounded(levels, caller, opts, attempts, attempt + 1, timeout + l.backoff, env, t);
    }
  }

  lemma Multiples(k: nat, p: nat)
    ensures (k + 1) * p == k * p + p && k * p >= 0
  {}

  /** Against a base handler that always fails the same way, any error that comes back is its error. */
  lemma {:induction false} SameError(levels: seq<Level>, caller: Option<int>, opts: seq<int>, attempts: seq<int>,
                                     env: Env, s: State, err: Err)
    requires |s.calls| <= |env.replies| && AlwaysFails(env, err)
    ensures Run(levels, caller, opts, attempts, env, s).0 in {Running, Finished(Some(err))}
    decreases |env.replies| - |s.calls|, |levels|, 1
  {
    if levels != [] {
      var callerTimeout := if caller.Some? then caller.value else RequestTimeout(opts);
      SameErrorLater(levels, callerTimeout, opts, attempts, 1, levels[0].timeout, env, s, err);
    }
  }

  lemma {:induction false} SameErrorLater(levels: seq<Level>, caller: int, opts: seq<int>, attempts: seq<int>,
                                          attempt: int, timeout: int, env: Env, s: State, err: Err)
    requires |s.calls| <= |env.replies| && levels != [] && AlwaysFails(env, err)
    ensures RunFrom(levels, caller, opts, attempts, attempt, timeout, env, s).0 in {Running, Finished(Some(err))}
    decreases |env.replies| - |s.calls|, |levels|, 0
  {
    var l, next := levels[0], NextOptions(opts, timeout, caller);
    SameError(levels[1..], Some(caller), next, attempts + [attempt], env, s, err);
    var inner := Run(levels[1..], Some(caller), next, attempts + [attempt], env, s);
    if inner.0.Finished? && l.recoverable(err) && attempt != l.maxAttempts {
      SameErrorLater(levels, caller, opts, attempts, attempt + 1, timeout + l.backoff, env,
                     inner.1.(checks := inner.1.checks + 1), err);
    }
  }

  ghost predicate AlwaysFails(env: Env, err: Err) {
    && (forall i :: 0 <= i < |env.replies| ==> env.replies[i] == Some(err))
    && (forall t :: !env.done(t))
  }

  /** One level without a limit that recovers from the error is enough to go on for ever. */
  lemma {:induction false} GoesOn(levels: seq<Level>, caller: Option<int>, opts: seq<int>, attempts: seq<int>,
                                  env: Env, s: State, err: Err, i: nat)
    requires |s.calls| <= |env.replies| && AlwaysFails(env, err)
    requires i < |levels| && levels[i].maxAttempts < 1 && levels[i].recoverable(err)
    ensures Run(levels, caller, opts, attempts, env, s).0.Running?
    decreases |env.replies| - |s.calls|, |levels|, 1
  {
    var callerTimeout := if caller.Some? then caller.value else RequestTimeout(opts);
    GoesOnLater(levels, callerTimeout, opts, attempts, 1, levels[0].timeout, env, s, err, i);
  }

  lemma {:induction false} GoesOnLater(levels: seq<Level>, caller: int, opts: seq<int>, attempts: seq<int>,
                                       attempt: int, timeout: int, env: Env, s: State, err: Err, i: nat)
    requires |s.calls| <= |env.replies| && AlwaysFails(env, err) && attempt >= 1
    requires i < |levels| && levels[i].maxAttempts < 1 && levels[i].recoverable(err)
    ensures RunFrom(levels, caller, opts, attempts, attempt, timeout, env, s).0.Running?
    decreases |env.replies| - |s.calls|, |levels|, 0
  {
    var l, next := levels[0], NextOptions(opts, timeout, caller);
    if i > 0 {
      GoesOn(levels[1..], Some(caller), next, attempts + [attempt], env, s, err, i - 1);
    } else {
      SameError(levels[1..], Some(caller), next, attempts + [attempt], env, s, err);
      var inner := Run(levels[1..], Some(caller), next, attempts + [attempt], env, s);
      if inner.0.Finished? {
        GoesOnLater(levels, caller, opts, attempts, attempt + 1, timeout + l.backoff, env,
                    inner.1.(checks := inner.1.checks + 1), err, 0);
      }
    }
  }

  const START := State([], 0)

  /** However the base handler behaves, `n` of its calls are enough. */
  ghost predicate StopsWithin(levels: seq<Level>, n: nat) {
    forall opts, env: Env :: |env.replies| >= n ==> Run(levels, None, opts, [], env, START).0.Finished?
  }

  /** There is a bound on the base calls exactly when every level has a limit of at least one
      or recovers from nothing. */
  lemma BoundedExactly(levels: seq<Level>)
    ensures (exists n: nat :: StopsWithin(levels, n)) <==> AllStop(levels)
  {
    if AllStop(levels) {
      forall opts, env: Env | |env.replies| >= Product(levels)
        ensures Run(levels, None, opts, [], env, START).0.Finished?
      {
        CallsAreBounded(levels, None, opts, [], env, START);
      }
      assert StopsWithin(levels, Product(levels));
    }
    if n: nat :| StopsWithin(levels, n) {
      forall l | l in levels ensures Stops(l) {
        var i :| 0 <= i < |levels| && levels[i] == l;
        if !Stops(l) {
          var err :| l.recoverable(err);
          var env := Env(seq(n, _ => Some(err)), _ => false);
          GoesOn(levels, None, [], [], env, START, err, i);
        }
      }
    }
  }

  lemma {:induction false} FailsUntilLimit(levels: seq<Level>, caller: Option<int>, opts: seq<int>, attempts: seq<int>,
                                           env: Env, s: State, err: Err)
    requires |s.calls| + Product(levels) <= |env.replies| && AlwaysFails(env, err)
    requires forall l :: l in levels ==> l.maxAttempts >= 1 && l.recoverable(err)
    ensures var r := Run(levels, caller, opts, attempts, env, s);
      r.0 == Finished(Some(err)) && |r.1.calls| == |s.calls| + Product(levels)
    decreases |env.replies| - |s.calls|, |levels|, 1
  {
    if levels != [] {
      var callerTimeout := if caller.Some? then caller.value else RequestTimeout(opts);
      assert levels[0] in levels;
      LaterFailsUntilLimit(levels, callerTimeout, opts, attempts, 1, levels[0].timeout, env, s, err);
    }
  }

  lemma {:induction false} LaterFailsUntilLimit(levels: seq<Level>, caller: int, opts: seq<int>, attempts: seq<int>,
                                                attempt: int, timeout: int, env: Env, s: State, err: Err)
    requires levels != [] && 1 <= attempt <= levels[0].maxAttempts && AlwaysFails(env, err)
    requires |s.calls| + (levels[0].maxAttempts - attempt + 1) * Product(levels[1..]) <= |env.replies|
    requires |s.calls| <= |env.replies|
    requires forall l :: l in levels ==> l.maxAttempts >= 1 && l.recoverable(err)
    ensures var r := RunFrom(levels, caller, opts, attempts, attempt, timeout, env, s);
      && r.0 == Finished(Some(err))
      && |r.1.calls| == |s.calls| + (levels[0].maxAttempts - attempt + 1) * Product(levels[1..])
    decreases |env.replies| - |s.calls|, |levels|, 0
  {
    hide Run, RunFrom, Product, NextOptions;
    var l, p, next := levels[0], Product(levels[1..]), NextOptions(opts, timeout, caller);
    Multiples(l.maxAttempts - attempt, p);
    assert l in levels;
    FailsUntilLimit(levels[1..], Some(caller), next, attempts + [attempt], env, s, err);
    var inner := Run(levels[1..], Some(caller), next, attempts + [attempt], env, s);
    OneTurn(levels, caller, opts, attempts, attempt, timeout, env, s);
    if attempt < l.maxAttempts {
      LaterFailsUntilLimit(levels, caller, opts, attempts, attempt + 1, timeout + l.backoff, env,
                           inner.1.(checks := inner.1.checks + 1), err);
    }
  }

  /** The bound is met: against a handler that always fails recoverably, with nobody cancelling, exactly the
      product of the limits is tried, and then the error comes back. */
  lemma LimitIsReached(levels: seq<Level>, opts: seq<int>, env: Env, err: Err)
    requires |env.replies| >= Product(levels) && AlwaysFails(env, err)
    requires forall l :: l in levels ==> l.maxAttempts >= 1 && l.recoverable(err)
    ensures var r := Run(levels, None, opts, [], env, START);
      r.0 == Finished(Some(err)) && |r.1.calls| == Product(levels)
  {
    FailsUntilLimit(levels, None, opts, [], env, START, err);
  }

  // ---------- what comes back ----------

  /** Every reply but the last is an error, and the last one is what comes back, unless the context
      was found done at the last check after it had been an error, too. */
  ghost predicate Honest(env: Env, s: State, r: (Outcome, State)) {
    && |s.calls| <= |r.1.calls| <= |env.replies| && s.checks <= r.1.checks
    && (forall k :: |s.calls| <= k < |r.1.calls| - 1 ==> env.replies[k].Some?)
    && match r.0
       case Running => |s.calls| < |r.1.calls| ==> env.replies[|r.1.calls| - 1].Some?
       case Finished(err) =>
         && |s.calls| < |r.1.calls|
         && (err == env.replies[|r.1.calls| - 1] || IsCancellation(env, s, r, err))
  }

  ghost predicate IsCancellation(env: Env, s: State, r: (Outcome, State), err: Option<Err>) {
    && err == Some(CANCELED) && 0 < |r.1.calls| <= |env.replies| && env.replies[|r.1.calls| - 1].Some?
    && s.checks < r.1.checks && env.done(r.1.checks - 1)
  }

  lemma {:induction false} RunIsHonest(levels: seq<Level>, caller: Option<int>, opts: seq<int>, attempts: seq<int>,
                                       env: Env, s: State)
    requires |s.calls| <= |env.replies|
    ensures Honest(env, s, Run(levels, caller, opts, attempts, env, s))
    decreases |env.replies| - |s.calls|, |levels|, 1
  {
    if levels != [] {
      hide Honest;
      var callerTimeout := if caller.Some? then caller.value else RequestTimeout(opts);
      LaterRunIsHonest(levels, callerTimeout, opts, attempts, 1, levels[0].timeout, env, s);
    }
  }

  lemma {:induction false} LaterRunIsHonest(levels: seq<Level>, caller: int, opts: seq<int>, attempts: seq<int>,
                                            attempt: int, timeout: int, env: Env, s: State)
    requires |s.calls| <= |env.replies| && levels != []
    ensures Honest(env, s, RunFrom(levels, caller, opts, attempts, attempt, timeout, env, s))
    decreases |env.replies| - |s.calls|, |levels|, 0
  {
    hide Honest, Run, NextOptions;
    var l, next := levels[0], NextOptions(opts, timeout, caller);
    var inner := Run(levels[1..], Some(caller), next, attempts + [attempt], env, s);
    RunIsHonest(levels[1..], Some(caller), next, attempts + [attempt], env, s);
    var t := inner.1.(checks := inner.1.checks + 1);
    if GoesAgain(levels, attempt, env, inner) {
      LaterRunIsHonest(levels, caller, opts, attempts, attempt + 1, timeout + l.backoff, env, t);
      HonestTurns(env, s, inner, RunFrom(levels, caller, opts, attempts, attempt + 1, timeout + l.backoff, env, t));
    } else {
      HonestCancel(env, s, inner);
    }
  }

  lemma HonestTurns(env: Env, s: State, inner: (Outcome, State), r: (Outcome, State))
    requires Honest(env, s, inner) && inner.0.Finished? && inner.0.err.Some?
    requires Honest(env, inner.1.(checks := inner.1.checks + 1), r)
    ensures Honest(env, s, r)
  {
  }

  lemma HonestCancel(env: Env, s: State, inner: (Outcome, State))
    requires Honest(env, s, inner)
    ensures inner.0.Finished? && inner.0.err.Some? && env.done(inner.1.checks) ==>
      Honest(env, s, (Finished(Some(CANCELED)), inner.1.(checks := inner.1.checks + 1)))
  {
  }

  /** The caller gets the base handler's last reply, or a cancellation after a last reply that was an error;
      nothing is called again after a success; and the call succeeds exactly if its last reply did. */
  lemma LastReplyComesBack(levels: seq<Level>, opts: seq<int>, env: Env)
    ensures var r := Run(levels, None, opts, [], env, START);
      && (forall k :: 0 <= k < |r.1.calls| - 1 ==> env.replies[k].Some?)
      && (r.0.Finished? ==>
            var last := env.replies[|r.1.calls| - 1];
            && (r.0.err == last || IsCancellation(env, START, r, r.0.err))
            && (r.0.err.None? <==> last.None?))
  {
    RunIsHonest(levels, None, opts, [], env, START);
  }

  // ---------- which timeout the base handler gets ----------

  /** The timeout of a level's attempt. */
  function AttemptTimeout(l: Level, attempt: int): int {
    l.timeout + (attempt - 1) * l.backoff
  }

  /** The positive ones among the current attempt timeouts, outermost first. */
  function Positive(levels: seq<Level>, attempts: seq<int>): seq<int>
    requires |levels| == |attempts|
  {
    if levels == [] then []
    else NextOptions([], AttemptTimeout(levels[0], attempts[0]), 0) + Positive(levels[1..], attempts[1..])
  }

  /** Attempt numbers start at one and stay within the limits. */
  ghost predicate InLimits(levels: seq<Level>, attempts: seq<int>)
    requires |levels| == |attempts|
  {
    forall i :: 0 <= i < |levels| ==>
      attempts[i] >= 1 && (levels[i].maxAttempts >= 1 ==> attempts[i] <= levels[i].maxAttempts)
  }

  /** What a base call is given, when the levels outside `levels` are at attempts `outer`. */
  ghost predicate GoodCall(levels: seq<Level>, caller: int, opts: seq<int>, outer: seq<int>, c: Call) {
    exists own :: IsOwn(levels, caller, opts, outer, c, own)
  }

  ghost predicate IsOwn(levels: seq<Level>, caller: int, opts: seq<int>, outer: seq<int>, c: Call, own: seq<int>) {
    && c.attempts == outer + own && |own| == |levels| && InLimits(levels, own)
    && c.opts == if caller == 0 then opts + Positive(levels, own) else opts
  }

  lemma {:induction false} CallsAreGood(levels: seq<Level>, caller: Option<int>, opts: seq<int>, outer: seq<int>,
                                        env: Env, s: State, k: nat)
    requires |s.calls| <= |env.replies|
    requires |s.calls| <= k < |Run(levels, caller, opts, outer, env, s).1.calls|
    ensures GoodCall(levels, if caller.Some? then caller.value else RequestTimeout(opts), opts, outer,
                     Run(levels, caller, opts, outer, env, s).1.calls[k])
    decreases |env.replies| - |s.calls|, |levels|, 1
  {
    var callerTimeout := if caller.Some? then caller.value else RequestTimeout(opts);
    if levels == [] {
      var c := Call(opts, outer);
      assert outer + [] == outer && opts + [] == opts;
      assert IsOwn(levels, callerTimeout, opts, outer, c, []);
    } else {
      LaterCallsAreGood(levels, callerTimeout, opts, outer, 1, levels[0].timeout, env, s, k);
    }
  }

  lemma AddOptions(levels: seq<Level>, caller: int, opts: seq<int>, attempt: int, own: seq<int>)
    requires levels != [] && |own| == |levels| && own[0] == attempt && caller == 0
    ensures NextOptions(opts, AttemptTimeout(levels[0], attempt), caller) + Positive(levels[1..], own[1..])
         == opts + Positive(levels, own)
  {}

  lemma WrapCall(levels: seq<Level>, caller: int, opts: seq<int>, outer: seq<int>, attempt: int, c: Call)
    requires levels != [] && attempt >= 1 && (levels[0].maxAttempts >= 1 ==> attempt <= levels[0].maxAttempts)
    requires GoodCall(levels[1..], caller, NextOptions(opts, AttemptTimeout(levels[0], attempt), caller),
                      outer + [attempt], c)
    ensures GoodCall(levels, caller, opts, outer, c)
  {
    hide Positive;
    var next := NextOptions(opts, AttemptTimeout(levels[0], attempt), caller);
    var rest :| IsOwn(levels[1..], caller, next, outer + [attempt], c, rest);
    var own := [attempt] + rest;
    assert outer + [attempt] + rest == outer + own;
    assert own[1..] == rest;
    if caller == 0 {
      AddOptions(levels, caller, opts, attempt, own);
    }
    assert IsOwn(levels, caller, opts, outer, c, own);
  }

  lemma {:induction false} LaterCallsAreGood(levels: seq<Level>, caller: int, opts: seq<int>, outer: seq<int>,
                                             attempt: int, timeout: int, env: Env, s: State, k: nat)
    requires |s.calls| <= |env.replies| && levels != []
    requires attempt >= 1 && (levels[0].maxAttempts >= 1 ==> attempt <= levels[0].maxAttempts)
    requires timeout == AttemptTimeout(levels[0], attempt)
    requires |s.calls| <= k < |RunFrom(levels, caller, opts, outer, attempt, timeout, env, s).1.calls|
    ensures GoodCall(levels, caller, opts, outer,
                     RunFrom(levels, caller, opts, outer, attempt, timeout, env, s).1.calls[k])
    decreases |env.replies| - |s.calls|, |levels|, 0
  {
    var l, next := levels[0], NextOptions(opts, timeout, caller);
    var inner := Run(levels[1..], Some(caller), next, outer + [attempt], env, s);
    var t := inner.1.(checks := inner.1.checks + 1);
    if k < |inner.1.calls| {
      CallsAreGood(levels[1..], Some(caller), next, outer + [attempt], env, s, k);
      WrapCall(levels, caller, opts, outer, attempt, inner.1.calls[k]);
    } else {
      LaterCallsAreGood(levels, caller, opts, outer, attempt + 1, timeout + l.backoff, env, t, k);
    }
  }

  /** The innermost positive one of the current attempt timeouts, 0 if there is none. */
  function Innermost(levels: seq<Level>, attempts: seq<int>): int
    requires |levels| == |attempts|
  {
    if levels == [] then 0
    else
      var inner := Innermost(levels[1..], attempts[1..]);
      var own := AttemptTimeout(levels[0], attempts[0]);
      if inner > 0 then inner else if own > 0 then own else 0
  }

  lemma {:induction false} InnermostIsLast(levels: seq<Level>, attempts: seq<int>)
    requires |levels| == |attempts|
    ensures Innermost(levels, attempts) == RequestTimeout(Positive(levels, attempts)) >= 0
    ensures Innermost(levels, attempts) > 0 <==> Positive(levels, attempts) != []
  {
    if levels != [] {
      InnermostIsLast(levels[1..], attempts[1..]);
    }
  }

  /** A base call's timeout is the caller's if the caller set one, and otherwise that of the
      innermost level whose current attempt has a positive one; attempt `a` of a level has
      its Timeout and `a - 1` times its Backoff. */
  lemma TimeoutAtBase(levels: seq<Level>, opts: seq<int>, env: Env, k: nat)
    requires k < |Run(levels, None, opts, [], env, START).1.calls|
    ensures var c := Run(levels, None, opts, [], env, START).1.calls[k];
      && |c.attempts| == |levels| && InLimits(levels, c.attempts)
      && RequestTimeout(c.opts)
         == if RequestTimeout(opts) != 0 then RequestTimeout(opts) else Innermost(levels, c.attempts)
  {
    CallsAreGood(levels, None, opts, [], env, START, k);
    var c := Run(levels, None, opts, [], env, START).1.calls[k];
    var own :| IsOwn(levels, RequestTimeout(opts), opts, [], c, own);
    assert [] + own == own;
    InnermostIsLast(levels, c.attempts);
  }

  // ---------- the order of the attempts ----------

  function Ones(n: nat): seq<int> {
    seq(n, _ => 1)
  }

  /** `b` follows `a`: some level makes one more attempt and the levels inside it start again. */
  ghost predicate Follows(a: seq<int>, b: seq<int>, j: nat) {
    && |a| == |b| && j < |a|
    && a[..j] == b[..j] && b[j] == a[j] + 1 && b[j + 1..] == Ones(|b| - j - 1)
  }

  ghost predicate Succeeds(a: seq<int>, b: seq<int>) {
    exists j :: Follows(a, b, j)
  }

  ghost predicate Ordered(calls: seq<Call>, from: nat) {
    forall k :: from <= k < |calls| - 1 ==> Succeeds(calls[k].attempts, calls[k + 1].attempts)
  }

  lemma OneMoreAttempt(outer: seq<int>, attempt: int, a: seq<int>, b: seq<int>)
    requires |outer| < |a| && outer + [attempt] <= a && b == outer + [attempt + 1] + Ones(|a| - |outer| - 1)
    ensures Succeeds(a, b)
  {
    var n := |outer|;
    assert a[n] == (outer + [attempt])[n] && a[..n] == (outer + [attempt])[..n] == outer;
    assert Follows(a, b, n);
  }

  lemma JoinOrdered(calls: seq<Call>, from: nat, n: nat)
    requires from < n <= |calls| && Ordered(calls[..n], from) && Ordered(calls, n)
    requires n < |calls| ==> Succeeds(calls[n - 1].attempts, calls[n].attempts)
    ensures Ordered(calls, from)
  {
    hide Succeeds;
    forall k | from <= k < |calls| - 1 ensures Succeeds(calls[k].attempts, calls[k + 1].attempts) {
      assert k < n - 1 ==> Succeeds(calls[..n][k].attempts, calls[..n][k + 1].attempts);
    }
  }

  lemma StepInOrder(calls: seq<Call>, from: nat, n: nat, outer: seq<int>, attempt: int, depth: nat)
    requires from < n <= |calls| && Ordered(calls[..n], from) && Ordered(calls, n)
    requires |calls[n - 1].attempts| == |outer| + 1 + depth && outer + [attempt] <= calls[n - 1].attempts
    requires n < |calls| ==> calls[n].attempts == outer + [attempt + 1] + Ones(depth)
    ensures Ordered(calls, from)
  {
    hide Succeeds, Ordered;
    if n < |calls| {
      OneMoreAttempt(outer, attempt, calls[n - 1].attempts, calls[n].attempts);
    }
    JoinOrdered(calls, from, n);
  }

  lemma {:induction false} AttemptsInOrder(levels: seq<Level>, caller: Option<int>, opts: seq<int>, outer: seq<int>,
                                           env: Env, s: State)
    requires |s.calls| <= |env.replies|
    ensures var calls := Run(levels, caller, opts, outer, env, s).1.calls;
      && Ordered(calls, |s.calls|)
      && (|s.calls| < |calls| ==> calls[|s.calls|].attempts == outer + Ones(|levels|))
    decreases |env.replies| - |s.calls|, |levels|, 1
  {
    if levels == [] {
      assert outer + Ones(0) == outer;
    } else {
      var callerTimeout := if caller.Some? then caller.value else RequestTimeout(opts);
      LaterAttemptsInOrder(levels, callerTimeout, opts, outer, 1, levels[0].timeout, env, s);
      assert outer + [1] + Ones(|levels| - 1) == outer + Ones(|levels|);
    }
  }

  /** One turn of the loop: either the level is done, or it makes its next attempt. */
  predicate GoesAgain(levels: seq<Level>, attempt: int, env: Env, inner: (Outcome, State))
    requires levels != []
  {
    && inner.0.Finished? && inner.0.err.Some? && levels[0].recoverable(inner.0.err.value)
    && attempt != levels[0].maxAttempts && !env.done(inner.1.checks)
  }

  lemma OneTurn(levels: seq<Level>, caller: int, opts: seq<int>, attempts: seq<int>, attempt: int, timeout: int,
                env: Env, s: State)
    requires |s.calls| <= |env.replies| && levels != []
    ensures var r := RunFrom(levels, caller, opts, attempts, attempt, timeout, env, s);
      var next := NextOptions(opts, timeout, caller);
      var inner := Run(levels[1..], Some(caller), next, attempts + [attempt], env, s);
      if GoesAgain(levels, attempt, env, inner) then
        r == RunFrom(levels, caller, opts, attempts, attempt + 1, timeout + levels[0].backoff, env,
                     inner.1.(checks := inner.1.checks + 1))
      else r.1.calls == inner.1.calls && (attempt == levels[0].maxAttempts ==> r == inner)
  {
    hide Run, NextOptions;
  }

  lemma {:induction false} LaterAttemptsInOrder(levels: seq<Level>, caller: int, opts: seq<int>, outer: seq<int>,
                                                attempt: int, timeout: int, env: Env, s: State)
    requires |s.calls| <= |env.replies| && levels != []
    ensures var calls := RunFrom(levels, caller, opts, outer, attempt, timeout, env, s).1.calls;
      && Ordered(calls, |s.calls|)
      && (|s.calls| < |calls| ==> calls[|s.calls|].attempts == outer + [attempt] + Ones(|levels| - 1))
    decreases |env.replies| - |s.calls|, |levels|, 0
  {
    hide Ordered, Succeeds, Ones, Positive, Run, RunFrom, NextOptions;
    var l, next := levels[0], NextOptions(opts, timeout, caller);
    AttemptsInOrder(levels[1..], Some(caller), next, outer + [attempt], env, s);
    var inner := Run(levels[1..], Some(caller), next, outer + [attempt], env, s);
    OneTurn(levels, caller, opts, outer, attempt, timeout, env, s);
    if GoesAgain(levels, attempt, env, inner) {
      var t := inner.1.(checks := inner.1.checks + 1);
      LaterAttemptsInOrder(levels, caller, opts, outer, attempt + 1, timeout + l.backoff, env, t);
      var calls := RunFrom(levels, caller, opts, outer, attempt, timeout, env, s).1.calls;
      var n := |inner.1.calls|;
      assert calls[..n] == inner.1.calls;
      CallsAreGood(levels[1..], Some(caller), next, outer + [attempt], env, s, n - 1);
      var own :| IsOwn(levels[1..], caller, next, outer + [attempt], calls[n - 1], own);
      StepInOrder(calls, |s.calls|, n, outer, attempt, |levels| - 1);
    }
  }

  // ---------- why it stops ----------

  /** No level goes on: the error is not recoverable for it, or it is at its last attempt. */
  ghost predicate GivesUp(levels: seq<Level>, outer: nat, c: Call, err: Err) {
    && |c.attempts| == outer + |levels|
    && forall i :: 0 <= i < |levels| ==> GivesUpAt(levels, outer, c, err, i)
  }

  predicate GivesUpAt(levels: seq<Level>, outer: nat, c: Call, err: Err, i: nat)
    requires i < |levels| && |c.attempts| == outer + |levels|
  {
    !levels[i].recoverable(err) || c.attempts[outer + i] == levels[i].maxAttempts
  }

  ghost predicate HasReason(levels: seq<Level>, outer: nat, env: Env, s: State, r: (Outcome, State)) {
    r.0.Finished? && r.0.err.Some? ==>
      || IsCancellation(env, s, r, r.0.err)
      || (r.1.calls != [] && GivesUp(levels, outer, r.1.calls[|r.1.calls| - 1], r.0.err.value))
  }

  lemma {:induction false} RunHasReason(levels: seq<Level>, caller: Option<int>, opts: seq<int>, outer: seq<int>,
                                        env: Env, s: State)
    requires |s.calls| <= |env.replies|
    ensures HasReason(levels, |outer|, env, s, Run(levels, caller, opts, outer, env, s))
    decreases |env.replies| - |s.calls|, |levels|, 1
  {
    if levels != [] {
      hide HasReason;
      var callerTimeout := if caller.Some? then caller.value else RequestTimeout(opts);
      LaterRunHasReason(levels, callerTimeout, opts, outer, 1, levels[0].timeout, env, s);
    }
  }

  lemma {:induction false} LaterRunHasReason(levels: seq<Level>, caller: int, opts: seq<int>, outer: seq<int>,
                                             attempt: int, timeout: int, env: Env, s: State)
    requires |s.calls| <= |env.replies| && levels != []
    ensures HasReason(levels, |outer|, env, s, RunFrom(levels, caller, opts, outer, attempt, timeout, env, s))
    decreases |env.replies| - |s.calls|, |levels|, 0
  {
    hide HasReason, GivesUp, IsCancellation, Honest, Run, NextOptions, Positive;
    var l, next := levels[0], NextOptions(opts, timeout, caller);
    var inner := Run(levels[1..], Some(caller), next, outer + [attempt], env, s);
    RunHasReason(levels[1..], Some(caller), next, outer + [attempt], env, s);
    RunIsHonest(levels[1..], Some(caller), next, outer + [attempt], env, s);
    var t := inner.1.(checks := inner.1.checks + 1);
    if GoesAgain(levels, attempt, env, inner) {
      LaterRunHasReason(levels, caller, opts, outer, attempt + 1, timeout + l.backoff, env, t);
      LaterReason(levels, |outer|, env, s, inner.1,
                  RunFrom(levels, caller, opts, outer, attempt + 1, timeout + l.backoff, env, t));
      HonestChecks(env, s, inner);
    } else if inner.0.Finished? && inner.0.err.Some? {
      var n := |inner.1.calls|;
      CallsAreGood(levels[1..], Some(caller), next, outer + [attempt], env, s, n - 1);
      var own :| IsOwn(levels[1..], caller, next, outer + [attempt], inner.1.calls[n - 1], own);
      OwnReason(levels, outer, attempt, env, s, inner, own);
    } else {
      NoReasonNeeded(levels, |outer|, env, s, inner);
    }
  }

  lemma NoReasonNeeded(levels: seq<Level>, outer: nat, env: Env, s: State, r: (Outcome, State))
    requires r.0.Finished? ==> r.0.err.None?
    ensures HasReason(levels, outer, env, s, r)
  {
  }

  lemma HonestChecks(env: Env, s: State, r: (Outcome, State))
    requires Honest(env, s, r)
    ensures s.checks <= r.1.checks
  {
  }

  lemma LaterReason(levels: seq<Level>, outer: nat, env: Env, s: State, t: State, r: (Outcome, State))
    requires HasReason(levels, outer, env, t.(checks := t.checks + 1), r)
    ensures s.checks <= t.checks ==> HasReason(levels, outer, env, s, r)
  {
    hide GivesUp;
  }

  lemma OwnReason(levels: seq<Level>, outer: seq<int>, attempt: int, env: Env, s: State, inner: (Outcome, State),
                  own: seq<int>)
    requires levels != [] && Honest(env, s, inner) && inner.0.Finished? && inner.0.err.Some?
    requires HasReason(levels[1..], |outer + [attempt]|, env, s, inner)
    requires |own| == |levels| - 1 && inner.1.calls[|inner.1.calls| - 1].attempts == outer + [attempt] + own
    ensures var e := inner.0.err.value;
      && (!levels[0].recoverable(e) || attempt == levels[0].maxAttempts ==> HasReason(levels, |outer|, env, s, inner))
      && (env.done(inner.1.checks) ==>
            HasReason(levels, |outer|, env, s, (Finished(Some(CANCELED)), inner.1.(checks := inner.1.checks + 1))))
  {
    var c, e := inner.1.calls[|inner.1.calls| - 1], inner.0.err.value;
    if GivesUp(levels[1..], |outer| + 1, c, e) && (!levels[0].recoverable(e) || attempt == levels[0].maxAttempts) {
      assert c.attempts[|outer|] == attempt;
      forall i | 0 <= i < |levels| ensures GivesUpAt(levels, |outer|, c, e, i) {
        assert i > 0 ==> GivesUpAt(levels[1..], |outer| + 1, c, e, i - 1);
      }
    }
  }

  /** An error that is no cancellation comes back only when every level has given up: it is not recoverable
      there, or the level has made its last attempt. */
  lemma ErrorMeansGivenUp(levels: seq<Level>, opts: seq<int>, env: Env)
    ensures HasReason(levels, 0, env, START, Run(levels, None, opts, [], env, START))
  {
    RunHasReason(levels, None, opts, [], env, START);
  }
}
