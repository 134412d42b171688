// The retry strategy of a task: when a failed attempt is tried again, how long
// it waits, and how many attempts there are.

module Retries {
  import opened Protocol
  import opened Base

  const SECOND := 1000000000

  function Pow(f: real, n: nat): (p: real)
    ensures f >= 0.0 ==> p >= 0.0
  {
    if n == 0 then 1.0 else f * Pow(f, n - 1)
  }

  // The conversion to int64 drops the fraction, toward zero.
  function Truncated(x: real): int {
    if x >= 0.0 then x.Floor else -((-x).Floor)
  }

  function Product(x: real, y: real): real {
    x * y
  }

  // The delay before the random part, in seconds.
  function BaseDelay(r: Retry): real
    requires r.attempts >= 0
  {
    var d := Product(r.min as real, Pow(r.factor, r.attempts));
    if d > r.max as real then r.max as real else d
  }

  // Up to a fifth more, at random.
  function Spread(next: real, jitter: real): real {
    next + Product(jitter, next) / 5.0
  }

  function RetryAt(r: Retry, now: int, jitter: real): int
    requires r.attempts >= 0
  {
    now + Truncated(Spread(BaseDelay(r), jitter) * SECOND as real)
  }

  class Strategy {
    var retry: Retry

    // Fails once the attempts are used up.
    method NextAttempt(now: int, jitter: real) returns (at: int, ok: bool)
      requires retry.attempts >= 0
      modifies this
      ensures ok == !Exhausted(old(retry))
      ensures ok ==> at == RetryAt(old(retry), now, jitter) && retry == old(retry).(attempts := old(retry).attempts + 1)
      ensures !ok ==> at == 0 && retry == old(retry)
    {
      hide Product, Truncated;
      if retry.maxAttempts > 0 && retry.attempts + 1 >= retry.maxAttempts {
        return 0, false;
      }
      var min, max := retry.min as real, retry.max as real;
      var p, i := 1.0, 0;
      while i < retry.attempts
        invariant 0 <= i <= retry.attempts && p == Pow(retry.factor, i)
        invariant retry == old(retry)
      {
        p, i := retry.factor * p, i + 1;
      }
      var d := Product(min, p);
      var next;
      if d > max {
        next := max;
      } else {
        next := d;
      }
      next := next + Product(jitter, next) / 5.0;
      retry := retry.(attempts := retry.attempts + 1);
      return now + Truncated(next * SECOND as real), true;
    }

    method SetDefault()
      modifies this
      ensures retry.attempts == old(retry).attempts
      ensures retry.maxAttempts == if old(retry).maxAttempts == 0 then 10 else old(retry).maxAttempts
      ensures retry.factor == if old(retry).factor == 0.0 then 2.0 else old(retry).factor
      ensures retry.min == if old(retry).min == 0 then 10 else old(retry).min
      ensures retry.max == if old(retry).max == 0 then 300 else old(retry).max
    {
      if retry.maxAttempts == 0 {
        retry := retry.(maxAttempts := 10);
      }
      if retry.factor == 0.0 {
        retry := retry.(factor := 2.0);
      }
      if retry.min == 0 {
        retry := retry.(min := 10);
      }
      if retry.max == 0 {
        retry := retry.(max := 300);
      }
    }
  }

  // ---------- delays ----------

  // From one attempt to the next the delay never shrinks.
  lemma DelaysGrow(r: Retry)
    requires r.attempts >= 0 && r.factor >= 1.0 && r.min >= 0
    ensures BaseDelay(r) <= BaseDelay(r.(attempts := r.attempts + 1))
  {
    hide Product;
    var p, q := Pow(r.factor, r.attempts), Pow(r.factor, r.attempts + 1);
    PowGrows(r.factor, r.attempts);
    ProductGrows(r.min as real, p, q);
  }

  lemma PowGrows(f: real, n: nat)
    requires f >= 1.0
    ensures Pow(f, n) <= Pow(f, n + 1)
  {
    var p := Pow(f, n);
    assert Pow(f, n + 1) == f * p;
    ProductGrows(p, 1.0, f);
  }

  lemma ProductGrows(k: real, x: real, y: real)
    requires x <= y && k >= 0.0
    ensures Product(k, x) <= Product(k, y)
    ensures k * x <= k * y && x * k <= y * k
  {
    assert (y - x) * k >= 0.0;
  }

  // The first delay is the least one, up to the maximum; each next one is the
  // factor times the one before, up to the maximum. A factor below one may bring
  // a delay back under the maximum, but not before it is really below.
  lemma DelaySteps(r: Retry)
    requires r.attempts >= 0
    ensures r.attempts == 0 ==> BaseDelay(r) == if r.min > r.max then r.max as real else r.min as real
    ensures var next := BaseDelay(r.(attempts := r.attempts + 1)); var grown := r.factor * BaseDelay(r);
      (r.factor >= 1.0 && r.max >= 0) || BaseDelay(r) < r.max as real ==> next == if grown > r.max as real then r.max as real else grown
  {
    var p, min, max := Pow(r.factor, r.attempts), r.min as real, r.max as real;
    NoProduct(min);
    assert Pow(r.factor, r.attempts + 1) == r.factor * p;
    Regrouped(min, r.factor, p);
    var d := Product(min, p);
    if d > max && r.factor >= 1.0 && r.max >= 0 {
      ProductGrows(r.factor, max, d);
      ProductGrows(max, 1.0, r.factor);
      NoProduct(max);
    }
    hide Pow;
  }

  lemma Regrouped(min: real, factor: real, p: real)
    ensures Product(min, factor * p) == factor * Product(min, p) && Product(min, 1.0) == min
  {
    assert min * (factor * p) == factor * (min * p);
  }

  // The random part is in proportion, and adds a fifth of the delay at the most;
  // the time is in nanoseconds.
  lemma JitterAdds(r: Retry, now: int, jitter: real)
    requires Sensible(r) && 0.0 <= jitter < 1.0
    ensures RetryAt(r, now, 0.0) == now + (BaseDelay(r) * 1000000000.0).Floor
    ensures var wait := RetryAt(r, now, jitter) - now; var exact := BaseDelay(r) * (1.0 + jitter / 5.0) * 1000000000.0;
      wait as real <= exact < wait as real + 1.0
  {
    assert r.attempts >= 0;
    hide *;
    var d := BaseDelay(r);
    DelayBounds(r);
    SpreadIs(d, jitter);
    Scaled(d, 1.0 + jitter / 5.0);
    RetryIs(r, now, jitter);
    RetryIs(r, now, 0.0);
  }

  lemma Scaled(d: real, k: real)
    requires d >= 0.0 && k >= 0.0
    ensures d * k * 1000000000.0 >= 0.0
  {
    ProductGrows(d, 0.0, k);
  }

  lemma RetryIs(r: Retry, now: int, jitter: real)
    requires r.attempts >= 0 && Spread(BaseDelay(r), jitter) * 1000000000.0 >= 0.0
    ensures RetryAt(r, now, jitter) == now + (Spread(BaseDelay(r), jitter) * 1000000000.0).Floor
  {
    hide BaseDelay, Spread;
  }

  lemma SpreadIs(d: real, jitter: real)
    ensures Spread(d, 0.0) == d && Spread(d, jitter) == d * (1.0 + jitter / 5.0)
  {
    NoProduct(d);
    assert d * (1.0 + jitter / 5.0) == d + d * jitter / 5.0;
  }

  predicate Sensible(r: Retry) {
    r.attempts >= 0 && r.factor >= 0.0 && r.min >= 0 && r.max >= 0
  }

  lemma FifthMore(next: real, part: real, max: real)
    requires 0.0 <= part <= next <= max
    ensures 0.0 <= 5.0 * (next + part / 5.0) <= 6.0 * max
  {
  }

  // A retry is never set before now, nor more than 1.2 times the maximum ahead.
  lemma WaitBounds(r: Retry, now: int, jitter: real)
    requires Sensible(r) && 0.0 <= jitter < 1.0
    ensures 0 <= RetryAt(r, now, jitter) - now
    ensures 5 * (RetryAt(r, now, jitter) - now) <= 6 * r.max * SECOND
  {
    hide Product, BaseDelay;
    DelayBounds(r);
    var next := BaseDelay(r);
    var part := Product(jitter, next);
    PartOf(next, jitter);
    var wait := next + part / 5.0;
    FifthMore(next, part, r.max as real);
    var nanos := wait * SECOND as real;
    assert 0.0 <= 5.0 * nanos <= 6.0 * r.max as real * SECOND as real;
  }

  lemma DelayBounds(r: Retry)
    requires Sensible(r)
    ensures 0.0 <= BaseDelay(r) <= r.max as real
  {
    hide Product;
    ProductGrows(r.min as real, 0.0, Pow(r.factor, r.attempts));
    NoProduct(r.min as real);
  }

  lemma NoProduct(k: real)
    ensures Product(k, 0.0) == 0.0 && Product(0.0, k) == 0.0 && Product(1.0, k) == k
  {
  }

  lemma PartOf(next: real, jitter: real)
    requires 0.0 <= jitter < 1.0 && next >= 0.0
    ensures 0.0 <= Product(jitter, next) <= next
  {
    ProductGrows(next, 0.0, jitter);
    ProductGrows(next, jitter, 1.0);
  }

  // ---------- a task that only fails ----------

  datatype Tick = Tick(now: int, jitter: real, newId: AttemptId)

  predicate Ticks(ticks: seq<Tick>) {
    forall k :: 0 <= k < |ticks| ==> ticks[k].now > 0 && 0.0 <= ticks[k].jitter < 1.0
  }

  // The surroundings of a follow-up at a tick, the retry strategy included.
  function EnvOf(task: Task, tick: Tick): Env
    requires task.retry.attempts >= 0
  {
    Env(tick.newId, tick.now, 0, RetryAt(task.retry, tick.now, tick.jitter))
  }

  // The task after its current attempt failed at each of the ticks.
  function AfterFailures(task: Task, ticks: seq<Tick>): (r: Task)
    requires task.retry.attempts >= 0
    ensures r.retry == task.retry.(attempts := task.retry.attempts + |ticks|)
  {
    if ticks == [] then task else
    var n := |ticks| - 1;
    var before := AfterFailures(task, ticks[..n]);
    Follow(before, before, before.current, Error, EnvOf(before, ticks[n]))
  }

  // A task with M >= 1 attempts allowed and none used runs exactly M times: it
  // stays wanted as long as fewer than M attempts have failed, and after the
  // M-th it is inactive with no time to run at, scheduled or not.
  lemma {:induction false} RunsExactlyM(task: Task, ticks: seq<Tick>)
    requires task.retry.attempts == 0 && task.retry.maxAttempts >= 1 && Sensible(task.retry)
    requires Wanted(task) && Ticks(ticks) && |ticks| <= task.retry.maxAttempts
    ensures var r := AfterFailures(task, ticks);
      && r.executions == task.executions + |ticks| && r.errors == task.errors + |ticks|
      && r.deleted == task.deleted && r.scheduled == task.scheduled
      && (Wanted(r) <==> |ticks| < task.retry.maxAttempts)
      && (|ticks| == task.retry.maxAttempts ==> !r.active && r.at == 0 && r.status == TaskError)
      && (0 < |ticks| < task.retry.maxAttempts ==> r.status == Retrying && r.at >= ticks[|ticks| - 1].now)
  {
    if ticks != [] {
      var n := |ticks| - 1;
      RunsExactlyM(task, ticks[..n]);
      var before := AfterFailures(task, ticks[..n]);
      WaitBounds(before.retry, ticks[n].now, ticks[n].jitter);
    }
  }

  // Nanoseconds waited between a failure and the retry it leads to, summed up.
  function Waited(task: Task, ticks: seq<Tick>): int
    requires task.retry.attempts >= 0
  {
    if ticks == [] then 0 else
    var n := |ticks| - 1;
    var r := AfterFailures(task, ticks);
    Waited(task, ticks[..n]) + if r.at == 0 then 0 else r.at - ticks[n].now
  }

  // One more failure waits for at most 1.2 * Max, and the last for nothing.
  lemma OneWait(task: Task, ticks: seq<Tick>)
    requires task.retry.attempts == 0 && task.retry.maxAttempts >= 1 && Sensible(task.retry)
    requires Wanted(task) && Ticks(ticks) && 0 < |ticks| <= task.retry.maxAttempts
    ensures var n := |ticks| - 1; var r := AfterFailures(task, ticks);
      if |ticks| < task.retry.maxAttempts then 5 * (r.at - ticks[n].now) <= 6 * task.retry.max * SECOND else r.at == 0
  {
    var n := |ticks| - 1;
    RunsExactlyM(task, ticks);
    var before := AfterFailures(task, ticks[..n]);
    WaitBounds(before.retry, ticks[n].now, ticks[n].jitter);
    hide BaseDelay, RetryAt;
  }

  // All the waits of a task that fails M times come to at most 1.2 * Max * (M - 1).
  lemma {:induction false} WaitsBounded(task: Task, ticks: seq<Tick>)
    requires task.retry.attempts == 0 && task.retry.maxAttempts >= 1 && Sensible(task.retry)
    requires Wanted(task) && Ticks(ticks) && |ticks| <= task.retry.maxAttempts
    ensures 5 * Waited(task, ticks) <= (if |ticks| < task.retry.maxAttempts then |ticks| else task.retry.maxAttempts - 1) * (6 * task.retry.max * SECOND)
  {
    if ticks != [] {
      var n := |ticks| - 1;
      hide AfterFailures;
      WaitsBounded(task, ticks[..n]);
      OneWait(task, ticks);
      Distributes(n, 6 * task.retry.max * SECOND);
    }
  }

  lemma Distributes(n: int, unit: int)
    ensures (n + 1) * unit == n * unit + unit
  {
  }

  // A success sets the number of retries back to zero.
  lemma SuccessResets(task: Task, a: AttemptId, env: Env)
    ensures Follow(task, task, a, Success, env).retry == task.retry.(attempts := 0)
  {
  }

  // The store after following up a successful current attempt: a task with a
  // schedule waits for its next run, with one attempt for it; one without is done.
  lemma SuccessStored(store: Store, t: TaskId, env: Env)
    requires t in store.tasks && !store.tasks[t].deleted
    requires env.newId !in store.attempts && env.newId != store.tasks[t].current
    ensures var before, u := store.tasks[t], Ran(store, t, Finding(store.tasks[t].current, Success), env);
      t in u.tasks && var after := u.tasks[t];
      && after.status == TaskSuccess && after.executions == before.executions + 1 && after.errors == before.errors
      && after.retry == before.retry.(attempts := 0)
      && (before.active && before.scheduled && env.cronAt > 0 ==>
        && after.active && after.at == env.cronAt && after.current == env.newId && after.queued
        && forall b :: b in u.attempts && u.attempts[b].task == t && u.attempts[b].status == Pending && !u.attempts[b].deleted <==>
          b == env.newId && b in u.attempts && u.attempts[b] == Attempt(t, before.queue, env.cronAt, env.cronAt, Pending, false, false))
      && (!before.scheduled ==>
        && !after.active && after.at == 0
        && forall b :: b in u.attempts && u.attempts[b].task == t && u.attempts[b].status == Pending ==> u.attempts[b].deleted)
  {
    hide Ran;
    FollowMeans(store, t, store.tasks[t].current, Success, env);
  }

  // The store after following up a failed current attempt: with attempts left
  // the one pending attempt is the next, set for the retry; with none left
  // nothing is pending.
  lemma FailureStored(store: Store, t: TaskId, env: Env)
    requires t in store.tasks && !store.tasks[t].deleted && env.retryAt > 0
    requires env.newId !in store.attempts && env.newId != store.tasks[t].current
    ensures var u := Ran(store, t, Finding(store.tasks[t].current, Error), env);
      forall b :: b in u.attempts && u.attempts[b].task == t && u.attempts[b].status == Pending && !u.attempts[b].deleted <==>
        !Exhausted(store.tasks[t].retry) && b == env.newId && b in u.attempts && u.attempts[b] == Attempt(t, store.tasks[t].queue, env.retryAt, env.retryAt, Pending, false, false)
  {
    var read := store.tasks[t];
    var task := Follow(read, read, read.current, Error, env);
    var next := store.(tasks := store.tasks[t := task]);
    FollowRan(store, t, read.current, Error, env);
    DeletingRan(next, t, task, env);
    hide Ran;
  }

  // ---------- the store of a task that only fails ----------

  // The attempt a has run and failed.
  function Failed(store: Store, a: AttemptId): Store {
    if a in store.attempts then store.(attempts := store.attempts[a := store.attempts[a].(status := Error)]) else store
  }

  // The current attempt of task t fails and is followed up.
  function Round(store: Store, t: TaskId, tick: Tick): Store
    requires t in store.tasks && store.tasks[t].retry.attempts >= 0
  {
    var task := store.tasks[t];
    Ran(Failed(store, task.current), t, Finding(task.current, Error), EnvOf(task, tick))
  }

  // The attempts of task t are those with the ids, each made once. All have failed
  // and are acknowledged, but for the last one if it is still to run.
  ghost predicate Attempted(store: Store, t: TaskId, ids: seq<AttemptId>, waits: bool) {
    && t in store.tasks && !store.tasks[t].deleted && ids != []
    && (forall i, j :: 0 <= i < j < |ids| ==> ids[i] != ids[j])
    && (forall a :: a in store.attempts && store.attempts[a].task == t <==> a in ids)
    && (forall i :: 0 <= i < |ids| ==>
      var a := store.attempts[ids[i]];
      !a.deleted && if waits && i == |ids| - 1 then a.status == Pending && !a.acked else a.status == Error && a.acked)
    && (waits ==> store.tasks[t].current == ids[|ids| - 1])
  }

  // r as the store has it: the flag and its time are set by the way.
  predicate StoredAs(stored: Task, r: Task) {
    stored == r.(queued := stored.queued, updated := stored.updated)
  }

  lemma AttemptedHas(store: Store, t: TaskId, ids: seq<AttemptId>, waits: bool, i: nat)
    requires Attempted(store, t, ids, waits) && i < |ids|
    ensures ids[i] in store.attempts && store.attempts[ids[i]].task == t
  {
    assert ids[i] in ids;
  }

  // What a round makes of the store.
  lemma RoundStores(store: Store, t: TaskId, ids: seq<AttemptId>, tick: Tick)
    requires Attempted(store, t, ids, true) && store.tasks[t].retry.attempts >= 0 && tick.newId !in store.attempts
    ensures var task := store.tasks[t];
      var next := Follow(task, task, task.current, Error, EnvOf(task, tick));
      var run := store.attempts[task.current].(status := Error);
      var kept := store.attempts[task.current := run.(acked := true)];
      task.current in store.attempts &&
      Round(store, t, tick) ==
        if Wanted(next) then Store(store.tasks[t := next.(queued := true)], kept[tick.newId := AttemptFor(t, next)])
        else Store(store.tasks[t := next], kept)
  {
    var task := store.tasks[t];
    AttemptedHas(store, t, ids, true, |ids| - 1);
    var env := EnvOf(task, tick);
    var failed := Failed(store, task.current);
    var next := Follow(task, task, task.current, Error, env);
    var s := failed.(tasks := store.tasks[t := next]);
    FollowRan(failed, t, task.current, Error, env);
    DeletingRan(s, t, next, env);
    NothingPending(store, t, ids);
    hide Ran, Attempted;
    assert s.(attempts := DeletePending(s.attempts, t)) == s;
  }

  lemma NothingPending(store: Store, t: TaskId, ids: seq<AttemptId>)
    requires Attempted(store, t, ids, true)
    ensures var attempts := Failed(store, store.tasks[t].current).attempts; DeletePending(attempts, t) == attempts
  {
    var attempts := Failed(store, store.tasks[t].current).attempts;
    forall a | a in attempts && attempts[a].task == t ensures attempts[a].status == Error {
      var i :| 0 <= i < |ids| && ids[i] == a;
    }
  }

  lemma OneRound(store: Store, t: TaskId, ids: seq<AttemptId>, tick: Tick)
    requires Attempted(store, t, ids, true) && Sensible(store.tasks[t].retry) && tick.newId !in store.attempts
    requires tick.now > 0 && 0.0 <= tick.jitter < 1.0
    ensures var task, u, last := store.tasks[t], Round(store, t, tick), Exhausted(store.tasks[t].retry);
      && Attempted(u, t, if last then ids else ids + [tick.newId], !last)
      && StoredAs(u.tasks[t], Follow(task, task, task.current, Error, EnvOf(task, tick)))
      && (forall a :: a in u.attempts <==> a in store.attempts || (!last && a == tick.newId))
  {
    var task := store.tasks[t];
    WaitBounds(task.retry, tick.now, tick.jitter);
    RoundStores(store, t, ids, tick);
    hide Round, RetryAt;
    forall i | 0 <= i < |ids| ensures ids[i] in store.attempts && ids[i] != tick.newId {
      AttemptedHas(store, t, ids, true, i);
    }
  }

  // After the current attempt failed at each of the ticks.
  function Rounds(store: Store, t: TaskId, ticks: seq<Tick>): Store
    requires t in store.tasks && store.tasks[t].retry.attempts >= 0
  {
    if ticks == [] then store else
    var u := Rounds(store, t, ticks[..|ticks| - 1]);
    if t in u.tasks && u.tasks[t].retry.attempts >= 0 then Round(u, t, ticks[|ticks| - 1]) else u
  }

  // The ids made up to the n-th failure of a task with m attempts allowed.
  function IdsMade(first: AttemptId, ticks: seq<Tick>, m: nat): (r: seq<AttemptId>)
    requires m >= 1
    ensures |r| == if |ticks| < m then |ticks| + 1 else m
  {
    if ticks == [] then [first] else
    var n := |ticks| - 1;
    IdsMade(first, ticks[..n], m) + if n + 1 < m then [ticks[n].newId] else []
  }

  // The ids are new to the store, and each is drawn once.
  predicate NewIds(store: Store, ticks: seq<Tick>) {
    ticks == [] ||
    var n := |ticks| - 1; NewIds(store, ticks[..n]) && ticks[n].newId !in store.attempts && ticks[n].newId !in Drawn(ticks[..n])
  }

  function Drawn(ticks: seq<Tick>): set<AttemptId> {
    if ticks == [] then {} else Drawn(ticks[..|ticks| - 1]) + {ticks[|ticks| - 1].newId}
  }

  // Of a task with M >= 1 attempts allowed and none used, whose attempts all fail,
  // exactly M attempts are ever made; while fewer have failed the newest one waits,
  // and after the M-th none is pending and the task is inactive.
  lemma {:induction false} MakesExactlyM(store: Store, t: TaskId, ticks: seq<Tick>)
    requires t in store.tasks && Attempted(store, t, [store.tasks[t].current], true) && Wanted(store.tasks[t])
    requires store.tasks[t].retry.attempts == 0 && store.tasks[t].retry.maxAttempts >= 1 && Sensible(store.tasks[t].retry)
    requires Ticks(ticks) && NewIds(store, ticks) && |ticks| <= store.tasks[t].retry.maxAttempts
    ensures var task, u := store.tasks[t], Rounds(store, t, ticks);
      && Attempted(u, t, IdsMade(task.current, ticks, task.retry.maxAttempts), |ticks| < task.retry.maxAttempts)
      && StoredAs(u.tasks[t], AfterFailures(task, ticks))
      && (Wanted(u.tasks[t]) <==> |ticks| < task.retry.maxAttempts)
      && u.attempts.Keys <= store.attempts.Keys + Drawn(ticks)
    decreases |ticks|
  {
    hide *;
    var task := store.tasks[t];
    RunsExactlyM(task, ticks);
    if ticks == [] {
      NoRound(store, t, ticks);
    } else {
      var n := |ticks| - 1;
      var u, ids := Rounds(store, t, ticks[..n]), IdsMade(task.current, ticks[..n], task.retry.maxAttempts);
      TicksBut(store, ticks);
      MakesExactlyM(store, t, ticks[..n]);
      LastRound(store, t, ticks, u, ids);
      AttemptedTask(Rounds(store, t, ticks), t, IdsMade(task.current, ticks, task.retry.maxAttempts), |ticks| < task.retry.maxAttempts);
      WantedAs(Rounds(store, t, ticks).tasks[t], AfterFailures(task, ticks));
    }
  }

  lemma NoRound(store: Store, t: TaskId, ticks: seq<Tick>)
    requires t in store.tasks && store.tasks[t].retry.attempts == 0 && ticks == []
    ensures Rounds(store, t, ticks) == store && AfterFailures(store.tasks[t], ticks) == store.tasks[t]
    ensures StoredAs(store.tasks[t], store.tasks[t])
    ensures store.tasks[t].retry.maxAttempts >= 1 ==> IdsMade(store.tasks[t].current, ticks, store.tasks[t].retry.maxAttempts) == [store.tasks[t].current]
  {
  }

  lemma TicksBut(store: Store, ticks: seq<Tick>)
    requires Ticks(ticks) && NewIds(store, ticks) && ticks != []
    ensures var n := |ticks| - 1;
      && Ticks(ticks[..n]) && NewIds(store, ticks[..n]) && ticks[n].now > 0 && 0.0 <= ticks[n].jitter < 1.0
      && ticks[n].newId !in store.attempts && ticks[n].newId !in Drawn(ticks[..n])
  {
  }

  lemma StoredHas(stored: Task, r: Task)
    requires StoredAs(stored, r)
    ensures stored.retry == r.retry
  {
  }

  lemma WantedAs(stored: Task, r: Task)
    requires StoredAs(stored, r)
    ensures Wanted(stored) <==> Wanted(r)
  {
  }

  // The last of the rounds, after the others led to u.
  lemma LastRound(store: Store, t: TaskId, ticks: seq<Tick>, u: Store, ids: seq<AttemptId>)
    requires t in store.tasks && store.tasks[t].retry.attempts == 0 && Sensible(store.tasks[t].retry)
    requires ticks != [] && |ticks| <= store.tasks[t].retry.maxAttempts
    requires u == Rounds(store, t, ticks[..|ticks| - 1]) && Attempted(u, t, ids, true)
    requires StoredAs(u.tasks[t], AfterFailures(store.tasks[t], ticks[..|ticks| - 1]))
    requires ids == IdsMade(store.tasks[t].current, ticks[..|ticks| - 1], store.tasks[t].retry.maxAttempts)
    requires u.attempts.Keys <= store.attempts.Keys + Drawn(ticks[..|ticks| - 1])
    requires Ticks(ticks) && NewIds(store, ticks)
    ensures var task, v := store.tasks[t], Rounds(store, t, ticks);
      && Attempted(v, t, IdsMade(task.current, ticks, task.retry.maxAttempts), |ticks| < task.retry.maxAttempts)
      && StoredAs(v.tasks[t], AfterFailures(task, ticks))
      && v.attempts.Keys <= store.attempts.Keys + Drawn(ticks)
  {
    hide *;
    var task, n := store.tasks[t], |ticks| - 1;
    TicksBut(store, ticks);
    var before := AfterFailures(task, ticks[..n]);
    AttemptedTask(u, t, ids, true);
    StoredHas(u.tasks[t], before);
    SensibleOn(task.retry, before.retry);
    ExhaustedIs(u.tasks[t].retry);
    OneRound(u, t, ids, ticks[n]);
    SameFollow(u.tasks[t], before, ticks[n]);
    RoundsOn(store, t, ticks, u);
    assert ids + [] == ids;
  }

  lemma ExhaustedIs(r: Retry)
    ensures Exhausted(r) <==> r.maxAttempts > 0 && r.attempts + 1 >= r.maxAttempts
  {
  }

  lemma RoundsOn(store: Store, t: TaskId, ticks: seq<Tick>, u: Store)
    requires t in store.tasks && store.tasks[t].retry.attempts == 0 && store.tasks[t].retry.maxAttempts >= 1 && ticks != []
    requires u == Rounds(store, t, ticks[..|ticks| - 1]) && t in u.tasks && u.tasks[t].retry.attempts >= 0
    ensures var task, n := store.tasks[t], |ticks| - 1; var before := AfterFailures(task, ticks[..n]);
      && Rounds(store, t, ticks) == Round(u, t, ticks[n])
      && AfterFailures(task, ticks) == Follow(before, before, before.current, Error, EnvOf(before, ticks[n]))
      && IdsMade(task.current, ticks, task.retry.maxAttempts)
        == IdsMade(task.current, ticks[..n], task.retry.maxAttempts) + (if n + 1 < task.retry.maxAttempts then [ticks[n].newId] else [])
      && Drawn(ticks) == Drawn(ticks[..n]) + {ticks[n].newId}
  {
    hide Round, Follow, EnvOf;
  }

  lemma SensibleOn(r: Retry, q: Retry)
    requires Sensible(r) && q == r.(attempts := q.attempts) && q.attempts >= 0
    ensures Sensible(q)
  {
  }

  lemma AttemptedTask(store: Store, t: TaskId, ids: seq<AttemptId>, waits: bool)
    requires Attempted(store, t, ids, waits)
    ensures t in store.tasks
  {
  }

  lemma SameFollow(stored: Task, r: Task, tick: Tick)
    requires StoredAs(stored, r) && r.retry.attempts >= 0
    ensures Follow(stored, stored, stored.current, Error, EnvOf(stored, tick)) == Follow(r, r, r.current, Error, EnvOf(r, tick))
  {
  }
}
