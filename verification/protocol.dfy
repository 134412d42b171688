// The task and attempt documents, and the calls that change them one store
// operation at a time. Calls interleave freely and may stop between any two
// operations.

module Protocol {
  type TaskId = nat
  type AttemptId = nat
  type QueueId = nat
  type CallId = nat

  datatype AttemptStatus = Pending | Running | Success | Error
  datatype TaskStatus = TaskPending | Retrying | TaskSuccess | TaskError

  datatype Retry = Retry(attempts: int, maxAttempts: int, factor: real, min: int, max: int)

  datatype Task = Task(
    queue: QueueId, scheduled: bool, at: int, status: TaskStatus, active: bool,
    executions: int, errors: int, retry: Retry,
    current: AttemptId, queued: bool, updated: int, deleted: bool)

  datatype Attempt = Attempt(
    task: TaskId, queue: QueueId, reserved: int, at: int, status: AttemptStatus, acked: bool, deleted: bool)

  // What a call takes from outside the store: a new object id, the clock, the
  // next run of the cron schedule and the instant the retry strategy picks.
  datatype Env = Env(newId: AttemptId, now: int, cronAt: int, retryAt: int)

  // Where a call stands, with the documents it has read.
  datatype Call =
    | Finding(attempt: AttemptId, status: AttemptStatus)
    | Applying(attempt: AttemptId, status: AttemptStatus, task: Task)
    | Deleting(task: Task, ack: Ack)
    | Inserting(task: Task, ack: Ack)
    | Marking(task: Task, ack: Ack)
    | Acking(attempt: AttemptId)
    | Looking(task: Task)
    | Dropping

  datatype Ack = NoAck | AckOf(attempt: AttemptId)

  datatype Proc = Proc(task: TaskId, call: Call)

  datatype Store = Store(tasks: map<TaskId, Task>, attempts: map<AttemptId, Attempt>)

  // A store, the ids made for attempts and the task each was made for, those
  // ever inserted, and the calls in progress.
  datatype State = State(store: Store, used: map<AttemptId, TaskId>, inserted: set<AttemptId>, calls: map<CallId, Proc>)

  predicate Finished(a: Attempt) {
    a.status == Success || a.status == Error
  }

  // ---------- the single store operations ----------

  function DeletePending(attempts: map<AttemptId, Attempt>, t: TaskId): map<AttemptId, Attempt> {
    map a | a in attempts ::
      if attempts[a].task == t && attempts[a].status == Pending && !attempts[a].deleted
      then attempts[a].(deleted := true) else attempts[a]
  }

  function DeleteAll(attempts: map<AttemptId, Attempt>, t: TaskId): map<AttemptId, Attempt> {
    map a | a in attempts :: if attempts[a].task == t then attempts[a].(deleted := true) else attempts[a]
  }

  // The document NewAttempt inserts for the task it was given.
  function AttemptFor(t: TaskId, task: Task): Attempt {
    Attempt(t, task.queue, task.at, task.at, Pending, false, false)
  }

  predicate Wanted(task: Task) {
    task.active && task.at != 0 && !task.deleted
  }

  // Retry.NextAttempt refuses once the attempts are used up.
  predicate Exhausted(r: Retry) {
    r.maxAttempts > 0 && r.attempts + 1 >= r.maxAttempts
  }

  function FollowAt(task: Task, status: AttemptStatus, env: Env): int {
    if status == Error then (if Exhausted(task.retry) then 0 else env.retryAt)
    else if task.active && task.scheduled then env.cronAt
    else 0
  }

  // The update of NextAttemptForTask on the stored document, computed from the
  // copy read before.
  function Follow(stored: Task, read: Task, a: AttemptId, status: AttemptStatus, env: Env): Task {
    var at := FollowAt(read, status, env);
    stored.(
      status := if status == Error then (if Exhausted(read.retry) then TaskError else Retrying) else TaskSuccess,
      at := at,
      active := at > 0,
      current := if read.current == a then env.newId else read.current,
      queued := false,
      updated := env.now,
      executions := stored.executions + 1,
      errors := stored.errors + if status == Error then 1 else 0,
      retry := stored.retry.(attempts := stored.retry.attempts + if status == Success then -read.retry.attempts else 1))
  }

  // ---------- steps ----------

  datatype Step =
    | Create(c: CallId, t: TaskId, task: Task)
    | Recreate(c: CallId, t: TaskId, at: int, active: bool, scheduled: bool, retry: Retry, newId: AttemptId, now: int)
    | StartFollow(c: CallId, a: AttemptId, status: AttemptStatus, t: TaskId)
    | StartFix(c: CallId, t: TaskId)
    | Advance(c: CallId, env: Env)
    | Crash(c: CallId)
    | Fail(c: CallId)
    | Reserve(a: AttemptId, until: int)
    | Touch(a: AttemptId, until: int)
    | Finish(a: AttemptId, ok: bool)
    | StartDelete(c: CallId, t: TaskId)
    | CleanDeletedAttempt(a: AttemptId)
    | CleanDeletedTask(t: TaskId)
    | CleanFinished(a: AttemptId)

  function Without<K, V>(m: map<K, V>, k: K): map<K, V> {
    m - {k}
  }

  // The call c goes on as q, or ends.
  function Goes(s: State, c: CallId, call: Call): State
    requires c in s.calls
  {
    s.(calls := s.calls[c := s.calls[c].(call := call)])
  }

  function Ends(s: State, c: CallId): State {
    s.(calls := Without(s.calls, c))
  }

  function Made(s: State, c: CallId, ack: Ack): State
    requires c in s.calls
  {
    match ack
    case NoAck => Ends(s, c)
    case AckOf(a) => Goes(s, c, Acking(a))
  }

  // One store operation of the call c.
  function AdvanceCall(s: State, c: CallId, env: Env): State
    requires c in s.calls
  {
    var t := s.calls[c].task;
    match s.calls[c].call
    case Finding(a, status) =>
      if t in s.store.tasks then Goes(s, c, Applying(a, status, s.store.tasks[t])) else Ends(s, c)
    case Applying(a, status, read) =>
      if t !in s.store.tasks then Ends(s, c) else
      var task := Follow(s.store.tasks[t], read, a, status, env);
      var s' := s.(store := s.store.(tasks := s.store.tasks[t := task]), used := s.used[env.newId := t]);
      if read.current == a then Goes(s', c, Deleting(task, AckOf(a))) else Goes(s', c, Acking(a))
    case Deleting(task, ack) =>
      var s' := s.(store := s.store.(attempts := DeletePending(s.store.attempts, t)));
      if Wanted(task) then Goes(s', c, Inserting(task, ack)) else Made(s', c, ack)
    case Inserting(task, ack) =>
      if task.current in s.store.attempts then Made(s, c, ack) else
      Goes(s.(store := s.store.(attempts := s.store.attempts[task.current := AttemptFor(t, task)]),
              inserted := s.inserted + {task.current}), c, Marking(task, ack))
    case Marking(task, ack) =>
      var s' :=
        if t in s.store.tasks && s.store.tasks[t].current == task.current && !s.store.tasks[t].queued
        then s.(store := s.store.(tasks := s.store.tasks[t := s.store.tasks[t].(queued := true, updated := env.now)]))
        else s;
      Made(s', c, ack)
    case Acking(a) =>
      var s' :=
        if a in s.store.attempts
        then s.(store := s.store.(attempts := s.store.attempts[a := s.store.attempts[a].(acked := true)]))
        else s;
      Ends(s', c)
    case Looking(task) =>
      if task.current in s.store.attempts then Ends(s, c) else Goes(s, c, Deleting(task, NoAck))
    case Dropping =>
      var s' :=
        if t in s.store.tasks
        then s.(store := s.store.(tasks := s.store.tasks[t := s.store.tasks[t].(deleted := true)]))
        else s;
      Ends(s', c)
  }

  // An operation of the call c fails without effect: what was to be acknowledged
  // in the end still is, even if no new attempt could be made.
  function FailCall(s: State, c: CallId): State
    requires c in s.calls
  {
    match s.calls[c].call
    case Deleting(_, ack) => Made(s, c, ack)
    case Inserting(_, ack) => Made(s, c, ack)
    case Marking(_, ack) => Made(s, c, ack)
    case _ => Ends(s, c)
  }

  function Update(s: State, a: AttemptId, v: Attempt): State {
    s.(store := s.store.(attempts := s.store.attempts[a := v]))
  }

  // The guards of the steps: what the queries select, and that a new object id
  // or call is new.
  predicate Enabled(s: State, e: Step) {
    match e
    case Create(c, t, task) =>
      && c !in s.calls && t !in s.store.tasks && task.current !in s.used && !task.queued && !task.deleted
      && (task.active ==> task.at > 0) && task.executions == 0 && task.errors == 0
      && (forall a :: a in s.store.attempts ==> s.store.attempts[a].task != t)
      && (forall d :: d in s.calls ==> s.calls[d].task != t)
    case Recreate(c, t, at, active, scheduled, retry, newId, now) => c !in s.calls && t in s.store.tasks && newId !in s.used
    case StartFollow(c, a, status, t) =>
      && c !in s.calls && a in s.inserted && (status == Success || status == Error)
      && a in s.used && s.used[a] == t && (a in s.store.attempts ==> Finished(s.store.attempts[a]))
    case StartFix(c, t) =>
      && c !in s.calls && t in s.store.tasks
      && s.store.tasks[t].active && !s.store.tasks[t].deleted && !s.store.tasks[t].queued
    case Advance(c, env) => c in s.calls && (s.calls[c].call.Applying? ==> env.newId !in s.used)
    case Crash(c) => c in s.calls
    case Fail(c) => c in s.calls
    case Reserve(a, until) =>
      && a in s.store.attempts && !s.store.attempts[a].deleted
      && (s.store.attempts[a].status == Pending || s.store.attempts[a].status == Running)
    case Touch(a, until) => a in s.store.attempts
    case Finish(a, ok) => a in s.store.attempts && s.store.attempts[a].status != Pending
    case StartDelete(c, t) => c !in s.calls
    case CleanDeletedAttempt(a) => a in s.store.attempts && s.store.attempts[a].deleted
    case CleanDeletedTask(t) => t in s.store.tasks && s.store.tasks[t].deleted
    case CleanFinished(a) => a in s.store.attempts && Finished(s.store.attempts[a])
  }

  function Take(s: State, e: Step): State
    requires Enabled(s, e)
  {
    match e
    case Create(c, t, task) =>
      // The insertion of the task, then NewAttempt without deleting.
      var s' := s.(store := s.store.(tasks := s.store.tasks[t := task]), used := s.used[task.current := t]);
      if Wanted(task) then s'.(calls := s.calls[c := Proc(t, Inserting(task, NoAck))]) else s'
    case Recreate(c, t, at, active, scheduled, retry, newId, now) =>
      var task := s.store.tasks[t].(at := at, active := at > 0 && active, scheduled := scheduled, retry := retry,
        current := newId, queued := false, updated := now, deleted := false);
      s.(store := s.store.(tasks := s.store.tasks[t := task]), used := s.used[newId := t],
         calls := s.calls[c := Proc(t, Deleting(task, NoAck))])
    case StartFollow(c, a, status, t) => s.(calls := s.calls[c := Proc(t, Finding(a, status))])
    case StartFix(c, t) => s.(calls := s.calls[c := Proc(t, Looking(s.store.tasks[t]))])
    case Advance(c, env) => AdvanceCall(s, c, env)
    case Crash(c) => Ends(s, c)
    case Fail(c) => FailCall(s, c)
    case Reserve(a, until) => Update(s, a, s.store.attempts[a].(reserved := until, status := Running))
    case Touch(a, until) => Update(s, a, s.store.attempts[a].(reserved := until))
    case Finish(a, ok) => Update(s, a, s.store.attempts[a].(status := if ok then Success else Error))
    case StartDelete(c, t) =>
      // The attempts first; the task is marked by the second operation.
      s.(store := s.store.(attempts := DeleteAll(s.store.attempts, t)), calls := s.calls[c := Proc(t, Dropping)])
    case CleanDeletedAttempt(a) => s.(store := s.store.(attempts := Without(s.store.attempts, a)))
    case CleanDeletedTask(t) => s.(store := s.store.(tasks := Without(s.store.tasks, t)))
    case CleanFinished(a) => s.(store := s.store.(attempts := Without(s.store.attempts, a)))
  }

  predicate Init(s: State) {
    s.store == Store(map[], map[]) && s.used == map[] && s.inserted == {} && s.calls == map[]
  }

  ghost predicate IsRun(states: seq<State>, steps: seq<Step>) {
    && |states| == |steps| + 1 && Init(states[0])
    && forall i :: 0 <= i < |steps| ==> Enabled(states[i], steps[i]) && states[i + 1] == Take(states[i], steps[i])
  }

  // ---------- what holds in every run, overlapping calls included ----------

  ghost predicate Ids(s: State) {
    && (forall a :: a in s.inserted ==> a in s.used)
    && (forall a :: a in s.store.attempts ==> a in s.inserted && s.used[a] == s.store.attempts[a].task)
    && (forall t :: t in s.store.tasks ==> s.store.tasks[t].current in s.used && s.used[s.store.tasks[t].current] == t)
  }

  // The ids a call holds.
  ghost predicate CallIds(s: State, t: TaskId, call: Call) {
    match call
    case Finding(a, status) => a in s.inserted && a in s.used && s.used[a] == t
    case Applying(a, status, read) => a in s.inserted && a in s.used && s.used[a] == t && OwnId(s, t, read.current)
    case Deleting(task, ack) => OwnId(s, t, task.current) && AckId(s, t, ack)
    case Inserting(task, ack) => OwnId(s, t, task.current) && AckId(s, t, ack)
    case Marking(task, ack) => OwnId(s, t, task.current) && AckId(s, t, ack) && task.current in s.inserted
    case Acking(a) => a in s.inserted && a in s.used && s.used[a] == t
    case Looking(task) => OwnId(s, t, task.current)
    case Dropping => true
  }

  ghost predicate OwnId(s: State, t: TaskId, a: AttemptId) {
    a in s.used && s.used[a] == t
  }

  ghost predicate AckId(s: State, t: TaskId, ack: Ack) {
    ack.AckOf? ==> ack.attempt in s.inserted && ack.attempt in s.used && s.used[ack.attempt] == t
  }

  ghost predicate CallsHoldIds(s: State) {
    forall c :: c in s.calls ==> CallIds(s, s.calls[c].task, s.calls[c].call)
  }

  // attempt_queued is only ever true of an attempt that was inserted.
  ghost predicate QueuedWasInserted(s: State) {
    forall t :: t in s.store.tasks && s.store.tasks[t].queued ==> s.store.tasks[t].current in s.inserted
  }

  ghost predicate Always(s: State) {
    Ids(s) && CallsHoldIds(s) && QueuedWasInserted(s)
  }

  ghost predicate Grows(s: State, u: State) {
    && (forall a :: a in s.used ==> a in u.used && u.used[a] == s.used[a])
    && s.inserted <= u.inserted
  }

  lemma OtherCallsKeepIds(s: State, u: State, c: CallId)
    requires CallsHoldIds(s) && Grows(s, u)
    requires forall d :: d in u.calls && d != c ==> d in s.calls && u.calls[d] == s.calls[d]
    requires c in u.calls ==> CallIds(u, u.calls[c].task, u.calls[c].call)
    ensures CallsHoldIds(u)
  {
    forall d | d in u.calls ensures CallIds(u, u.calls[d].task, u.calls[d].call) {
      if d != c { assert CallIds(s, s.calls[d].task, s.calls[d].call); }
    }
  }

  lemma AdvanceKeepsAlways(s: State, c: CallId, env: Env)
    requires Always(s) && Enabled(s, Advance(c, env))
    ensures Always(AdvanceCall(s, c, env))
  {
    hide CallsHoldIds, Ids, QueuedWasInserted, CallIds, AdvanceCall, Grows;
    var u := AdvanceCall(s, c, env);
    AdvanceKeepsIds(s, c, env);
    AdvanceGrows(s, c, env);
    AdvanceHoldsIds(s, c, env);
    OtherCallsKeepIds(s, u, c);
  }

  lemma CallHas(s: State, c: CallId)
    requires CallsHoldIds(s) && c in s.calls
    ensures CallIds(s, s.calls[c].task, s.calls[c].call)
  {
  }

  lemma AdvanceKeepsIds(s: State, c: CallId, env: Env)
    requires Always(s) && Enabled(s, Advance(c, env))
    ensures Ids(AdvanceCall(s, c, env)) && QueuedWasInserted(AdvanceCall(s, c, env))
  {
    hide CallsHoldIds, QueuedWasInserted, AdvanceCall, CallIds;
    AdvanceQueued(s, c, env);
    var u := AdvanceCall(s, c, env);
    forall a | a in u.store.attempts || a in u.inserted
      ensures (a in u.inserted ==> a in u.used) && (a in u.store.attempts ==> a in u.inserted && u.used[a] == u.store.attempts[a].task)
    {
      AdvanceAttemptId(s, c, env, a);
    }
    forall t | t in u.store.tasks ensures u.store.tasks[t].current in u.used && u.used[u.store.tasks[t].current] == t {
      AdvanceTaskId(s, c, env, t);
    }
  }

  lemma AdvanceAttemptId(s: State, c: CallId, env: Env, a: AttemptId)
    requires Always(s) && Enabled(s, Advance(c, env))
    ensures var u := AdvanceCall(s, c, env);
      (a in u.inserted ==> a in u.used) && (a in u.store.attempts ==> a in u.inserted && u.used[a] == u.store.attempts[a].task)
  {
    CallHas(s, c);
    hide CallsHoldIds, QueuedWasInserted, Follow, Wanted;
  }

  lemma AdvanceTaskId(s: State, c: CallId, env: Env, t: TaskId)
    requires Always(s) && Enabled(s, Advance(c, env)) && t in AdvanceCall(s, c, env).store.tasks
    ensures var u := AdvanceCall(s, c, env); u.store.tasks[t].current in u.used && u.used[u.store.tasks[t].current] == t
  {
    CallHas(s, c);
    hide CallsHoldIds, QueuedWasInserted, DeletePending, Wanted;
  }

  lemma AdvanceQueued(s: State, c: CallId, env: Env)
    requires Always(s) && Enabled(s, Advance(c, env))
    ensures QueuedWasInserted(AdvanceCall(s, c, env))
  {
    CallHas(s, c);
    hide CallsHoldIds, Ids;
  }

  lemma AdvanceGrows(s: State, c: CallId, env: Env)
    requires Enabled(s, Advance(c, env))
    ensures Grows(s, AdvanceCall(s, c, env))
    ensures forall d :: d in AdvanceCall(s, c, env).calls && d != c ==> d in s.calls && AdvanceCall(s, c, env).calls[d] == s.calls[d]
  {
  }

  lemma AdvanceHoldsIds(s: State, c: CallId, env: Env)
    requires Always(s) && Enabled(s, Advance(c, env))
    ensures c in AdvanceCall(s, c, env).calls ==>
      CallIds(AdvanceCall(s, c, env), AdvanceCall(s, c, env).calls[c].task, AdvanceCall(s, c, env).calls[c].call)
  {
    hide CallsHoldIds, QueuedWasInserted;
    CallHas(s, c);
  }

  lemma AlwaysKept(s: State, e: Step)
    requires Always(s) && Enabled(s, e)
    ensures Always(Take(s, e))
  {
    hide Ids, CallsHoldIds, QueuedWasInserted, Grows, Enabled;
    if e.Advance? {
      AdvanceKeepsAlways(s, e.c, e.env);
    } else {
      OtherKeepsIds(s, e);
      OtherHoldsIds(s, e);
    }
  }

  lemma OtherKeepsIds(s: State, e: Step)
    requires Always(s) && Enabled(s, e) && !e.Advance?
    ensures Ids(Take(s, e)) && QueuedWasInserted(Take(s, e)) && Grows(s, Take(s, e))
  {
    hide CallsHoldIds, Wanted, FailCall;
    if e.Fail? {
      assert FailCall(s, e.c).store == s.store && FailCall(s, e.c).used == s.used && FailCall(s, e.c).inserted == s.inserted by { FailStores(s, e.c); }
    }
  }

  lemma FailStores(s: State, c: CallId)
    requires c in s.calls
    ensures var u := FailCall(s, c); u.store == s.store && u.used == s.used && u.inserted == s.inserted
  {
  }

  lemma OtherHoldsIds(s: State, e: Step)
    requires Always(s) && Enabled(s, e) && !e.Advance? && Grows(s, Take(s, e))
    ensures CallsHoldIds(Take(s, e))
  {
    hide CallsHoldIds, Grows, QueuedWasInserted;
    var u := Take(s, e);
    var c := if e.Create? || e.Recreate? || e.StartFollow? || e.StartFix? || e.StartDelete? || e.Crash? || e.Fail? then e.c else 0;
    if c in s.calls { CallHas(s, c); }
    OtherCallsKeepIds(s, u, c);
  }

  // ---------- runs in which the calls of one task do not overlap ----------

  // A call starts on a task that no other is working on, a deletion does not stop
  // halfway, and only acknowledged attempts are cleaned.
  predicate Alone(s: State, e: Step) {
    match e
    case Recreate(c, t, _, _, _, _, _, _) => NoCallOn(s, t)
    case StartFollow(c, a, status, t) => NoCallOn(s, t)
    case StartFix(c, t) => NoCallOn(s, t)
    case StartDelete(c, t) => NoCallOn(s, t)
    case Crash(c) => c in s.calls ==> !s.calls[c].call.Dropping?
    case Fail(c) => c in s.calls ==> !s.calls[c].call.Dropping?
    case CleanFinished(a) => a in s.store.attempts ==> s.store.attempts[a].acked
    case _ => true
  }

  predicate NoCallOn(s: State, t: TaskId) {
    forall d :: d in s.calls ==> s.calls[d].task != t
  }

  ghost predicate NoOverlap(s: State) {
    forall c, d :: c in s.calls && d in s.calls && s.calls[c].task == s.calls[d].task ==> c == d
  }

  predicate LivePending(s: State, a: AttemptId, t: TaskId) {
    a in s.store.attempts && s.store.attempts[a].task == t && s.store.attempts[a].status == Pending && !s.store.attempts[a].deleted
  }

  ghost predicate NoPending(s: State, t: TaskId) {
    forall a :: !LivePending(s, a, t)
  }

  // A deletion of the task is halfway.
  predicate BeingDeleted(s: State, t: TaskId) {
    exists c :: c in s.calls && s.calls[c] == Proc(t, Dropping)
  }

  // The current attempt of a task that is not deleted nor about to be was never
  // lost once it was inserted: it is still stored, neither deleted nor acknowledged.
  ghost predicate TaskOk(s: State, t: TaskId)
    requires t in s.store.tasks
  {
    var task := s.store.tasks[t];
    !task.deleted && !BeingDeleted(s, t) && task.current in s.inserted ==>
      && task.current in s.store.attempts
      && !s.store.attempts[task.current].deleted && !s.store.attempts[task.current].acked
  }

  ghost predicate TasksOk(s: State) {
    forall t :: t in s.store.tasks ==> TaskOk(s, t)
  }

  // A call about to insert the current attempt finds it missing.
  ghost predicate Missing(s: State, t: TaskId, task: Task) {
    && task.current !in s.inserted
    && (t in s.store.tasks ==> s.store.tasks[t].current == task.current && !s.store.tasks[t].queued)
  }

  ghost predicate CallOk(s: State, t: TaskId, call: Call) {
    match call
    case Finding(a, status) => true
    case Applying(a, status, read) => t in s.store.tasks ==> s.store.tasks[t].current == read.current
    case Deleting(task, ack) => Missing(s, t, task)
    case Inserting(task, ack) => Missing(s, t, task) && NoPending(s, t)
    case Marking(task, ack) => (ack.AckOf? ==> ack.attempt != task.current) && (t in s.store.tasks ==> s.store.tasks[t].current == task.current)
    case Acking(a) => t in s.store.tasks ==> s.store.tasks[t].current != a
    case Looking(task) =>
      t in s.store.tasks && !s.store.tasks[t].deleted && s.store.tasks[t].current == task.current && !s.store.tasks[t].queued
    case Dropping => forall a :: a in s.store.attempts && s.store.attempts[a].task == t ==> s.store.attempts[a].deleted
  }

  ghost predicate CallsOk(s: State) {
    forall c :: c in s.calls ==> CallOk(s, s.calls[c].task, s.calls[c].call)
  }

  // Only attempts that are no longer current are acknowledged.
  ghost predicate AckedOk(s: State) {
    forall a :: a in s.store.attempts && s.store.attempts[a].acked && s.store.attempts[a].task in s.store.tasks ==>
      s.store.tasks[s.store.attempts[a].task].current != a
  }

  ghost predicate OnePending(s: State) {
    forall a, b, t :: LivePending(s, a, t) && LivePending(s, b, t) ==> a == b
  }

  ghost predicate Inv(s: State) {
    Always(s) && NoOverlap(s) && TasksOk(s) && CallsOk(s) && AckedOk(s) && OnePending(s)
  }

  // u agrees with s on everything that belongs to task t.
  ghost predicate SameFor(s: State, u: State, t: TaskId) {
    && (t in s.store.tasks <==> t in u.store.tasks)
    && (t in s.store.tasks ==> u.store.tasks[t] == s.store.tasks[t])
    && (forall a :: OwnId(s, t, a) ==> (a in s.inserted <==> a in u.inserted) && (a in s.store.attempts <==> a in u.store.attempts))
    && (forall a :: OwnId(s, t, a) && a in s.store.attempts ==> u.store.attempts[a] == s.store.attempts[a])
    && (forall a :: a in u.store.attempts && u.store.attempts[a].task == t ==> OwnId(s, t, a))
  }

  lemma SameTaskOk(s: State, u: State, t: TaskId)
    requires Ids(s) && t in s.store.tasks && TaskOk(s, t) && SameFor(s, u, t) && (BeingDeleted(s, t) ==> BeingDeleted(u, t))
    ensures TaskOk(u, t)
  {
  }

  lemma SameCallOk(s: State, u: State, t: TaskId, call: Call)
    requires Ids(s) && CallIds(s, t, call) && CallOk(s, t, call) && SameFor(s, u, t)
    ensures CallOk(u, t, call)
  {
    forall a | LivePending(u, a, t) ensures LivePending(s, a, t) {
      assert OwnId(s, t, a);
    }
  }

  ghost predicate SameTask(s: State, u: State, t: TaskId) {
    && (t in s.store.tasks <==> t in u.store.tasks)
    && (t in s.store.tasks ==> u.store.tasks[t] == s.store.tasks[t])
  }

  lemma AdvanceSameTask(s: State, c: CallId, env: Env, t: TaskId)
    requires Enabled(s, Advance(c, env)) && t != s.calls[c].task
    ensures SameTask(s, AdvanceCall(s, c, env), t)
  {
  }

  lemma AdvanceSame(s: State, c: CallId, env: Env, t: TaskId)
    requires Always(s) && Enabled(s, Advance(c, env)) && t != s.calls[c].task
    ensures SameFor(s, AdvanceCall(s, c, env), t)
  {
    AdvanceSameTask(s, c, env, t);
    CallHas(s, c);
    hide CallsHoldIds, QueuedWasInserted, Follow;
    if s.calls[c].call.Deleting? {
      assert AdvanceCall(s, c, env).store.attempts == DeletePending(s.store.attempts, s.calls[c].task);
      assert AdvanceCall(s, c, env).inserted == s.inserted;
      hide AdvanceCall;
    } else {
      hide DeletePending;
    }
  }

  lemma AdvanceSameDeletions(s: State, c: CallId, env: Env, t: TaskId)
    requires Enabled(s, Advance(c, env)) && t != s.calls[c].task
    ensures BeingDeleted(s, t) ==> BeingDeleted(AdvanceCall(s, c, env), t)
  {
    if BeingDeleted(s, t) {
      var d :| d in s.calls && s.calls[d] == Proc(t, Dropping);
      assert d != c;
      assert d in AdvanceCall(s, c, env).calls && AdvanceCall(s, c, env).calls[d] == s.calls[d];
    }
  }

  // Where calls do not overlap, the call on a task is the only one.
  lemma OnlyCall(s: State, c: CallId)
    requires NoOverlap(s) && c in s.calls && !s.calls[c].call.Dropping?
    ensures !BeingDeleted(s, s.calls[c].task)
  {
  }

  lemma CallIsOk(s: State, c: CallId)
    requires CallsOk(s) && c in s.calls
    ensures CallOk(s, s.calls[c].task, s.calls[c].call)
  {
  }

  lemma AdvanceTaskOk(s: State, c: CallId, env: Env)
    requires Inv(s) && Enabled(s, Advance(c, env))
    ensures s.calls[c].task in AdvanceCall(s, c, env).store.tasks ==> TaskOk(AdvanceCall(s, c, env), s.calls[c].task)
  {
    hide CallsHoldIds, QueuedWasInserted, CallsOk, NoOverlap, AckedOk, OnePending, BeingDeleted;
    CallHas(s, c);
    CallIsOk(s, c);
    if !s.calls[c].call.Dropping? { OnlyCall(s, c); }
  }

  lemma AdvanceCallOk(s: State, c: CallId, env: Env)
    requires Inv(s) && Enabled(s, Advance(c, env))
    ensures var u := AdvanceCall(s, c, env); c in u.calls ==> CallOk(u, u.calls[c].task, u.calls[c].call)
  {
    hide CallsHoldIds, QueuedWasInserted, CallsOk, NoOverlap, AckedOk, OnePending, BeingDeleted;
    CallHas(s, c);
    CallIsOk(s, c);
    if !s.calls[c].call.Dropping? { OnlyCall(s, c); }
  }

  lemma AdvanceAckedOk(s: State, c: CallId, env: Env)
    requires Inv(s) && Enabled(s, Advance(c, env))
    ensures AckedOk(AdvanceCall(s, c, env))
  {
    hide CallsHoldIds, QueuedWasInserted, CallsOk, NoOverlap, OnePending, TasksOk;
    CallHas(s, c);
    CallIsOk(s, c);
  }

  // Only the insertion makes a pending attempt, the current one of its task.
  lemma AdvancePending(s: State, c: CallId, env: Env, a: AttemptId, t: TaskId)
    requires Enabled(s, Advance(c, env)) && LivePending(AdvanceCall(s, c, env), a, t)
    ensures LivePending(s, a, t) || (s.calls[c].call.Inserting? && t == s.calls[c].task && a == s.calls[c].call.task.current)
  {
  }

  lemma AdvanceOnePending(s: State, c: CallId, env: Env)
    requires Inv(s) && Enabled(s, Advance(c, env))
    ensures OnePending(AdvanceCall(s, c, env))
  {
    hide Always, CallsOk, NoOverlap, AckedOk, TasksOk, AdvanceCall, LivePending;
    CallIsOk(s, c);
    var u := AdvanceCall(s, c, env);
    forall a, b, t | LivePending(u, a, t) && LivePending(u, b, t) ensures a == b {
      AdvancePending(s, c, env, a, t);
      AdvancePending(s, c, env, b, t);
    }
  }

  lemma AdvanceKeepsInv(s: State, c: CallId, env: Env)
    requires Inv(s) && Enabled(s, Advance(c, env))
    ensures Inv(AdvanceCall(s, c, env))
  {
    hide Always, AckedOk, OnePending, SameFor, TaskOk, CallOk, AdvanceCall, CallIds;
    var u := AdvanceCall(s, c, env);
    assert Ids(s) && CallsHoldIds(s) by { AlwaysMeans(s); }
    AdvanceKeepsAlways(s, c, env);
    AdvanceGrows(s, c, env);
    AdvanceTaskOk(s, c, env);
    AdvanceCallOk(s, c, env);
    AdvanceAckedOk(s, c, env);
    AdvanceOnePending(s, c, env);
    forall t | t in u.store.tasks ensures TaskOk(u, t) {
      if t != s.calls[c].task {
        AdvanceSame(s, c, env, t);
        SameStored(s, u, t);
        AdvanceSameDeletions(s, c, env, t);
        SameTaskOk(s, u, t);
      }
    }
    forall d | d in u.calls ensures CallOk(u, u.calls[d].task, u.calls[d].call) {
      if d != c {
        AdvanceSame(s, c, env, s.calls[d].task);
        SameCallOk(s, u, s.calls[d].task, s.calls[d].call);
      }
    }
    AdvanceKeepsTask(s, c, env);
  }

  lemma AlwaysMeans(s: State)
    requires Always(s)
    ensures Ids(s) && CallsHoldIds(s) && QueuedWasInserted(s)
  {
  }

  lemma SameStored(s: State, u: State, t: TaskId)
    requires SameFor(s, u, t)
    ensures t in s.store.tasks <==> t in u.store.tasks
  {
  }

  lemma AdvanceKeepsTask(s: State, c: CallId, env: Env)
    requires c in s.calls
    ensures c in AdvanceCall(s, c, env).calls ==> AdvanceCall(s, c, env).calls[c].task == s.calls[c].task
  {
  }

  // ---------- the other steps ----------

  // A deletion halfway stays so until its own second operation.
  lemma DeletionsStay(s: State, e: Step, t: TaskId)
    requires Enabled(s, e) && Alone(s, e) && !e.Advance?
    ensures BeingDeleted(s, t) ==> BeingDeleted(Take(s, e), t)
  {
    hide Follow, DeletePending, DeleteAll;
    if BeingDeleted(s, t) {
      var d :| d in s.calls && s.calls[d] == Proc(t, Dropping);
      assert d in Take(s, e).calls && Take(s, e).calls[d] == s.calls[d];
    }
  }

  lemma TaskIsOk(s: State, t: TaskId)
    requires TasksOk(s) && t in s.store.tasks
    ensures TaskOk(s, t)
  {
    hide TaskOk;
  }

  lemma SamePending(s: State, u: State)
    requires OnePending(s) && forall a, t :: LivePending(u, a, t) ==> LivePending(s, a, t)
    ensures OnePending(u)
  {
    hide LivePending;
  }

  // What the calls rely on stays when they and the tasks do and no attempt
  // becomes pending or undeleted.
  lemma CallsStayOk(s: State, u: State)
    requires CallsOk(s) && u.calls == s.calls && u.inserted == s.inserted && u.store.tasks == s.store.tasks
    requires forall a, t :: LivePending(u, a, t) ==> LivePending(s, a, t)
    requires forall a :: a in u.store.attempts ==>
      a in s.store.attempts && u.store.attempts[a].task == s.store.attempts[a].task && (s.store.attempts[a].deleted ==> u.store.attempts[a].deleted)
    ensures CallsOk(u)
  {
    hide LivePending;
    forall d | d in u.calls ensures CallOk(u, u.calls[d].task, u.calls[d].call) {
      CallIsOk(s, d);
    }
  }

  // Steps that change no document.
  lemma StoreStays(s: State, e: Step)
    requires Inv(s) && Enabled(s, e) && Alone(s, e) && !e.Advance? && Take(s, e).store == s.store && Take(s, e).inserted == s.inserted
    ensures TasksOk(Take(s, e)) && AckedOk(Take(s, e)) && OnePending(Take(s, e))
  {
    hide Always, Enabled, Alone, Take, NoOverlap, CallsOk, BeingDeleted;
    var u := Take(s, e);
    forall a, t | LivePending(u, a, t) ensures LivePending(s, a, t) {}
    SamePending(s, u);
    forall t | t in u.store.tasks ensures TaskOk(u, t) {
      TaskIsOk(s, t);
      DeletionsStay(s, e, t);
    }
  }

  lemma StartKeepsInv(s: State, e: Step)
    requires Inv(s) && Enabled(s, e) && Alone(s, e)
    requires e.StartFollow? || e.StartFix? || e.Crash?
    ensures Inv(Take(s, e))
  {
    AlwaysKept(s, e);
    StoreStays(s, e);
    var u := Take(s, e);
    forall a, t | LivePending(u, a, t) ensures LivePending(s, a, t) {}
    hide Always, TasksOk, AckedOk, OnePending, LivePending, BeingDeleted;
    forall d | d in u.calls ensures CallOk(u, u.calls[d].task, u.calls[d].call) {
      if d in s.calls && s.calls[d] == u.calls[d] {
        CallIsOk(s, d);
      }
    }
  }

  lemma FailKeepsInv(s: State, c: CallId)
    requires Inv(s) && Enabled(s, Fail(c)) && Alone(s, Fail(c))
    ensures Inv(Take(s, Fail(c)))
  {
    AlwaysKept(s, Fail(c));
    StoreStays(s, Fail(c));
    AlwaysMeans(s);
    CallHas(s, c);
    CallIsOk(s, c);
    var u := Take(s, Fail(c));
    forall a, t | LivePending(u, a, t) ensures LivePending(s, a, t) {}
    hide Always, TasksOk, AckedOk, OnePending, CallsHoldIds, QueuedWasInserted, Ids, LivePending, BeingDeleted;
    forall d | d in u.calls ensures CallOk(u, u.calls[d].task, u.calls[d].call) {
      if d != c { CallIsOk(s, d); }
    }
  }

  lemma CreateKeepsInv(s: State, e: Step)
    requires Inv(s) && Enabled(s, e) && Alone(s, e)
    requires e.Create? || e.Recreate?
    ensures Inv(Take(s, e))
  {
    hide Always, OnePending, AckedOk, NoOverlap, TaskOk, CallOk, Enabled, Alone;
    AlwaysKept(s, e);
    var u := Take(s, e);
    assert u.store.attempts == s.store.attempts && u.inserted == s.inserted by { CreateStores(s, e); }
    forall a, t | LivePending(u, a, t) ensures LivePending(s, a, t) {}
    SamePending(s, u);
    CreateNoOverlap(s, e);
    forall d | d in u.calls ensures CallOk(u, u.calls[d].task, u.calls[d].call) {
      CreateCallOk(s, e, d);
    }
    forall t | t in u.store.tasks ensures TaskOk(u, t) {
      CreateTaskOk(s, e, t);
    }
    CreateAckedOk(s, e);
    assert CallsOk(u) && TasksOk(u);
  }

  lemma CreateStores(s: State, e: Step)
    requires Enabled(s, e) && (e.Create? || e.Recreate?)
    ensures Take(s, e).store.attempts == s.store.attempts && Take(s, e).inserted == s.inserted
  {
  }

  lemma CreateNoOverlap(s: State, e: Step)
    requires Inv(s) && Enabled(s, e) && Alone(s, e) && (e.Create? || e.Recreate?)
    ensures NoOverlap(Take(s, e))
  {
    hide Always, OnePending, TasksOk, AckedOk, CallsOk;
  }

  // A new id was never inserted, and no call on another task is concerned.
  lemma CreateCallOk(s: State, e: Step, d: CallId)
    requires Inv(s) && Enabled(s, e) && Alone(s, e) && (e.Create? || e.Recreate?) && d in Take(s, e).calls
    ensures CallOk(Take(s, e), Take(s, e).calls[d].task, Take(s, e).calls[d].call)
  {
    AlwaysMeans(s);
    hide Always, CallsHoldIds, QueuedWasInserted, TasksOk, AckedOk, OnePending, NoOverlap, CallsOk, BeingDeleted;
    var u := Take(s, e);
    assert u.store.attempts == s.store.attempts;
    forall a, t ensures LivePending(u, a, t) <==> LivePending(s, a, t) {}
    hide LivePending;
    if d in s.calls { CallIsOk(s, d); }
  }

  lemma CreateTaskOk(s: State, e: Step, t: TaskId)
    requires Inv(s) && Enabled(s, e) && Alone(s, e) && (e.Create? || e.Recreate?) && t in Take(s, e).store.tasks
    ensures TaskOk(Take(s, e), t)
  {
    AlwaysMeans(s);
    DeletionsStay(s, e, t);
    hide Always, CallsHoldIds, QueuedWasInserted, AckedOk, OnePending, NoOverlap, CallsOk, BeingDeleted, TasksOk;
    if t != e.t { TaskIsOk(s, t); }
  }

  lemma CreateAckedOk(s: State, e: Step)
    requires Inv(s) && Enabled(s, e) && Alone(s, e) && (e.Create? || e.Recreate?)
    ensures AckedOk(Take(s, e))
  {
    AlwaysMeans(s);
    hide Always, CallsHoldIds, QueuedWasInserted, OnePending, NoOverlap, CallsOk, BeingDeleted, TasksOk;
  }

  // The steps of the workers and the cleaners, on one attempt.
  lemma AttemptStepKeepsInv(s: State, e: Step)
    requires Inv(s) && Enabled(s, e) && Alone(s, e)
    requires e.Reserve? || e.Touch? || e.Finish? || e.CleanDeletedAttempt? || e.CleanFinished?
    ensures Inv(Take(s, e))
  {
    hide Always, CallsOk, AckedOk, OnePending, TaskOk, NoOverlap, Enabled, Alone, Take;
    AlwaysKept(s, e);
    var u := Take(s, e);
    forall a ensures AttemptFollows(s, u, a) {
      AttemptStep(s, e, a);
    }
    AttemptStepStores(s, e);
    forall a, t | LivePending(u, a, t) ensures LivePending(s, a, t) {
      assert AttemptFollows(s, u, a);
    }
    SamePending(s, u);
    forall a | a in u.store.attempts
      ensures a in s.store.attempts && u.store.attempts[a].task == s.store.attempts[a].task && u.store.attempts[a].deleted == s.store.attempts[a].deleted
    {
      assert AttemptFollows(s, u, a);
    }
    CallsStayOk(s, u);
    assert AckedOk(u) by { AckedStays(s, u); }
    forall t | t in u.store.tasks ensures TaskOk(u, t) {
      TaskIsOk(s, t);
      AttemptStepTaskOk(s, e, t);
    }
    assert TasksOk(u) && NoOverlap(u) by { SameCallsNoOverlap(s, u); }
  }

  lemma SameCallsNoOverlap(s: State, u: State)
    requires NoOverlap(s) && u.calls == s.calls
    ensures NoOverlap(u)
  {
  }

  // An attempt after such a step, if it is still stored.
  ghost predicate AttemptFollows(s: State, u: State, a: AttemptId) {
    a in u.store.attempts ==>
      && a in s.store.attempts
      && var x, y := s.store.attempts[a], u.store.attempts[a];
         y.task == x.task && y.deleted == x.deleted && y.acked == x.acked && (y.status == Pending ==> x.status == Pending)
  }

  lemma AttemptStep(s: State, e: Step, a: AttemptId)
    requires Enabled(s, e)
    requires e.Reserve? || e.Touch? || e.Finish? || e.CleanDeletedAttempt? || e.CleanFinished?
    ensures AttemptFollows(s, Take(s, e), a)
  {
  }

  lemma AttemptStepStores(s: State, e: Step)
    requires Enabled(s, e)
    requires e.Reserve? || e.Touch? || e.Finish? || e.CleanDeletedAttempt? || e.CleanFinished?
    ensures var u := Take(s, e); u.store.tasks == s.store.tasks && u.inserted == s.inserted && u.calls == s.calls
  {
  }

  lemma AckedStays(s: State, u: State)
    requires AckedOk(s) && u.store.tasks == s.store.tasks && forall a :: AttemptFollows(s, u, a)
    ensures AckedOk(u)
  {
    forall a | a in u.store.attempts && u.store.attempts[a].acked && u.store.attempts[a].task in u.store.tasks
      ensures u.store.tasks[u.store.attempts[a].task].current != a
    {
      assert AttemptFollows(s, u, a);
    }
  }

  // Only deleted and acknowledged attempts go, and the current one is neither.
  lemma AttemptStepTaskOk(s: State, e: Step, t: TaskId)
    requires Enabled(s, e) && Alone(s, e) && t in s.store.tasks && TaskOk(s, t)
    requires e.Reserve? || e.Touch? || e.Finish? || e.CleanDeletedAttempt? || e.CleanFinished?
    ensures t in Take(s, e).store.tasks && TaskOk(Take(s, e), t)
  {
    DeletionsStay(s, e, t);
    hide BeingDeleted;
  }

  // The first operation of a deletion, and the removal of a deleted task.
  lemma DeleteKeepsInv(s: State, e: Step)
    requires Inv(s) && Enabled(s, e) && Alone(s, e)
    requires e.StartDelete? || e.CleanDeletedTask?
    ensures Inv(Take(s, e))
  {
    hide Always, AckedOk, OnePending, TaskOk, CallOk, NoOverlap, Take;
    AlwaysKept(s, e);
    var u := Take(s, e);
    forall a, t | LivePending(u, a, t) ensures LivePending(s, a, t) { DeletePendingLess(s, e, a, t); }
    SamePending(s, u);
    DeleteNoOverlap(s, e);
    forall d | d in u.calls ensures CallOk(u, u.calls[d].task, u.calls[d].call) {
      DeleteCallOk(s, e, d);
    }
    forall t | t in u.store.tasks ensures TaskOk(u, t) {
      DeleteTaskOk(s, e, t);
    }
    assert CallsOk(u) && TasksOk(u);
  }

  lemma DeletePendingLess(s: State, e: Step, a: AttemptId, t: TaskId)
    requires Enabled(s, e) && (e.StartDelete? || e.CleanDeletedTask?) && LivePending(Take(s, e), a, t)
    ensures LivePending(s, a, t)
  {
  }

  lemma DeleteNoOverlap(s: State, e: Step)
    requires Inv(s) && Enabled(s, e) && Alone(s, e) && (e.StartDelete? || e.CleanDeletedTask?)
    ensures NoOverlap(Take(s, e)) && AckedOk(Take(s, e))
  {
    hide Always, OnePending, TasksOk, CallsOk;
  }

  lemma DeleteCallOk(s: State, e: Step, d: CallId)
    requires Inv(s) && Enabled(s, e) && Alone(s, e) && (e.StartDelete? || e.CleanDeletedTask?) && d in Take(s, e).calls
    ensures CallOk(Take(s, e), Take(s, e).calls[d].task, Take(s, e).calls[d].call)
  {
    hide Always, TasksOk, AckedOk, OnePending, NoOverlap, CallsOk;
    var u := Take(s, e);
    forall a, t | LivePending(u, a, t) ensures LivePending(s, a, t) { DeletePendingLess(s, e, a, t); }
    hide LivePending;
    if d in s.calls { CallIsOk(s, d); }
  }

  lemma DeleteTaskOk(s: State, e: Step, t: TaskId)
    requires Inv(s) && Enabled(s, e) && Alone(s, e) && (e.StartDelete? || e.CleanDeletedTask?) && t in Take(s, e).store.tasks
    ensures TaskOk(Take(s, e), t)
  {
    AlwaysMeans(s);
    DeletionsStay(s, e, t);
    if e.StartDelete? && t == e.t { DeletionStarts(s, e.c, t); }
    hide Always, CallsHoldIds, QueuedWasInserted, AckedOk, OnePending, NoOverlap, CallsOk, BeingDeleted, TasksOk;
    TaskIsOk(s, t);
  }

  lemma DeletionStarts(s: State, c: CallId, t: TaskId)
    requires Enabled(s, StartDelete(c, t))
    ensures BeingDeleted(Take(s, StartDelete(c, t)), t)
  {
    assert Take(s, StartDelete(c, t)).calls[c] == Proc(t, Dropping);
  }

  lemma InvKept(s: State, e: Step)
    requires Inv(s) && Enabled(s, e) && Alone(s, e)
    ensures Inv(Take(s, e))
  {
    hide Inv, Alone;
    if e.Advance? {
      AdvanceKeepsInv(s, e.c, e.env);
    } else if e.Create? || e.Recreate? {
      CreateKeepsInv(s, e);
    } else if e.StartFollow? || e.StartFix? || e.Crash? {
      StartKeepsInv(s, e);
    } else if e.Fail? {
      FailKeepsInv(s, e.c);
    } else if e.StartDelete? || e.CleanDeletedTask? {
      DeleteKeepsInv(s, e);
    } else {
      AttemptStepKeepsInv(s, e);
    }
  }

  // ---------- all runs ----------

  ghost predicate RunsAlone(states: seq<State>, steps: seq<Step>) {
    IsRun(states, steps) && forall i :: 0 <= i < |steps| ==> Alone(states[i], steps[i])
  }

  // Whatever overlaps or crashes, attempt_queued is never true of an attempt
  // that was not inserted.
  lemma {:induction false} QueuedInEveryRun(states: seq<State>, steps: seq<Step>, i: nat)
    requires IsRun(states, steps) && i < |states|
    ensures Always(states[i])
  {
    if i > 0 {
      QueuedInEveryRun(states, steps, i - 1);
      AlwaysKept(states[i - 1], steps[i - 1]);
    }
  }

  lemma {:induction false} InvInEveryRun(states: seq<State>, steps: seq<Step>, i: nat)
    requires RunsAlone(states, steps) && i < |states|
    ensures Inv(states[i])
  {
    hide Inv;
    if i == 0 {
      InitInv(states[0]);
    } else {
      InvInEveryRun(states, steps, i - 1);
      InvKept(states[i - 1], steps[i - 1]);
    }
  }

  lemma InitInv(s: State)
    requires Init(s)
    ensures Inv(s)
  {
  }

  // What keeps an active task going: its current attempt is stored and still to
  // be run, running, or finished and not yet followed up; or it is missing, and
  // then the task is one the fixer selects.
  predicate Healthy(s: State, t: TaskId)
    requires t in s.store.tasks
  {
    var task := s.store.tasks[t];
    if task.current in s.store.attempts then
      var a := s.store.attempts[task.current];
      a.task == t && !a.deleted && !a.acked
    else
      !task.queued
  }

  lemma HealthyInEveryRun(states: seq<State>, steps: seq<Step>, i: nat)
    requires RunsAlone(states, steps) && i < |states|
    ensures forall t :: t in states[i].store.tasks && !states[i].store.tasks[t].deleted && !BeingDeleted(states[i], t) ==> Healthy(states[i], t)
    ensures forall t :: t in states[i].store.tasks && states[i].store.tasks[t].queued ==> states[i].store.tasks[t].current in states[i].inserted
    ensures forall a, b, t :: LivePending(states[i], a, t) && LivePending(states[i], b, t) ==> a == b
  {
    InvInEveryRun(states, steps, i);
    var s := states[i];
    hide RunsAlone;
    forall t | t in s.store.tasks && !s.store.tasks[t].deleted && !BeingDeleted(s, t) ensures Healthy(s, t) {
      assert TaskOk(s, t);
    }
  }

  // ---------- the fixer ----------

  // A task that is active has a time to run at.
  predicate ActiveHasTime(s: State) {
    forall t :: t in s.store.tasks && s.store.tasks[t].active ==> s.store.tasks[t].at > 0
  }

  lemma {:induction false} ActiveHasTimeInEveryRun(states: seq<State>, steps: seq<Step>, i: nat)
    requires IsRun(states, steps) && i < |states|
    ensures ActiveHasTime(states[i])
  {
    if i > 0 {
      ActiveHasTimeInEveryRun(states, steps, i - 1);
      assert Enabled(states[i - 1], steps[i - 1]);
      TimeKept(states[i - 1], steps[i - 1]);
    }
  }

  lemma TimeKept(s: State, e: Step)
    requires ActiveHasTime(s) && Enabled(s, e)
    ensures ActiveHasTime(Take(s, e))
  {
  }

  // A task never counts more errors than executions.
  predicate ErrorsCounted(s: State) {
    forall t :: t in s.store.tasks ==> 0 <= s.store.tasks[t].errors <= s.store.tasks[t].executions
  }

  // ErrorRate, a percentage.
  function ErrorRate(task: Task): int {
    if task.executions == 0 then 0 else task.errors * 100 / task.executions
  }

  lemma {:induction false} ErrorRateInEveryRun(states: seq<State>, steps: seq<Step>, i: nat, t: TaskId)
    requires IsRun(states, steps) && i < |states|
    ensures ErrorsCounted(states[i])
    ensures t in states[i].store.tasks ==> 0 <= ErrorRate(states[i].store.tasks[t]) <= 100
    ensures t in states[i].store.tasks ==> var task := states[i].store.tasks[t]; var part := ErrorRate(task) * task.executions;
      part <= task.errors * 100 && (task.executions > 0 ==> task.errors * 100 < part + task.executions)
  {
    if i > 0 {
      ErrorRateInEveryRun(states, steps, i - 1, t);
      assert Enabled(states[i - 1], steps[i - 1]);
      ErrorsKept(states[i - 1], steps[i - 1]);
    }
    if t in states[i].store.tasks {
      RateInRange(states[i].store.tasks[t].errors, states[i].store.tasks[t].executions);
    }
  }

  lemma RateInRange(errors: int, executions: int)
    requires 0 <= errors <= executions
    ensures executions != 0 ==> 0 <= errors * 100 / executions <= 100
    ensures executions != 0 ==> var part := errors * 100 / executions * executions; part <= errors * 100 < part + executions
  {
    if executions != 0 {
      var q := errors * 100 / executions;
      assert q * executions <= errors * 100;
      NotAbove(q - 100, executions);
    }
  }

  lemma NotAbove(x: int, y: int)
    requires x * y <= 0 && y > 0
    ensures x <= 0
  {
  }

  lemma ErrorsKept(s: State, e: Step)
    requires ErrorsCounted(s) && Enabled(s, e)
    ensures ErrorsCounted(Take(s, e))
  {
    if e.Advance? {
      AdvanceErrors(s, e.c, e.env);
      hide AdvanceCall;
    }
  }

  lemma AdvanceErrors(s: State, c: CallId, env: Env)
    requires ErrorsCounted(s) && c in s.calls
    ensures ErrorsCounted(AdvanceCall(s, c, env))
  {
    var u := AdvanceCall(s, c, env);
    if !s.calls[c].call.Applying? && !s.calls[c].call.Marking? && !s.calls[c].call.Dropping? {
      assert u.store.tasks == s.store.tasks;
    }
  }

  // The call c is the fixer's, still at work on task t.
  predicate Fixing(s: State, c: CallId, t: TaskId) {
    && c in s.calls && s.calls[c].task == t
    && t in s.store.tasks && !s.store.tasks[t].deleted
    && match s.calls[c].call
       case Looking(task) => Wanted(task)
       case Deleting(task, ack) => ack == NoAck && Wanted(task)
       case Inserting(task, ack) => ack == NoAck
       case Marking(task, ack) => ack == NoAck
       case _ => false
  }

  predicate HasAttempt(s: State, t: TaskId) {
    && t in s.store.tasks && s.store.tasks[t].current in s.store.attempts
    && var a := s.store.attempts[s.store.tasks[t].current];
       a.task == t && !a.deleted && !a.acked
  }

  lemma FixingStep(s: State, e: Step, c: CallId, t: TaskId)
    requires Inv(s) && Enabled(s, e) && Alone(s, e) && Fixing(s, c, t) && e != Crash(c) && e != Fail(c)
    ensures Fixing(Take(s, e), c, t) || (c !in Take(s, e).calls && HasAttempt(Take(s, e), t))
  {
    hide Always, NoOverlap, AckedOk, OnePending, TasksOk, TaskOk, CallsOk, Enabled;
    InvKept(s, e);
    var u := Take(s, e);
    assert Enabled(s, e) && s.calls[c].task == t;
    if e == Advance(c, if e.Advance? then e.env else Env(0, 0, 0, 0)) {
      CallIsOk(s, c);
      FixingAdvance(s, c, e.env, t);
    } else {
      FixingOther(s, e, c, t);
    }
  }

  lemma FixingAdvance(s: State, c: CallId, env: Env, t: TaskId)
    requires Inv(s) && Enabled(s, Advance(c, env)) && Fixing(s, c, t)
    ensures var u := AdvanceCall(s, c, env); Fixing(u, c, t) || (c !in u.calls && HasAttempt(u, t))
  {
    AlwaysMeans(s);
    CallHas(s, c);
    CallIsOk(s, c);
    assert TaskOk(s, t);
    hide Always, CallsHoldIds, QueuedWasInserted, NoOverlap, AckedOk, OnePending, TasksOk, CallsOk;
  }

  lemma FixingOther(s: State, e: Step, c: CallId, t: TaskId)
    requires NoOverlap(s) && Enabled(s, e) && Alone(s, e) && Fixing(s, c, t) && e != Crash(c) && e != Fail(c)
    requires e.Advance? ==> e.c != c
    ensures Fixing(Take(s, e), c, t)
  {
    hide Follow, DeletePending, DeleteAll, Wanted;
    if e.Advance? {
      AdvanceSameTask(s, e.c, e.env, t);
      AdvanceOnlyCall(s, e.c, e.env, c);
      hide AdvanceCall;
    } else {
      OtherSameCall(s, e, c, t);
      hide Take;
    }
  }

  lemma AdvanceOnlyCall(s: State, c: CallId, env: Env, d: CallId)
    requires Enabled(s, Advance(c, env)) && d in s.calls && d != c
    ensures d in AdvanceCall(s, c, env).calls && AdvanceCall(s, c, env).calls[d] == s.calls[d]
  {
  }

  lemma OtherSameCall(s: State, e: Step, c: CallId, t: TaskId)
    requires NoOverlap(s) && Enabled(s, e) && Alone(s, e) && Fixing(s, c, t) && e != Crash(c) && e != Fail(c) && !e.Advance?
    ensures var u := Take(s, e); c in u.calls && u.calls[c] == s.calls[c] && t in u.store.tasks && u.store.tasks[t].deleted == s.store.tasks[t].deleted
  {
    hide Wanted, DeletePending, DeleteAll;
  }

  // Every task the fixer selects gets its current attempt, unless the fixer
  // itself stops midway.
  lemma {:induction false} FixerRepairs(states: seq<State>, steps: seq<Step>, i: nat, j: nat, c: CallId, t: TaskId)
    requires RunsAlone(states, steps) && i < j < |states|
    requires steps[i] == StartFix(c, t)
    requires forall k :: i < k < j ==> c in states[k].calls && steps[k] != Crash(c) && steps[k] != Fail(c)
    ensures if c in states[j].calls then Fixing(states[j], c, t) else HasAttempt(states[j], t)
  {
    hide Inv, Fixing, HasAttempt;
    assert Enabled(states[j - 1], steps[j - 1]) && Alone(states[j - 1], steps[j - 1]);
    assert states[j] == Take(states[j - 1], steps[j - 1]);
    if j == i + 1 {
      ActiveHasTimeInEveryRun(states, steps, i);
      FixStarts(states[i], c, t);
    } else {
      FixerRepairs(states, steps, i, j - 1, c, t);
      InvInEveryRun(states, steps, j - 1);
      FixingStep(states[j - 1], steps[j - 1], c, t);
      assert Fixing(states[j], c, t) ==> c in states[j].calls by { FixingHas(states[j], c, t); }
    }
  }

  lemma FixStarts(s: State, c: CallId, t: TaskId)
    requires ActiveHasTime(s) && Enabled(s, StartFix(c, t))
    ensures Fixing(Take(s, StartFix(c, t)), c, t)
  {
  }

  lemma FixingHas(s: State, c: CallId, t: TaskId)
    ensures Fixing(s, c, t) ==> c in s.calls
  {
  }

  // ---------- where the guarantee stops ----------

  ghost predicate AllHealthy(s: State) {
    forall t :: t in s.store.tasks && !s.store.tasks[t].deleted ==> Healthy(s, t)
  }

  // When the next operation of a call on task t, whatever else is at work on it,
  // does not strand the task. A stale copy is only written back if the attempt
  // current in it is followed, gone or still good; the pending attempt deleted is
  // not the current one; the flag is not set for an attempt that is gone; and the
  // attempt acknowledged is not the current one.
  predicate CallSpares(s: State, t: TaskId, call: Call) {
    t in s.store.tasks && !s.store.tasks[t].deleted ==>
      var task := s.store.tasks[t];
      match call
      case Applying(a, status, read) =>
        || read.current == a || read.current !in s.store.attempts
        || (!s.store.attempts[read.current].deleted && !s.store.attempts[read.current].acked)
      case Deleting(_, _) => !LivePending(s, task.current, t)
      case Marking(copy, _) => task.current != copy.current || task.queued || task.current in s.store.attempts
      case Acking(a) => task.current != a || a !in s.store.attempts
      case _ => true
  }

  // The same of every step: a deletion strands the task until its second operation
  // if the current attempt is stored, and so does cleaning the current attempt of a
  // task that has its flag set.
  ghost predicate Spares(s: State, e: Step) {
    match e
    case Advance(c, env) => c in s.calls ==> CallSpares(s, s.calls[c].task, s.calls[c].call)
    case StartDelete(c, t) => t in s.store.tasks && !s.store.tasks[t].deleted ==> s.store.tasks[t].current !in s.store.attempts
    case CleanFinished(a) =>
      forall t :: t in s.store.tasks && !s.store.tasks[t].deleted && s.store.tasks[t].current == a ==> !s.store.tasks[t].queued
    case _ => true
  }

  lemma SameHealthy(s: State, u: State, t: TaskId)
    requires Ids(s) && t in s.store.tasks && SameFor(s, u, t)
    ensures t in u.store.tasks && u.store.tasks[t] == s.store.tasks[t] && (Healthy(u, t) <==> Healthy(s, t))
  {
  }

  // The task of the call that goes on.
  lemma OwnExact(s: State, c: CallId, env: Env)
    requires Always(s) && Enabled(s, Advance(c, env)) && s.calls[c].task in s.store.tasks
    requires !s.store.tasks[s.calls[c].task].deleted ==> Healthy(s, s.calls[c].task)
    ensures var t, u := s.calls[c].task, AdvanceCall(s, c, env);
      t in u.store.tasks && ((!u.store.tasks[t].deleted ==> Healthy(u, t)) <==> CallSpares(s, t, s.calls[c].call))
  {
    CallHas(s, c);
    AlwaysMeans(s);
    hide Always, CallsHoldIds, QueuedWasInserted;
    var call := s.calls[c].call;
    if call.Applying? {
      if s.store.tasks[s.calls[c].task].deleted { hide Healthy; } else { ApplyExact(s, c, env); }
    } else if call.Deleting? {
      DeletingExact(s, c, env);
    } else {
      hide Follow, DeletePending;
    }
  }

  // The pending attempts go; the current one is lost if it is among them.
  lemma DeletingExact(s: State, c: CallId, env: Env)
    requires Enabled(s, Advance(c, env)) && s.calls[c].call.Deleting? && s.calls[c].task in s.store.tasks
    requires !s.store.tasks[s.calls[c].task].deleted ==> Healthy(s, s.calls[c].task)
    ensures var t, u := s.calls[c].task, AdvanceCall(s, c, env);
      t in u.store.tasks && ((!u.store.tasks[t].deleted ==> Healthy(u, t)) <==> CallSpares(s, t, s.calls[c].call))
  {
    hide Follow;
    assert AdvanceCall(s, c, env).store == s.store.(attempts := DeletePending(s.store.attempts, s.calls[c].task));
    hide AdvanceCall;
  }

  lemma AdvanceExact(s: State, c: CallId, env: Env)
    requires Always(s) && AllHealthy(s) && Enabled(s, Advance(c, env))
    ensures AllHealthy(AdvanceCall(s, c, env)) <==> CallSpares(s, s.calls[c].task, s.calls[c].call)
  {
    assert c in s.calls;
    hide Always, Enabled, AdvanceCall, CallSpares, Healthy, SameFor, Ids;
    var own, u := s.calls[c].task, AdvanceCall(s, c, env);
    AlwaysMeans(s);
    if own in s.store.tasks {
      OwnExact(s, c, env);
    } else {
      NoTaskNoStrand(s, c, env);
    }
    forall t | t != own ensures (t in u.store.tasks <==> t in s.store.tasks) {
      AdvanceSameTask(s, c, env, t);
      SameTaskMeans(s, u, t);
    }
    forall t | t in s.store.tasks && t != own
      ensures t in u.store.tasks && u.store.tasks[t] == s.store.tasks[t] && (Healthy(u, t) <==> Healthy(s, t))
    {
      AdvanceSame(s, c, env, t);
      SameHealthy(s, u, t);
    }
  }

  lemma SameTaskMeans(s: State, u: State, t: TaskId)
    requires SameTask(s, u, t)
    ensures t in s.store.tasks <==> t in u.store.tasks
  {
  }

  lemma NoTaskNoStrand(s: State, c: CallId, env: Env)
    requires Enabled(s, Advance(c, env)) && s.calls[c].task !in s.store.tasks
    ensures s.calls[c].task !in AdvanceCall(s, c, env).store.tasks && CallSpares(s, s.calls[c].task, s.calls[c].call)
  {
  }

  // From a state in which all is well a step leaves all well exactly when it
  // spares every task, whatever overlaps, crashes or fails.
  lemma StepExact(s: State, e: Step)
    requires Always(s) && AllHealthy(s) && Enabled(s, e)
    ensures AllHealthy(Take(s, e)) <==> Spares(s, e)
  {
    AlwaysMeans(s);
    hide Always, CallsHoldIds, QueuedWasInserted, CallSpares;
    match e
    case Advance(c, env) =>
      hide AdvanceCall, AllHealthy, Ids;
      AdvanceExact(s, c, env);
    case StartDelete(c, t) => DeletionExact(s, c, t);
    case CleanFinished(a) => CleaningExact(s, a);
    case _ => OthersSpare(s, e);
  }

  lemma DeletionExact(s: State, c: CallId, t: TaskId)
    requires Ids(s) && AllHealthy(s) && Enabled(s, StartDelete(c, t))
    ensures AllHealthy(Take(s, StartDelete(c, t))) <==> Spares(s, StartDelete(c, t))
  {
    var u := Take(s, StartDelete(c, t));
    hide AllHealthy;
    forall v | v in s.store.tasks && !s.store.tasks[v].deleted
      ensures Healthy(u, v) <==> (v == t ==> s.store.tasks[v].current !in s.store.attempts)
    {
      HealthyOne(s, v);
    }
    AllHealthyIs(u);
  }

  lemma HealthyOne(s: State, t: TaskId)
    requires AllHealthy(s) && t in s.store.tasks && !s.store.tasks[t].deleted
    ensures Healthy(s, t)
  {
  }

  lemma AllHealthyIs(s: State)
    ensures AllHealthy(s) <==> forall t :: t in s.store.tasks && !s.store.tasks[t].deleted ==> Healthy(s, t)
  {
    hide Healthy;
  }

  lemma CleaningExact(s: State, a: AttemptId)
    requires Ids(s) && AllHealthy(s) && Enabled(s, CleanFinished(a))
    ensures AllHealthy(Take(s, CleanFinished(a))) <==> Spares(s, CleanFinished(a))
  {
    var u := Take(s, CleanFinished(a));
    hide AllHealthy;
    forall v | v in s.store.tasks && !s.store.tasks[v].deleted
      ensures Healthy(u, v) <==> (s.store.tasks[v].current == a ==> !s.store.tasks[v].queued)
    {
      HealthyOne(s, v);
    }
    AllHealthyIs(u);
  }

  lemma OthersSpare(s: State, e: Step)
    requires Ids(s) && AllHealthy(s) && Enabled(s, e) && !e.Advance? && !e.StartDelete? && !e.CleanFinished?
    ensures AllHealthy(Take(s, e))
  {
    var u := Take(s, e);
    hide AllHealthy;
    forall v | v in u.store.tasks && !u.store.tasks[v].deleted ensures Healthy(u, v) {
      if v in s.store.tasks && !s.store.tasks[v].deleted { HealthyOne(s, v); }
    }
    AllHealthyIs(u);
  }

  // All is well all through a run exactly when every step of it spares every task.
  lemma HealthyExact(states: seq<State>, steps: seq<Step>)
    requires IsRun(states, steps)
    ensures (forall i :: 0 <= i < |states| ==> AllHealthy(states[i])) <==> (forall i :: 0 <= i < |steps| ==> Spares(states[i], steps[i]))
  {
    hide AllHealthy, Spares;
    if forall i :: 0 <= i < |steps| ==> Spares(states[i], steps[i]) {
      forall i | 0 <= i < |states| ensures AllHealthy(states[i]) {
        HealthyThrough(states, steps, i);
      }
    }
    if forall i :: 0 <= i < |states| ==> AllHealthy(states[i]) {
      forall i | 0 <= i < |steps| ensures Spares(states[i], steps[i]) {
        QueuedInEveryRun(states, steps, i);
        StepExact(states[i], steps[i]);
        assert AllHealthy(states[i + 1]);
      }
    }
  }

  lemma {:induction false} HealthyThrough(states: seq<State>, steps: seq<Step>, i: nat)
    requires IsRun(states, steps) && i < |states| && forall k :: 0 <= k < i ==> Spares(states[k], steps[k])
    ensures AllHealthy(states[i])
  {
    hide Spares;
    if i == 0 {
      NoneYet(states[0]);
    } else {
      hide AllHealthy;
      HealthyThrough(states, steps, i - 1);
      QueuedInEveryRun(states, steps, i - 1);
      StepExact(states[i - 1], steps[i - 1]);
    }
  }

  lemma NoneYet(s: State)
    requires Init(s)
    ensures AllHealthy(s)
  {
  }

  // A deletion that stops between its operations leaves the task healthy exactly
  // when it had no attempt to lose.
  lemma HalfDeletionExact(s: State, c: CallId, t: TaskId)
    requires Inv(s) && c in s.calls && s.calls[c] == Proc(t, Dropping) && t in s.store.tasks && !s.store.tasks[t].deleted
    ensures Healthy(Take(s, Crash(c)), t) <==> s.store.tasks[t].current !in s.store.attempts && !s.store.tasks[t].queued
  {
    CallIsOk(s, c);
    AlwaysMeans(s);
    hide Always, TasksOk, AckedOk, OnePending, CallsOk, NoOverlap, CallsHoldIds, QueuedWasInserted;
  }

  // The update of NextAttemptForTask leaves the task healthy exactly when the
  // followed attempt was current in the copy read before, or the attempt that
  // was current there is gone, or it is neither deleted nor acknowledged.
  lemma ApplyExact(s: State, c: CallId, env: Env)
    requires Always(s) && Enabled(s, Advance(c, env)) && s.calls[c].call.Applying? && s.calls[c].task in s.store.tasks
    ensures s.calls[c].task in AdvanceCall(s, c, env).store.tasks
    ensures var call := s.calls[c].call; var current := call.task.current;
      Healthy(AdvanceCall(s, c, env), s.calls[c].task) <==>
      (current == call.attempt || current !in s.store.attempts
       || (!s.store.attempts[current].deleted && !s.store.attempts[current].acked))
  {
    CallHas(s, c);
    hide CallsHoldIds, QueuedWasInserted;
  }

  const FIRST := Task(0, false, 1, TaskPending, true, 0, 0, Retry(0, 10, 2.0, 10, 300), 10, false, 0, false)
  const AGAIN := FIRST.(at := 2, current := 11, updated := 2)
  const THIRD := AGAIN.(at := 3, current := 12, updated := 3)
  const ENV := Env(13, 4, 0, 0)
  const DONE := Attempt(0, 0, 5, 1, Success, false, false)
  const WAITING := Attempt(0, 0, 2, 2, Pending, false, false)

  const EMPTY := State(Store(map[], map[]), map[], {}, map[])
  // The first attempt has run and is still to be followed up.
  const MADE := State(Store(map[0 := FIRST], map[10 := DONE]), map[10 := 0], {10}, map[])
  // The task was put again and its new attempt inserted.
  const PUT := State(Store(map[0 := AGAIN], map[10 := DONE, 11 := WAITING]), map[10 := 0, 11 := 0], {10, 11}, map[])
  // Following up the first attempt has read attempt 11 as the current one.
  const READ := PUT.(calls := map[3 := Proc(0, Applying(10, Success, AGAIN))])
  // Putting the task a third time has deleted attempt 11.
  const DROPPED := State(Store(map[0 := THIRD], map[10 := DONE, 11 := WAITING.(deleted := true)]), map[10 := 0, 11 := 0, 12 := 0], {10, 11},
    map[3 := Proc(0, Applying(10, Success, AGAIN)), 4 := Proc(0, Inserting(THIRD, NoAck))])

  lemma Then(states: seq<State>, steps: seq<Step>, s: State, e: Step, u: State) returns (states': seq<State>, steps': seq<Step>)
    requires IsRun(states, steps) && states[|states| - 1] == s && Enabled(s, e) && Take(s, e) == u
    ensures IsRun(states', steps') && states'[|states'| - 1] == u && states' == states + [u] && steps' == steps + [e]
  {
    states', steps' := states + [u], steps + [e];
  }

  const LIVE := AttemptFor(0, FIRST)
  // The first attempt is inserted and still to be marked.
  const INSERTED := State(Store(map[0 := FIRST], map[10 := LIVE]), map[10 := 0], {10}, map[1 := Proc(0, Marking(FIRST, NoAck))])
  // It runs, after the creation stopped before the mark.
  const RUNS := INSERTED.(store := Store(map[0 := FIRST], map[10 := LIVE.(reserved := 5, status := Running)]), calls := map[])

  lemma RunsToInserted() returns (states: seq<State>, steps: seq<Step>)
    ensures IsRun(states, steps) && states[|states| - 1] == INSERTED
  {
    states, steps := [EMPTY], [];
    var a := State(Store(map[0 := FIRST], map[]), map[10 := 0], {}, map[1 := Proc(0, Inserting(FIRST, NoAck))]);
    states, steps := Then(states, steps, EMPTY, Create(1, 0, FIRST), a);
    states, steps := Then(states, steps, a, Advance(1, ENV), INSERTED);
  }

  lemma RunsOnce() returns (states: seq<State>, steps: seq<Step>)
    ensures IsRun(states, steps) && states[|states| - 1] == RUNS
  {
    states, steps := RunsToInserted();
    var d := INSERTED.(calls := map[]);
    states, steps := Then(states, steps, INSERTED, Crash(1), d);
    states, steps := Then(states, steps, d, Reserve(10, 5), RUNS);
  }

  lemma RunsFirst() returns (states: seq<State>, steps: seq<Step>)
    ensures IsRun(states, steps) && states[|states| - 1] == MADE
  {
    states, steps := RunsOnce();
    states, steps := Then(states, steps, RUNS, Finish(10, true), MADE);
  }

  const REPUT := PUT.(calls := map[2 := Proc(0, Marking(AGAIN, NoAck))])

  lemma PutsMore() returns (states: seq<State>, steps: seq<Step>)
    ensures IsRun(states, steps) && states[|states| - 1] == REPUT
  {
    states, steps := RunsFirst();
    var a := State(Store(map[0 := AGAIN], map[10 := DONE]), map[10 := 0, 11 := 0], {10}, map[2 := Proc(0, Deleting(AGAIN, NoAck))]);
    states, steps := Then(states, steps, MADE, Recreate(2, 0, 2, true, false, FIRST.retry, 11, 2), a);
    var b := a.(calls := map[2 := Proc(0, Inserting(AGAIN, NoAck))]);
    assert DeletePending(a.store.attempts, 0) == a.store.attempts;
    states, steps := Then(states, steps, a, Advance(2, ENV), b);
    states, steps := Then(states, steps, b, Advance(2, ENV), REPUT);
  }

  lemma PutsAgain() returns (states: seq<State>, steps: seq<Step>)
    ensures IsRun(states, steps) && states[|states| - 1] == PUT
  {
    states, steps := PutsMore();
    states, steps := Then(states, steps, REPUT, Crash(2), PUT);
  }

  lemma ReadsAndDrops() returns (states: seq<State>, steps: seq<Step>)
    ensures IsRun(states, steps) && states[|states| - 1] == DROPPED
  {
    states, steps := PutsAgain();
    var a := PUT.(calls := map[3 := Proc(0, Finding(10, Success))]);
    states, steps := Then(states, steps, PUT, StartFollow(3, 10, Success, 0), a);
    states, steps := Then(states, steps, a, Advance(3, ENV), READ);
    var b := State(Store(map[0 := THIRD], PUT.store.attempts), map[10 := 0, 11 := 0, 12 := 0], {10, 11},
      READ.calls[4 := Proc(0, Deleting(THIRD, NoAck))]);
    states, steps := Then(states, steps, READ, Recreate(4, 0, 3, true, false, FIRST.retry, 12, 3), b);
    assert DeletePending(PUT.store.attempts, 0) == DROPPED.store.attempts;
    states, steps := Then(states, steps, b, Advance(4, ENV), DROPPED);
  }

  // Without the condition that the calls of one task do not overlap the task
  // can end up stuck: the follow-up writes the deleted attempt back as current.
  lemma OverlapStrands() returns (states: seq<State>, steps: seq<Step>)
    ensures IsRun(states, steps)
    ensures var s := states[|states| - 1]; 0 in s.store.tasks && !s.store.tasks[0].deleted && !Healthy(s, 0)
  {
    states, steps := ReadsAndDrops();
    assert Enabled(DROPPED, Advance(3, ENV));
    states, steps := Then(states, steps, DROPPED, Advance(3, ENV), AdvanceCall(DROPPED, 3, ENV));
  }

  // A task no call is at work on and the fixer does not select: active, its flag
  // set, its current attempt deleted or gone.
  predicate Stuck(s: State, t: TaskId) {
    && t in s.store.tasks && s.calls == map[]
    && s.store.tasks[t].active && !s.store.tasks[t].deleted && s.store.tasks[t].queued && !Healthy(s, t)
  }

  const HASTE := FIRST.(queued := true, updated := 4)
  // The first attempt waits, and the task says so.
  const WAITS := State(Store(map[0 := HASTE], map[10 := LIVE]), map[10 := 0], {10}, map[])

  lemma RunsToWait() returns (states: seq<State>, steps: seq<Step>)
    ensures IsRun(states, steps) && states[|states| - 1] == WAITS
  {
    states, steps := RunsToInserted();
    states, steps := Then(states, steps, INSERTED, Advance(1, ENV), WAITS);
  }

  // A deletion that stops halfway.
  lemma HalfDeletionStrands() returns (states: seq<State>, steps: seq<Step>)
    ensures IsRun(states, steps) && Stuck(states[|states| - 1], 0)
  {
    states, steps := RunsToWait();
    var gone := map[10 := LIVE.(deleted := true)];
    assert DeleteAll(WAITS.store.attempts, 0) == gone;
    var a := State(Store(map[0 := HASTE], gone), map[10 := 0], {10}, map[2 := Proc(0, Dropping)]);
    states, steps := Then(states, steps, WAITS, StartDelete(2, 0), a);
    states, steps := Then(states, steps, a, Crash(2), a.(calls := map[]));
  }

  // CleanFinishedAttempts removes finished attempts without looking whether
  // they were acknowledged: one that was not followed up yet.
  lemma CleaningStrands() returns (states: seq<State>, steps: seq<Step>)
    ensures IsRun(states, steps) && Stuck(states[|states| - 1], 0)
    ensures |steps| > 0 && steps[|steps| - 1] == CleanFinished(10)
    ensures var s := states[|states| - 2]; AllHealthy(s) && 10 in s.store.attempts && !s.store.attempts[10].acked
  {
    states, steps := RunsToWait();
    var a := WAITS.(store := Store(map[0 := HASTE], map[10 := LIVE.(reserved := 5, status := Running)]));
    states, steps := Then(states, steps, WAITS, Reserve(10, 5), a);
    var b := WAITS.(store := Store(map[0 := HASTE], map[10 := LIVE.(reserved := 5, status := Success)]));
    states, steps := Then(states, steps, a, Finish(10, true), b);
    states, steps := Then(states, steps, b, CleanFinished(10), WAITS.(store := Store(map[0 := HASTE], map[])));
  }

  // Two calls follow up the same failed attempt, a worker's and the fixer's: both
  // read it as current, and the slower one deletes what the faster one made.
  const FAILED := LIVE.(reserved := 5, status := Error)
  const OVER := State(Store(map[0 := FIRST], map[10 := FAILED]), map[10 := 0], {10}, map[])
  const FIND := Proc(0, Finding(10, Error))
  const APPLY := Proc(0, Applying(10, Error, FIRST))
  const ENV3 := Env(11, 6, 0, 7)
  const ENV4 := Env(12, 6, 0, 7)
  const TASK3 := Follow(FIRST, FIRST, 10, Error, ENV3)
  const TASK4 := Follow(TASK3, FIRST, 10, Error, ENV4)
  const IDS := map[10 := 0, 11 := 0, 12 := 0]
  const SLOW := Proc(0, Deleting(TASK3, AckOf(10)))

  lemma FollowsAre()
    ensures TASK3 == FIRST.(status := Retrying, at := 7, current := 11, updated := 6, executions := 1, errors := 1, retry := FIRST.retry.(attempts := 1))
    ensures TASK4 == FIRST.(status := Retrying, at := 7, current := 12, updated := 6, executions := 2, errors := 2, retry := FIRST.retry.(attempts := 2))
  {
  }

  lemma RunsToFailed() returns (states: seq<State>, steps: seq<Step>)
    ensures IsRun(states, steps) && states[|states| - 1] == OVER
  {
    states, steps := RunsOnce();
    states, steps := Then(states, steps, RUNS, Finish(10, false), OVER);
  }

  // Both have read and applied their updates.
  lemma BothApply() returns (states: seq<State>, steps: seq<Step>)
    ensures IsRun(states, steps)
    ensures states[|states| - 1] == State(Store(map[0 := TASK4], map[10 := FAILED]), IDS, {10}, map[3 := SLOW, 4 := Proc(0, Deleting(TASK4, AckOf(10)))])
  {
    states, steps := RunsToFailed();
    FollowsAre();
    var a := OVER.(calls := map[3 := FIND]);
    states, steps := Then(states, steps, OVER, StartFollow(3, 10, Error, 0), a);
    var b := OVER.(calls := map[3 := FIND, 4 := FIND]);
    states, steps := Then(states, steps, a, StartFollow(4, 10, Error, 0), b);
    var d := OVER.(calls := map[3 := APPLY, 4 := FIND]);
    states, steps := Then(states, steps, b, Advance(3, ENV3), d);
    var f := OVER.(calls := map[3 := APPLY, 4 := APPLY]);
    states, steps := Then(states, steps, d, Advance(4, ENV4), f);
    var g := State(Store(map[0 := TASK3], map[10 := FAILED]), map[10 := 0, 11 := 0], {10}, map[3 := SLOW, 4 := APPLY]);
    states, steps := Then(states, steps, f, Advance(3, ENV3), g);
    var h := State(Store(map[0 := TASK4], map[10 := FAILED]), IDS, {10}, map[3 := SLOW, 4 := Proc(0, Deleting(TASK4, AckOf(10)))]);
    states, steps := Then(states, steps, g, Advance(4, ENV4), h);
  }

  const NEXT := AttemptFor(0, TASK4)
  const DONE4 := TASK4.(queued := true, updated := 6)

  const MADE4 := State(Store(map[0 := TASK4], map[10 := FAILED, 12 := NEXT]), IDS, {10, 12}, map[3 := SLOW, 4 := Proc(0, Marking(TASK4, AckOf(10)))])

  // The faster call makes its attempt.
  lemma FastMakes() returns (states: seq<State>, steps: seq<Step>)
    ensures IsRun(states, steps) && states[|states| - 1] == MADE4
  {
    states, steps := BothApply();
    FollowsAre();
    hide Follow;
    var only := map[10 := FAILED];
    var h := State(Store(map[0 := TASK4], only), IDS, {10}, map[3 := SLOW, 4 := Proc(0, Deleting(TASK4, AckOf(10)))]);
    assert DeletePending(only, 0) == only;
    var i := h.(calls := map[3 := SLOW, 4 := Proc(0, Inserting(TASK4, AckOf(10)))]);
    states, steps := Then(states, steps, h, Advance(4, ENV4), i);
    states, steps := Then(states, steps, i, Advance(4, ENV4), MADE4);
  }

  // It marks it and acknowledges.
  lemma FastEnds() returns (states: seq<State>, steps: seq<Step>)
    ensures IsRun(states, steps)
    ensures states[|states| - 1] == State(Store(map[0 := DONE4], map[10 := FAILED.(acked := true), 12 := NEXT]), IDS, {10, 12}, map[3 := SLOW])
  {
    states, steps := FastMakes();
    FollowsAre();
    hide Follow, DeletePending;
    var k := State(Store(map[0 := DONE4], map[10 := FAILED, 12 := NEXT]), IDS, {10, 12}, map[3 := SLOW, 4 := Proc(0, Acking(10))]);
    states, steps := Then(states, steps, MADE4, Advance(4, ENV4), k);
    var l := State(Store(map[0 := DONE4], map[10 := FAILED.(acked := true), 12 := NEXT]), IDS, {10, 12}, map[3 := SLOW]);
    states, steps := Then(states, steps, k, Advance(4, ENV4), l);
  }

  lemma TwoFollowsStrand() returns (states: seq<State>, steps: seq<Step>)
    ensures IsRun(states, steps) && Stuck(states[|states| - 1], 0)
  {
    states, steps := FastEnds();
    FollowsAre();
    hide Follow;
    var acked := FAILED.(acked := true);
    var l := State(Store(map[0 := DONE4], map[10 := acked, 12 := NEXT]), IDS, {10, 12}, map[3 := SLOW]);
    var dropped := map[10 := acked, 12 := NEXT.(deleted := true)];
    assert DeletePending(l.store.attempts, 0) == dropped;
    var m := State(Store(map[0 := DONE4], dropped), IDS, {10, 12}, map[3 := Proc(0, Inserting(TASK3, AckOf(10)))]);
    states, steps := Then(states, steps, l, Advance(3, ENV3), m);
    states, steps := Then(states, steps, m, Crash(3), m.(calls := map[]));
  }
}
