// The calls of models/task.go and models/attempt.go as methods on the stored
// collections. What one call does when nothing interrupts it is what the steps
// of the protocol do when taken one after the other.

module Base {
  import opened Protocol

  function Rank(call: Call): nat {
    match call
    case Finding(_, _) => 6
    case Applying(_, _, _) => 5
    case Looking(_) => 5
    case Deleting(_, _) => 4
    case Inserting(_, _) => 3
    case Marking(_, _) => 2
    case Acking(_) => 1
    case Dropping => 1
  }

  // The state in which the call c has ended, with no other step in between.
  function ToEnd(s: State, c: CallId, env: Env): State
    decreases if c in s.calls then Rank(s.calls[c].call) else 0
  {
    if c in s.calls then ToEnd(AdvanceCall(s, c, env), c, env) else s
  }

  // What one whole call on task t makes of a store.
  function Ran(store: Store, t: TaskId, call: Call, env: Env): Store {
    ToEnd(State(store, map[], {}, map[0 := Proc(t, call)]), 0, env).store
  }

  predicate Selected(task: Task) {
    task.active && !task.deleted && !task.queued
  }

  // What the fixer is for: a selected task with its attempt in place.
  predicate Has(s: Store, t: TaskId) {
    && t in s.tasks && s.tasks[t].current in s.attempts
    && s.attempts[s.tasks[t].current].task == t && !s.attempts[s.tasks[t].current].deleted
  }

  // Parts of the invariant of the protocol that the fixer builds on.
  ghost predicate Sound(s: Store) {
    && (forall t, u :: t in s.tasks && u in s.tasks && s.tasks[t].current == s.tasks[u].current ==> t == u)
    && (forall t :: t in s.tasks && Selected(s.tasks[t]) ==> s.tasks[t].at > 0)
    && (forall t :: t in s.tasks && Selected(s.tasks[t]) && s.tasks[t].current in s.attempts ==> Has(s, t))
  }

  lemma InvIsSound(s: State)
    requires Inv(s) && ActiveHasTime(s) && forall t :: !BeingDeleted(s, t)
    ensures Sound(s.store)
  {
    AlwaysMeans(s);
    forall t | t in s.store.tasks && Selected(s.store.tasks[t]) && s.store.tasks[t].current in s.store.attempts
      ensures Has(s.store, t)
    {
      assert TaskOk(s, t);
    }
  }

  function WithAck(store: Store, a: AttemptId): Store {
    if a in store.attempts then store.(attempts := store.attempts[a := store.attempts[a].(acked := true)]) else store
  }

  // The same state as s but for the bookkeeping of ids.
  predicate SameStore(s: State, u: State, c: CallId) {
    s.store == u.store && c in s.calls && c in u.calls && s.calls[c].task == u.calls[c].task
  }

  function Acknowledged(call: Call, a: AttemptId): Call {
    match call
    case Deleting(task, _) => Deleting(task, AckOf(a))
    case Inserting(task, _) => Inserting(task, AckOf(a))
    case Marking(task, _) => Marking(task, AckOf(a))
    case _ => Acking(a)
  }

  predicate Making(call: Call) {
    (call.Deleting? || call.Inserting? || call.Marking?) && call.ack == NoAck
  }

  // A call that acknowledges an attempt in the end does what the call that does
  // not would do, and then acknowledges.
  lemma {:induction false} AckComesLast(s: State, u: State, c: CallId, env: Env, a: AttemptId)
    requires SameStore(s, u, c) && Making(s.calls[c].call) && u.calls[c].call == Acknowledged(s.calls[c].call, a)
    ensures ToEnd(u, c, env).store == WithAck(ToEnd(s, c, env).store, a)
    decreases Rank(s.calls[c].call)
  {
    var s', u' := AdvanceCall(s, c, env), AdvanceCall(u, c, env);
    if c in s'.calls {
      AckComesLast(s', u', c, env, a);
    } else {
      assert u'.calls[c].call == Acking(a);
      assert ToEnd(u', c, env) == AdvanceCall(u', c, env);
    }
  }

  // NextAttemptForTask in one piece: the update, a new attempt in place of the
  // followed one if that was current, then the acknowledgement.
  lemma FollowRan(store: Store, t: TaskId, a: AttemptId, status: AttemptStatus, env: Env)
    requires t in store.tasks
    ensures var read := store.tasks[t];
      var task := Follow(read, read, a, status, env);
      var next := store.(tasks := store.tasks[t := task]);
      Ran(store, t, Finding(a, status), env) ==
      WithAck(if read.current == a then Ran(next, t, Deleting(task, NoAck), env) else next, a)
  {
    var read := store.tasks[t];
    var task := Follow(read, read, a, status, env);
    var s := State(store, map[], {}, map[0 := Proc(t, Finding(a, status))]);
    var r := AdvanceCall(s, 0, env);
    var u := AdvanceCall(r, 0, env);
    assert ToEnd(s, 0, env) == ToEnd(u, 0, env);
    var next := store.(tasks := store.tasks[t := task]);
    assert u.store == next;
    if read.current == a {
      var plain := State(next, map[], {}, map[0 := Proc(t, Deleting(task, NoAck))]);
      AckComesLast(plain, u, 0, env, a);
    } else {
      assert ToEnd(u, 0, env) == AdvanceCall(u, 0, env);
    }
  }

  lemma NotFoundRan(store: Store, t: TaskId, a: AttemptId, status: AttemptStatus, env: Env)
    requires t !in store.tasks
    ensures Ran(store, t, Finding(a, status), env) == store
  {
    var s := State(store, map[], {}, map[0 := Proc(t, Finding(a, status))]);
    assert ToEnd(AdvanceCall(s, 0, env), 0, env) == AdvanceCall(s, 0, env);
  }

  // What a follow-up of attempt a means for its task and for the attempts, field
  // by field.
  ghost predicate FollowedUp(s: Store, u: Store, t: TaskId, a: AttemptId, status: AttemptStatus, env: Env)
    requires t in s.tasks
  {
    var before, latest := s.tasks[t], s.tasks[t].current == a;
    && u.tasks.Keys == s.tasks.Keys && (forall v :: v in s.tasks && v != t ==> u.tasks[v] == s.tasks[v])
    && FollowedTask(before, u.tasks[t], a, status, env)
    // A new attempt is made for the latest one only, if there is to be another run.
    && (latest && u.tasks[t].at > 0 && !before.deleted ==>
      && env.newId in u.attempts && u.tasks[t].queued
      && u.attempts[env.newId] == Attempt(t, before.queue, u.tasks[t].at, u.tasks[t].at, Pending, false, false))
    && (!(latest && u.tasks[t].at > 0 && !before.deleted) ==> u.attempts.Keys == s.attempts.Keys && !u.tasks[t].queued)
    && (forall b :: b in u.attempts ==> b in s.attempts || b == env.newId)
    // What was pending is deleted then, and the followed attempt acknowledged.
    && (forall b :: b in s.attempts ==> b in u.attempts && u.attempts[b] == s.attempts[b].(
      acked := s.attempts[b].acked || b == a,
      deleted := s.attempts[b].deleted || (latest && s.attempts[b].task == t && s.attempts[b].status == Pending)))
  }

  ghost predicate FollowedTask(before: Task, after: Task, a: AttemptId, status: AttemptStatus, env: Env) {
    var usedUp := before.retry.maxAttempts > 0 && before.retry.attempts + 1 >= before.retry.maxAttempts;
    && after.executions == before.executions + 1
    && (status == Error ==> after.errors == before.errors + 1 && after.retry == before.retry.(attempts := before.retry.attempts + 1))
    && (status == Error && usedUp ==> after.status == TaskError && after.at == 0)
    && (status == Error && !usedUp ==> after.status == Retrying && after.at == env.retryAt)
    && (status == Success ==> after.status == TaskSuccess && after.errors == before.errors && after.retry == before.retry.(attempts := 0))
    && (status == Success && before.active && before.scheduled ==> after.at == env.cronAt)
    && (status == Success && !(before.active && before.scheduled) ==> after.at == 0)
    && (after.active <==> after.at > 0)
    && after.current == (if before.current == a then env.newId else before.current)
    && after.queue == before.queue && after.scheduled == before.scheduled && after.deleted == before.deleted
  }

  lemma FollowMeans(s: Store, t: TaskId, a: AttemptId, status: AttemptStatus, env: Env)
    requires t in s.tasks && env.newId !in s.attempts && env.newId != a && (status == Success || status == Error)
    ensures FollowedUp(s, Ran(s, t, Finding(a, status), env), t, a, status, env)
  {
    FollowRan(s, t, a, status, env);
    var task := Follow(s.tasks[t], s.tasks[t], a, status, env);
    var next := s.(tasks := s.tasks[t := task]);
    DeletingRan(next, t, task, env);
    TaskFollowed(s.tasks[t], a, status, env);
    hide Ran, ToEnd, Follow, FollowedTask;
  }

  lemma TaskFollowed(before: Task, a: AttemptId, status: AttemptStatus, env: Env)
    requires status == Success || status == Error
    ensures var after := Follow(before, before, a, status, env);
      && FollowedTask(before, after, a, status, env)
      && FollowedTask(before, after.(queued := true, updated := env.now), a, status, env)
      && after.queue == before.queue && after.deleted == before.deleted && (after.active <==> after.at > 0) && !after.queued
      && after.current == (if before.current == a then env.newId else before.current)
  {
  }

  // Inserting and marking in one piece.
  function Inserted(store: Store, t: TaskId, task: Task, now: int): Store {
    if task.current in store.attempts then store else
    Store(
      if t in store.tasks && store.tasks[t].current == task.current && !store.tasks[t].queued
      then store.tasks[t := store.tasks[t].(queued := true, updated := now)] else store.tasks,
      store.attempts[task.current := AttemptFor(t, task)])
  }

  lemma InsertingRan(store: Store, t: TaskId, task: Task, env: Env)
    ensures Ran(store, t, Inserting(task, NoAck), env) == Inserted(store, t, task, env.now)
  {
    var s := State(store, map[], {}, map[0 := Proc(t, Inserting(task, NoAck))]);
    var u := AdvanceCall(s, 0, env);
    if task.current in store.attempts {
      assert ToEnd(u, 0, env) == u;
    } else {
      var v := AdvanceCall(u, 0, env);
      assert ToEnd(v, 0, env) == v;
      assert ToEnd(s, 0, env) == ToEnd(u, 0, env) == v;
    }
  }

  lemma DeletingRan(store: Store, t: TaskId, task: Task, env: Env)
    ensures Ran(store, t, Deleting(task, NoAck), env) ==
      var cleared := store.(attempts := DeletePending(store.attempts, t));
      if Wanted(task) then Inserted(cleared, t, task, env.now) else cleared
  {
    var s := State(store, map[], {}, map[0 := Proc(t, Deleting(task, NoAck))]);
    var u := AdvanceCall(s, 0, env);
    var cleared := store.(attempts := DeletePending(store.attempts, t));
    if Wanted(task) {
      assert u == State(cleared, map[], {}, map[0 := Proc(t, Inserting(task, NoAck))]);
      InsertingRan(cleared, t, task, env);
    } else {
      assert ToEnd(u, 0, env) == u;
    }
  }

  // Making an attempt looks at the clock only.
  lemma NowOnly(store: Store, t: TaskId, task: Task, env: Env)
    ensures Ran(store, t, Deleting(task, NoAck), Env(0, env.now, 0, 0)) == Ran(store, t, Deleting(task, NoAck), env)
    ensures Ran(store, t, Inserting(task, NoAck), Env(0, env.now, 0, 0)) == Ran(store, t, Inserting(task, NoAck), env)
  {
    DeletingRan(store, t, task, env);
    DeletingRan(store, t, task, Env(0, env.now, 0, 0));
    InsertingRan(store, t, task, env);
    InsertingRan(store, t, task, Env(0, env.now, 0, 0));
    hide Ran;
  }

  lemma DroppingRan(store: Store, t: TaskId, env: Env)
    ensures Ran(store, t, Dropping, env) ==
      if t in store.tasks then store.(tasks := store.tasks[t := store.tasks[t].(deleted := true)]) else store
  {
    var s := State(store, map[], {}, map[0 := Proc(t, Dropping)]);
    var u := AdvanceCall(s, 0, env);
    assert ToEnd(u, 0, env) == u;
  }

  lemma LookingRan(store: Store, t: TaskId, task: Task, env: Env)
    ensures Ran(store, t, Looking(task), env) ==
      if task.current in store.attempts then store else Ran(store, t, Deleting(task, NoAck), env)
  {
    var s := State(store, map[], {}, map[0 := Proc(t, Looking(task))]);
    var u := AdvanceCall(s, 0, env);
    if task.current in store.attempts {
      assert ToEnd(u, 0, env) == u;
    } else {
      assert u == State(store, map[], {}, map[0 := Proc(t, Deleting(task, NoAck))]);
    }
  }

  // ---------- a task put by its name ----------

  // When a task put now is to run first.
  function FirstAt(scheduled: bool, env: Env): int {
    if scheduled then env.cronAt else env.now
  }

  function Quiet(s: Store): State {
    State(s, map[], {}, map[])
  }

  // The step that puts the task: a new document, or an update of the one there is.
  function Putting(s: Store, t: TaskId, queue: QueueId, scheduled: bool, active: bool, retry: Retry, env: Env): Step {
    var at := FirstAt(scheduled, env);
    if t in s.tasks then Recreate(0, t, at, active, scheduled, retry, env.newId, env.now)
    else Create(0, t, Task(queue, scheduled, at, TaskPending, at > 0 && active, 0, 0, retry, env.newId, false, env.now, false))
  }

  // The store once the call begun by it has ended, its ids set aside.
  function Completed(s: State, env: Env): Store {
    ToEnd(State(s.store, map[], {}, s.calls), 0, env).store
  }

  // What it means for the task and for the attempts, field by field.
  ghost predicate PutUp(s: Store, u: Store, t: TaskId, queue: QueueId, scheduled: bool, active: bool, retry: Retry, env: Env) {
    && u.tasks.Keys == s.tasks.Keys + {t} && (forall v :: v in s.tasks && v != t ==> u.tasks[v] == s.tasks[v])
    && PutTask(s, u.tasks[t], t, queue, scheduled, active, retry, env)
    && (u.tasks[t].active ==>
      env.newId in u.attempts && u.attempts[env.newId] == Attempt(t, u.tasks[t].queue, u.tasks[t].at, u.tasks[t].at, Pending, false, false))
    && (!u.tasks[t].active ==> u.attempts.Keys == s.attempts.Keys)
    && (forall b :: b in u.attempts ==> b in s.attempts || b == env.newId)
    && (forall b :: b in s.attempts ==> b in u.attempts && u.attempts[b] == s.attempts[b].(
      deleted := s.attempts[b].deleted || (s.attempts[b].task == t && s.attempts[b].status == Pending)))
  }

  predicate PutTask(s: Store, v: Task, t: TaskId, queue: QueueId, scheduled: bool, active: bool, retry: Retry, env: Env) {
    && v.at == (if scheduled then env.cronAt else env.now) && v.active == (v.at > 0 && active)
    && v.scheduled == scheduled && v.retry == retry && v.current == env.newId && !v.deleted && v.queued == v.active
    && if t in s.tasks
       then v.queue == s.tasks[t].queue && v.status == s.tasks[t].status && v.executions == s.tasks[t].executions && v.errors == s.tasks[t].errors
       else v.queue == queue && v.status == TaskPending && v.executions == 0 && v.errors == 0
  }

  predicate NoAttemptOf(s: Store, t: TaskId) {
    forall a :: a in s.attempts ==> s.attempts[a].task != t
  }

  // The document as it is put.
  function PutDoc(s: Store, t: TaskId, queue: QueueId, scheduled: bool, active: bool, retry: Retry, env: Env): Task {
    var at := FirstAt(scheduled, env);
    if t in s.tasks then s.tasks[t].(at := at, active := at > 0 && active, scheduled := scheduled, retry := retry,
      current := env.newId, queued := false, updated := env.now, deleted := false)
    else Task(queue, scheduled, at, TaskPending, at > 0 && active, 0, 0, retry, env.newId, false, env.now, false)
  }

  lemma PutTakes(s: Store, t: TaskId, queue: QueueId, scheduled: bool, active: bool, retry: Retry, env: Env)
    requires env.newId !in s.attempts && (t !in s.tasks ==> NoAttemptOf(s, t))
    ensures var e, doc := Putting(s, t, queue, scheduled, active, retry, env), PutDoc(s, t, queue, scheduled, active, retry, env);
      && Enabled(Quiet(s), e) && Take(Quiet(s), e).store == s.(tasks := s.tasks[t := doc])
      && Take(Quiet(s), e).calls ==
        if t in s.tasks then map[0 := Proc(t, Deleting(doc, NoAck))]
        else if Wanted(doc) then map[0 := Proc(t, Inserting(doc, NoAck))]
        else map[]
  {
  }

  // What follows the insertion or the update.
  lemma PutRan(s: Store, t: TaskId, queue: QueueId, scheduled: bool, active: bool, retry: Retry, env: Env)
    requires env.newId !in s.attempts && (t !in s.tasks ==> NoAttemptOf(s, t))
    ensures var e, doc := Putting(s, t, queue, scheduled, active, retry, env), PutDoc(s, t, queue, scheduled, active, retry, env);
      var v := s.(tasks := s.tasks[t := doc]);
      Enabled(Quiet(s), e) && Completed(Take(Quiet(s), e), env) ==
        if t in s.tasks then Ran(v, t, Deleting(doc, NoAck), env)
        else if Wanted(doc) then Ran(v, t, Inserting(doc, NoAck), env)
        else v
  {
    PutTakes(s, t, queue, scheduled, active, retry, env);
    hide AdvanceCall, Take, Enabled, PutDoc, Wanted;
  }

  lemma PutMeans(s: Store, t: TaskId, queue: QueueId, scheduled: bool, active: bool, retry: Retry, env: Env)
    requires env.newId !in s.attempts && (t !in s.tasks ==> NoAttemptOf(s, t))
    ensures var e := Putting(s, t, queue, scheduled, active, retry, env);
      Enabled(Quiet(s), e) && PutUp(s, Completed(Take(Quiet(s), e), env), t, queue, scheduled, active, retry, env)
  {
    hide Ran, ToEnd, Completed, Take, Enabled;
    PutRan(s, t, queue, scheduled, active, retry, env);
    var doc := PutDoc(s, t, queue, scheduled, active, retry, env);
    var v := s.(tasks := s.tasks[t := doc]);
    if t in s.tasks { DeletingRan(v, t, doc, env); } else { InsertingRan(v, t, doc, env); }
  }

  // What the fixer changes on one task t, and what it leaves alone.
  ghost predicate Fixed(s: Store, u: Store, t: TaskId)
    requires t in s.tasks
  {
    && Sound(u) && Has(u, t)
    && (forall v :: v in u.tasks <==> v in s.tasks)
    && (forall v :: v in s.tasks && v != t ==> u.tasks[v] == s.tasks[v])
    && (forall v :: v in s.tasks && v != t && Has(s, v) ==> Has(u, v))
    && u.tasks[t] == s.tasks[t].(queued := u.tasks[t].queued, updated := u.tasks[t].updated)
  }

  lemma FixOne(s: Store, t: TaskId, env: Env)
    requires Sound(s) && t in s.tasks && Selected(s.tasks[t])
    ensures Fixed(s, Ran(s, t, Looking(s.tasks[t]), env), t)
  {
    LookingRan(s, t, s.tasks[t], env);
    DeletingRan(s, t, s.tasks[t], env);
    hide Ran, ToEnd;
  }

  // Where the fixer stands after going through the tasks in done.
  ghost predicate Passed(s: Store, u: Store, done: seq<TaskId>) {
    && Sound(u)
    && (forall t :: t in u.tasks <==> t in s.tasks)
    && (forall t :: t in s.tasks ==> u.tasks[t] == s.tasks[t].(queued := u.tasks[t].queued, updated := u.tasks[t].updated))
    && (forall t :: t in s.tasks && t !in done ==> u.tasks[t] == s.tasks[t])
    && (forall t :: t in done && t in s.tasks && Selected(s.tasks[t]) ==> Has(u, t))
  }

  lemma PassedOn(s: Store, u: Store, done: seq<TaskId>, t: TaskId, v: Store)
    requires Passed(s, u, done)
    requires if t in u.tasks && Selected(u.tasks[t]) then Fixed(u, v, t) else v == u
    ensures Passed(s, v, done + [t])
  {
    hide Sound;
    if t in u.tasks && Selected(u.tasks[t]) {
      forall w | w in done + [t] && w in s.tasks && Selected(s.tasks[w]) ensures Has(v, w) {
        if w != t { assert Has(u, w); }
      }
    } else if t in s.tasks && Selected(s.tasks[t]) && t !in done {
      assert u.tasks[t] == s.tasks[t];
    }
  }

  lemma PassedMeans(s: Store, u: Store, done: seq<TaskId>)
    requires Passed(s, u, done)
    ensures Sound(u)
  {
  }

  // A finished attempt as the second pass of the fixer finds it.
  datatype Late = Late(attempt: AttemptId, status: AttemptStatus, task: TaskId)

  function Followed(s: Store, late: Late, env: Env): Store {
    Ran(s, late.task, Finding(late.attempt, late.status), env)
  }

  // The first n of them followed up one after the other.
  function FollowedAll(s: Store, cursor: seq<Late>, envs: seq<Env>, n: nat): Store
    requires n <= |cursor| == |envs|
  {
    if n == 0 then s else Followed(FollowedAll(s, cursor, envs, n - 1), cursor[n - 1], envs[n - 1])
  }

  // What a follow-up leaves: no attempt is lost or loses its acknowledgement, the
  // followed one has it, and at most the one with the new id is made.
  ghost predicate Kept(s: Store, u: Store, late: Late, env: Env) {
    && u.tasks.Keys == s.tasks.Keys
    && (forall a :: a in s.attempts ==> a in u.attempts && (s.attempts[a].acked ==> u.attempts[a].acked))
    && (forall a :: a in u.attempts ==> a in s.attempts || a == env.newId)
    && (late.task in s.tasks && late.attempt in s.attempts ==> u.attempts[late.attempt].acked)
  }

  lemma FollowKeeps(s: Store, late: Late, env: Env)
    ensures Kept(s, Followed(s, late, env), late, env)
  {
    hide Ran, ToEnd;
    if late.task in s.tasks {
      FollowRan(s, late.task, late.attempt, late.status, env);
      var task := Follow(s.tasks[late.task], s.tasks[late.task], late.attempt, late.status, env);
      var next := s.(tasks := s.tasks[late.task := task]);
      DeletingRan(next, late.task, task, env);
    } else {
      NotFoundRan(s, late.task, late.attempt, late.status, env);
    }
  }

  ghost predicate NewIds(s: Store, envs: seq<Env>) {
    && (forall i :: 0 <= i < |envs| ==> envs[i].newId !in s.attempts)
    && (forall i, j :: 0 <= i < j < |envs| ==> envs[i].newId != envs[j].newId)
  }

  // Where the second pass stands after the first n.
  ghost predicate Caught(s: Store, u: Store, cursor: seq<Late>, envs: seq<Env>, n: nat)
    requires n <= |cursor| == |envs|
  {
    && u.tasks.Keys == s.tasks.Keys
    && (forall a :: a in s.attempts ==> a in u.attempts && (s.attempts[a].acked ==> u.attempts[a].acked))
    && (forall i :: n <= i < |envs| ==> envs[i].newId !in u.attempts)
    && (forall i :: 0 <= i < n && cursor[i].task in s.tasks && cursor[i].attempt in s.attempts ==> u.attempts[cursor[i].attempt].acked)
  }

  lemma CaughtOne(s: Store, u: Store, cursor: seq<Late>, envs: seq<Env>, n: nat)
    requires n < |cursor| == |envs| && NewIds(s, envs) && Caught(s, u, cursor, envs, n)
    ensures Caught(s, Followed(u, cursor[n], envs[n]), cursor, envs, n + 1)
  {
    hide Ran;
    FollowKeeps(u, cursor[n], envs[n]);
  }

  class Models {
    var tasks: map<TaskId, Task>
    var attempts: map<AttemptId, Attempt>

    ghost function Stored(): Store
      reads this
    {
      Store(tasks, attempts)
    }

    method DeletePendingAttempts(t: TaskId)
      modifies this`attempts
      ensures attempts == DeletePending(old(attempts), t)
      ensures attempts.Keys == old(attempts).Keys
      ensures forall a :: a in attempts ==>
        attempts[a] == if old(attempts)[a].task == t && old(attempts)[a].status == Pending then old(attempts)[a].(deleted := true) else old(attempts)[a]
    {
      attempts := map a | a in attempts ::
        if attempts[a].task == t && attempts[a].status == Pending && !attempts[a].deleted
        then attempts[a].(deleted := true) else attempts[a];
    }

    method SetAttemptQueuedForTask(t: TaskId, task: Task, now: int)
      modifies this`tasks
      ensures tasks == if t in old(tasks) && old(tasks)[t].current == task.current && !old(tasks)[t].queued
                       then old(tasks)[t := old(tasks)[t].(queued := true, updated := now)] else old(tasks)
    {
      if t in tasks && tasks[t].current == task.current && !tasks[t].queued {
        tasks := tasks[t := tasks[t].(queued := true, updated := now)];
      }
    }

    method AckAttempt(a: AttemptId) returns (found: bool)
      modifies this`attempts
      ensures found == (a in old(attempts))
      ensures attempts == if a in old(attempts) then old(attempts)[a := old(attempts)[a].(acked := true)] else old(attempts)
    {
      found := a in attempts;
      if found {
        attempts := attempts[a := attempts[a].(acked := true)];
      }
    }

    // A worker is at it still: the reservation lasts for some more seconds from now.
    method TouchAttempt(a: AttemptId, now: int, seconds: int) returns (found: bool)
      modifies this`attempts
      ensures found == (a in old(attempts))
      ensures attempts.Keys == old(attempts).Keys
      ensures forall b :: b in attempts ==>
        attempts[b] == if b == a then old(attempts)[b].(reserved := now + seconds * 1000000000) else old(attempts)[b]
      ensures found ==> var s, e := Quiet(old(Stored())), Touch(a, now + seconds * 1000000000); Enabled(s, e) && Stored() == Take(s, e).store
    {
      found := a in attempts;
      if found {
        attempts := attempts[a := attempts[a].(reserved := now + seconds * 1000000000)];
      }
    }

    // The request was done: the attempt succeeded if it was answered with code 200.
    method FinishAttempt(a: AttemptId, answered: bool, code: int) returns (found: bool)
      modifies this`attempts
      ensures found == (a in old(attempts))
      ensures attempts.Keys == old(attempts).Keys
      ensures forall b :: b in attempts && b != a ==> attempts[b] == old(attempts)[b]
      ensures found ==> attempts[a] == old(attempts)[a].(status := if answered && code == 200 then Success else Error)
      ensures found && old(attempts)[a].status != Pending ==>
        var s, e := Quiet(old(Stored())), Finish(a, answered && code == 200); Enabled(s, e) && Stored() == Take(s, e).store
    {
      found := a in attempts;
      var status := Error;
      if answered {
        if code == 200 {
          status := Success;
        }
      }
      if found {
        attempts := attempts[a := attempts[a].(status := status)];
      }
    }

    // Fails on a duplicate id; makes nothing for a task that is not wanted.
    method NewAttempt(t: TaskId, task: Task, deletePending: bool, now: int) returns (made: bool)
      modifies this
      ensures Stored() == if deletePending then Ran(old(Stored()), t, Deleting(task, NoAck), Env(0, now, 0, 0))
                          else if Wanted(task) then Ran(old(Stored()), t, Inserting(task, NoAck), Env(0, now, 0, 0))
                          else old(Stored())
      ensures made == (task.active && task.at != 0 && !task.deleted && task.current !in old(attempts))
      ensures made ==> task.current in attempts && attempts[task.current] == Attempt(t, task.queue, task.at, task.at, Pending, false, false)
    {
      DeletingRan(Stored(), t, task, Env(0, now, 0, 0));
      InsertingRan(Stored(), t, task, Env(0, now, 0, 0));
      hide Ran;
      if deletePending {
        DeletePendingAttempts(t);
      }
      if !task.active || task.at == 0 || task.deleted {
        return false;
      }
      if task.current in attempts {
        return false;
      }
      attempts := attempts[task.current := Attempt(t, task.queue, task.at, task.at, Pending, false, false)];
      SetAttemptQueuedForTask(t, task, now);
      made := true;
    }

    // A task is put: made with its first attempt, or changed, and then its pending
    // attempt is replaced by a new one.
    method NewTask(t: TaskId, queue: QueueId, scheduled: bool, active: bool, retry: Retry, env: Env)
      requires env.newId !in attempts && (t !in tasks ==> NoAttemptOf(Stored(), t))
      modifies this
      ensures PutUp(old(Stored()), Stored(), t, queue, scheduled, active, retry, env)
      ensures var s := Quiet(old(Stored())); var e := Putting(s.store, t, queue, scheduled, active, retry, env);
        Enabled(s, e) && Stored() == Completed(Take(s, e), env)
    {
      PutRan(Stored(), t, queue, scheduled, active, retry, env);
      PutMeans(Stored(), t, queue, scheduled, active, retry, env);
      hide Ran, ToEnd, Completed, PutUp;
      var at := env.now;
      if scheduled {
        at := env.cronAt;
      }
      var known := t in tasks;
      var task;
      if known {
        task := tasks[t].(at := at, active := at > 0 && active, scheduled := scheduled, retry := retry,
          current := env.newId, queued := false, updated := env.now, deleted := false);
      } else {
        task := Task(queue, scheduled, at, TaskPending, at > 0 && active, 0, 0, retry, env.newId, false, env.now, false);
      }
      tasks := tasks[t := task];
      NowOnly(Stored(), t, task, env);
      var made := NewAttempt(t, task, known, env.now);
    }

    method NextAttemptForTask(a: AttemptId, status: AttemptStatus, t: TaskId, env: Env)
      requires status == Success || status == Error
      requires env.newId !in attempts
      modifies this
      ensures Stored() == Ran(old(Stored()), t, Finding(a, status), env)
      ensures t !in old(tasks) ==> Stored() == old(Stored())
      ensures t in old(tasks) && env.newId != a ==> FollowedUp(old(Stored()), Stored(), t, a, status, env)
    {
      hide FollowedUp;
      if t !in tasks {
        NotFoundRan(Stored(), t, a, status, env);
        return;
      }
      hide Ran, ToEnd;
      var task := tasks[t];
      var at := 0;
      if task.active && task.scheduled {
        at := env.cronAt;
      }
      var taskStatus, errors, retryAttempts := TaskSuccess, 0, 1;
      if status == Error {
        errors := 1;
        if Exhausted(task.retry) {
          taskStatus, at := TaskError, 0;
        } else {
          taskStatus, at := Retrying, env.retryAt;
        }
      } else {
        retryAttempts := -task.retry.attempts;
      }
      var isLatest := task.current == a;
      var next := if isLatest then env.newId else task.current;
      var newTask := tasks[t].(
        status := taskStatus, at := at, active := at > 0, current := next, queued := false, updated := env.now,
        executions := tasks[t].executions + 1, errors := tasks[t].errors + errors,
        retry := tasks[t].retry.(attempts := tasks[t].retry.attempts + retryAttempts));
      tasks := tasks[t := newTask];
      assert newTask == Follow(task, task, a, status, env);
      assert Store(tasks, attempts) == Store(old(tasks)[t := newTask], old(attempts));
      FollowRan(old(Stored()), t, a, status, env);
      DeletingRan(Stored(), t, newTask, env);
      DeletingRan(Stored(), t, newTask, Env(0, env.now, 0, 0));
      if isLatest {
        var made := NewAttempt(t, newTask, true, env.now);
      }
      var found := AckAttempt(a);
      if env.newId != a {
        FollowMeans(old(Stored()), t, a, status, env);
      }
    }

    // The attempts first, then the task: what a deletion and its second operation do.
    method DeleteTask(t: TaskId)
      modifies this
      ensures attempts == DeleteAll(old(attempts), t)
      ensures attempts.Keys == old(attempts).Keys
      ensures forall a :: a in attempts ==>
        attempts[a] == if old(attempts)[a].task == t then old(attempts)[a].(deleted := true) else old(attempts)[a]
      ensures tasks == if t in old(tasks) then old(tasks)[t := old(tasks)[t].(deleted := true)] else old(tasks)
      ensures Stored() == Ran(Store(old(tasks), attempts), t, Dropping, Env(0, 0, 0, 0))
    {
      attempts := map a | a in attempts :: if attempts[a].task == t then attempts[a].(deleted := true) else attempts[a];
      DroppingRan(Stored(), t, Env(0, 0, 0, 0));
      if t in tasks {
        tasks := tasks[t := tasks[t].(deleted := true)];
      }
    }

    // The second pass of FixIntegrity, over the finished attempts its query finds.
    // None of those that have a task is left unacknowledged.
    method FixAttempts(cursor: seq<Late>, envs: seq<Env>)
      requires |cursor| == |envs| && NewIds(Stored(), envs)
      requires forall i :: 0 <= i < |cursor| ==> cursor[i].status == Success || cursor[i].status == Error
      modifies this
      ensures Stored() == FollowedAll(old(Stored()), cursor, envs, |cursor|)
      ensures Caught(old(Stored()), Stored(), cursor, envs, |cursor|)
    {
      hide Ran;
      for i := 0 to |cursor|
        invariant Stored() == FollowedAll(old(Stored()), cursor, envs, i)
        invariant Caught(old(Stored()), Stored(), cursor, envs, i)
      {
        CaughtOne(old(Stored()), Stored(), cursor, envs, i);
        NextAttemptForTask(cursor[i].attempt, cursor[i].status, cursor[i].task, envs[i]);
      }
    }

    // The first pass of FixIntegrity, over the tasks its query finds.
    method FixTasks(cursor: seq<TaskId>, now: int)
      requires Sound(Stored())
      modifies this
      ensures Passed(old(Stored()), Stored(), cursor)
      ensures forall t :: t in cursor && t in old(tasks) && old(tasks)[t].active && !old(tasks)[t].deleted && !old(tasks)[t].queued ==>
        && t in tasks && tasks[t].current == old(tasks)[t].current && tasks[t].current in attempts
        && attempts[tasks[t].current].task == t && !attempts[tasks[t].current].deleted
    {
      for i := 0 to |cursor|
        invariant Passed(old(Stored()), Stored(), cursor[..i])
      {
        var t := cursor[i];
        ghost var before := Stored();
        assert Sound(before) by { PassedMeans(old(Stored()), before, cursor[..i]); }
        hide Ran, Sound, Has, Passed, Fixed;
        if t in tasks && Selected(tasks[t]) {
          FixOne(before, t, Env(0, now, 0, 0));
          LookingRan(before, t, tasks[t], Env(0, now, 0, 0));
          var attempt := tasks[t].current in attempts;
          if !attempt {
            var made := NewAttempt(t, tasks[t], true, now);
          }
        }
        PassedOn(old(Stored()), before, cursor[..i], t, Stored());
        assert cursor[..i] + [t] == cursor[..i + 1];
      }
      assert cursor[..|cursor|] == cursor;
      AllFixed(old(Stored()), Stored(), cursor);
    }
  }

  lemma AllFixed(s: Store, u: Store, cursor: seq<TaskId>)
    requires Passed(s, u, cursor)
    ensures forall t :: t in cursor && t in s.tasks && s.tasks[t].active && !s.tasks[t].deleted && !s.tasks[t].queued ==>
      && t in u.tasks && u.tasks[t].current == s.tasks[t].current && u.tasks[t].current in u.attempts
      && u.attempts[u.tasks[t].current].task == t && !u.attempts[u.tasks[t].current].deleted
  {
    hide Sound;
  }
}
