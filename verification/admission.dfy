// Admission of attempts to a queue, and the loop that looks for the next one.

module Admission {
  import opened Protocol

  datatype Option<T> = Some(value: T) | None

  // ---------- one queue document and the calls on it ----------

  datatype Queue = Queue(max: int, available: int, inFlight: seq<AttemptId>)

  // EnQueue between its count and its update, and NewQueue between reading the
  // queue that exists and changing its size by the difference.
  datatype QCall = Pushing(attempt: AttemptId) | Resizing(delta: int)

  datatype QState = QState(queue: Queue, calls: map<CallId, QCall>)

  datatype QStep =
    | Count(c: CallId, a: AttemptId)
    | ReadSize(c: CallId, max: int)
    | Go(c: CallId)
    | Release(a: AttemptId)
    | Stop(c: CallId)

  function Pulled(s: seq<AttemptId>, a: AttemptId): seq<AttemptId> {
    if s == [] then [] else if s[0] == a then Pulled(s[1..], a) else [s[0]] + Pulled(s[1..], a)
  }

  // The guarded update of EnQueue: whether it applies, and what it makes.
  predicate Admits(q: Queue, a: AttemptId) {
    q.available > 0 && a !in q.inFlight
  }

  function Admitted(q: Queue, a: AttemptId): Queue {
    if Admits(q, a) then q.(available := q.available - 1, inFlight := q.inFlight + [a]) else q
  }

  // The guarded update of DeQueue.
  function Released(q: Queue, a: AttemptId): Queue {
    if a in q.inFlight then q.(available := q.available + 1, inFlight := Pulled(q.inFlight, a)) else q
  }

  function Resized(q: Queue, delta: int): Queue {
    q.(max := q.max + delta, available := q.available + delta)
  }

  predicate QEnabled(s: QState, e: QStep) {
    match e
    case Count(c, a) => c !in s.calls
    case ReadSize(c, max) => c !in s.calls
    case Go(c) => c in s.calls
    case Release(a) => true
    case Stop(c) => c in s.calls
  }

  function QTake(s: QState, e: QStep): QState
    requires QEnabled(s, e)
  {
    match e
    case Count(c, a) => if a in s.queue.inFlight then s else s.(calls := s.calls[c := Pushing(a)])
    case ReadSize(c, max) => s.(calls := s.calls[c := Resizing(max - s.queue.max)])
    case Go(c) =>
      var queue := match s.calls[c] case Pushing(a) => Admitted(s.queue, a) case Resizing(delta) => Resized(s.queue, delta);
      QState(queue, s.calls - {c})
    case Release(a) => s.(queue := Released(s.queue, a))
    case Stop(c) => s.(calls := s.calls - {c})
  }

  ghost predicate QIsRun(states: seq<QState>, steps: seq<QStep>) {
    && |states| == |steps| + 1 && states[0].queue.max == states[0].queue.available && states[0].queue.inFlight == []
    && states[0].calls == map[]
    && forall i :: 0 <= i < |steps| ==> QEnabled(states[i], steps[i]) && states[i + 1] == QTake(states[i], steps[i])
  }

  predicate Distinct(s: seq<AttemptId>) {
    forall i, j :: 0 <= i < j < |s| ==> s[i] != s[j]
  }

  // Every slot is either available or taken, by one attempt.
  predicate Balanced(q: Queue) {
    q.available + |q.inFlight| == q.max && Distinct(q.inFlight)
  }

  lemma {:induction false} PulledOne(s: seq<AttemptId>, a: AttemptId)
    requires Distinct(s)
    ensures Distinct(Pulled(s, a)) && |Pulled(s, a)| == |s| - (if a in s then 1 else 0)
    ensures forall b :: b in Pulled(s, a) <==> b in s && b != a
  {
    if s != [] {
      assert s == [s[0]] + s[1..];
      forall i, j | 0 <= i < j < |s[1..]| ensures s[1..][i] != s[1..][j] {
        assert s[i + 1] != s[j + 1];
      }
      PulledOne(s[1..], a);
      assert s[0] !in s[1..];
    }
  }

  lemma ReleasedBalanced(q: Queue, a: AttemptId)
    requires Balanced(q)
    ensures Balanced(Released(q, a)) && a !in Released(q, a).inFlight
    ensures forall b :: b != a ==> (b in Released(q, a).inFlight <==> b in q.inFlight)
  {
    PulledOne(q.inFlight, a);
  }

  // The worker and the cleaner may both release: the second time does nothing.
  lemma ReleaseTwice(q: Queue, a: AttemptId)
    requires Balanced(q)
    ensures Released(Released(q, a), a) == Released(q, a)
  {
    ReleasedBalanced(q, a);
  }

  lemma {:induction false} BalancedInEveryRun(states: seq<QState>, steps: seq<QStep>, i: nat)
    requires QIsRun(states, steps) && i < |states|
    ensures Balanced(states[i].queue)
  {
    if i > 0 {
      BalancedInEveryRun(states, steps, i - 1);
      assert QEnabled(states[i - 1], steps[i - 1]);
      QStepBalanced(states[i - 1], steps[i - 1]);
    }
  }

  lemma QStepBalanced(s: QState, e: QStep)
    requires Balanced(s.queue) && QEnabled(s, e)
    ensures Balanced(QTake(s, e).queue)
  {
    if e.Release? { ReleasedBalanced(s.queue, e.a); }
  }

  // An attempt is only ever let in while fewer than the maximum are in flight,
  // however stale the count was, and a resize never throws one out.
  lemma NeverOverAdmits(states: seq<QState>, steps: seq<QStep>, i: nat, a: AttemptId)
    requires QIsRun(states, steps) && i < |steps|
    requires a !in states[i].queue.inFlight && a in states[i + 1].queue.inFlight
    ensures |states[i].queue.inFlight| < states[i].queue.max
    ensures |states[i + 1].queue.inFlight| <= states[i + 1].queue.max
    ensures states[i + 1].queue.max == states[i].queue.max
  {
    BalancedInEveryRun(states, steps, i);
    assert QEnabled(states[i], steps[i]) && states[i + 1] == QTake(states[i], steps[i]);
    if steps[i].Release? { ReleasedBalanced(states[i].queue, steps[i].a); }
  }

  // What a step adds to the size.
  function Growth(s: QState, e: QStep): int {
    if e.Go? && e.c in s.calls && s.calls[e.c].Resizing? then s.calls[e.c].delta else 0
  }

  // What the steps from i up to j add to the size.
  function Grown(states: seq<QState>, steps: seq<QStep>, i: nat, j: nat): int
    requires i <= j <= |steps| && |states| == |steps| + 1
  {
    if i == j then 0 else Grown(states, steps, i, j - 1) + Growth(states[j - 1], steps[j - 1])
  }

  lemma {:induction false} SizeGrown(states: seq<QState>, steps: seq<QStep>, i: nat, j: nat)
    requires QIsRun(states, steps) && i <= j <= |steps|
    ensures states[j].queue.max == states[i].queue.max + Grown(states, steps, i, j)
    decreases j
  {
    if i < j {
      SizeGrown(states, steps, i, j - 1);
      assert QEnabled(states[j - 1], steps[j - 1]) && states[j] == QTake(states[j - 1], steps[j - 1]);
    }
  }

  // A call that goes on is still the one that was started.
  lemma {:induction false} CallStays(states: seq<QState>, steps: seq<QStep>, i: nat, j: nat, c: CallId)
    requires QIsRun(states, steps) && i <= j <= |steps| && forall k :: i <= k <= j ==> c in states[k].calls
    ensures states[j].calls[c] == states[i].calls[c]
    decreases j
  {
    if i < j {
      CallStays(states, steps, i, j - 1, c);
      assert QEnabled(states[j - 1], steps[j - 1]) && states[j] == QTake(states[j - 1], steps[j - 1]);
      assert c in states[j].calls;
    }
  }

  // A resize that read the size at i and changes it at j leads to the size asked
  // for exactly when what the resizes in between changed comes to nothing.
  lemma ResizeExact(states: seq<QState>, steps: seq<QStep>, i: nat, j: nat, c: CallId, max: int)
    requires QIsRun(states, steps) && i < j < |steps| && steps[i] == ReadSize(c, max) && steps[j] == Go(c)
    requires forall k :: i < k <= j ==> c in states[k].calls
    ensures states[j + 1].queue.max == max <==> Grown(states, steps, i + 1, j) == 0
  {
    assert QEnabled(states[i], steps[i]) && states[i + 1] == QTake(states[i], steps[i]);
    assert QEnabled(states[j], steps[j]) && states[j + 1] == QTake(states[j], steps[j]);
    CallStays(states, steps, i + 1, j, c);
    SizeGrown(states, steps, i + 1, j);
  }

  // Two resizes that both read the size before either changes it: the queue of
  // four slots ends with ten, where one asked for six and the other for eight.
  lemma ResizesMiss() returns (states: seq<QState>, steps: seq<QStep>)
    ensures QIsRun(states, steps) && states[0].queue.max == 4
    ensures steps == [ReadSize(1, 6), ReadSize(2, 8), Go(1), Go(2)] && states[4].queue.max == 10
  {
    var q := Queue(4, 4, []);
    var one, both := map[1 := Resizing(2)], map[1 := Resizing(2), 2 := Resizing(4)];
    assert both - {1} == map[2 := Resizing(4)] && map[2 := Resizing(4)] - {2} == map[];
    states := [QState(q, map[]), QState(q, one), QState(q, both), QState(Queue(6, 6, []), map[2 := Resizing(4)]), QState(Queue(10, 10, []), map[])];
    steps := [ReadSize(1, 6), ReadSize(2, 8), Go(1), Go(2)];
  }

  // ---------- the next attempt ----------

  // What the query selects: an attempt that is pending or whose reservation ran
  // out, outside the queues found full.
  predicate Eligible(attempts: map<AttemptId, Attempt>, a: AttemptId, now: int, full: seq<QueueId>) {
    && a in attempts && (attempts[a].status == Pending || attempts[a].status == Running)
    && attempts[a].reserved < now && !attempts[a].deleted && attempts[a].queue !in full
  }

  // An attempt is found once its time has come; one that was found is not found
  // again until its reservation has run out, and is then, whatever became of the
  // worker that took it; one that has ended or was deleted is never found.
  lemma Redelivered(attempts: map<AttemptId, Attempt>, a: AttemptId, t: TaskId, task: Task, now: int, ttr: int, later: int, full: seq<QueueId>)
    requires a in attempts
    ensures Eligible(attempts[a := AttemptFor(t, task)], a, now, full) <==> task.at < now && task.queue !in full
    ensures Eligible(attempts, a, now, full) ==>
      (Eligible(attempts[a := Taken(attempts[a], now, ttr)], a, later, full) <==> later - now > ttr * 1000000000)
    ensures attempts[a].deleted || attempts[a].status == Success || attempts[a].status == Error ==> !Eligible(attempts, a, now, full)
  {
  }

  // The protocol's step that reserves an attempt does the same to it.
  lemma ReserveTakes(s: State, a: AttemptId, now: int, ttr: int)
    requires Enabled(s, Reserve(a, now + ttr * 1000000000))
    ensures Take(s, Reserve(a, now + ttr * 1000000000)).store.attempts == s.store.attempts[a := Taken(s.store.attempts[a], now, ttr)]
  {
  }

  predicate First(attempts: map<AttemptId, Attempt>, a: AttemptId, now: int, full: seq<QueueId>) {
    && Eligible(attempts, a, now, full)
    && forall b :: b in attempts && Eligible(attempts, b, now, full) ==> attempts[a].reserved <= attempts[b].reserved
  }

  lemma FirstMeans(attempts: map<AttemptId, Attempt>, a: AttemptId, now: int, full: seq<QueueId>)
    requires First(attempts, a, now, full)
    ensures forall b :: Eligible(attempts, b, now, full) ==> a in attempts && attempts[a].reserved <= attempts[b].reserved
  {
  }

  lemma {:induction false} FirstExists(attempts: map<AttemptId, Attempt>, among: set<AttemptId>, now: int, full: seq<QueueId>) returns (a: AttemptId)
    requires among != {} && forall b :: b in among ==> Eligible(attempts, b, now, full)
    ensures a in among && a in attempts && forall b :: b in among ==> b in attempts && attempts[a].reserved <= attempts[b].reserved
    decreases |among|
  {
    var x :| x in among;
    var rest := among - {x};
    if rest == {} {
      assert among == {x};
      a := x;
    } else {
      var y := FirstExists(attempts, rest, now, full);
      a := if attempts[x].reserved <= attempts[y].reserved then x else y;
    }
  }

  // What one look at a queue found: no room for the attempt.
  predicate Full(queues: map<QueueId, Queue>, q: QueueId, a: AttemptId) {
    q !in queues || (a !in queues[q].inFlight && queues[q].available <= 0)
  }

  // An attempt as the query leaves it.
  function Taken(attempt: Attempt, now: int, ttr: int): Attempt {
    attempt.(reserved := now + ttr * 1000000000, status := Running)
  }

  function Queues(attempts: map<AttemptId, Attempt>): set<QueueId> {
    set a | a in attempts :: attempts[a].queue
  }

  // How far the loop has come: for each queue found full one attempt was taken,
  // the first then, and no other attempt was touched.
  ghost predicate Rejected(before: map<AttemptId, Attempt>, attempts: map<AttemptId, Attempt>, queues: map<QueueId, Queue>,
                           now: int, ttr: int, full: seq<QueueId>, rejected: seq<AttemptId>) {
    && |full| == |rejected| && attempts.Keys == before.Keys
    && (forall i, j :: 0 <= i < j < |full| ==> full[i] != full[j])
    && (forall i :: 0 <= i < |full| ==> rejected[i] in before && before[rejected[i]].queue == full[i] && Full(queues, full[i], rejected[i]))
    && (forall i :: 0 <= i < |full| ==> First(before, rejected[i], now, full[..i]))
    && (forall a :: a in before ==> attempts[a] == if a in rejected then Taken(before[a], now, ttr) else before[a])
  }

  lemma SameEligible(before: map<AttemptId, Attempt>, attempts: map<AttemptId, Attempt>, queues: map<QueueId, Queue>,
                     now: int, ttr: int, full: seq<QueueId>, rejected: seq<AttemptId>, a: AttemptId)
    requires Rejected(before, attempts, queues, now, ttr, full, rejected)
    ensures Eligible(attempts, a, now, full) <==> Eligible(before, a, now, full)
    ensures Eligible(attempts, a, now, full) ==> a !in rejected && attempts[a] == before[a]
  {
    if a in rejected {
      var i :| 0 <= i < |rejected| && rejected[i] == a;
      assert before[rejected[i]].queue == full[i];
    }
  }

  lemma SameFirst(before: map<AttemptId, Attempt>, attempts: map<AttemptId, Attempt>, queues: map<QueueId, Queue>,
                  now: int, ttr: int, full: seq<QueueId>, rejected: seq<AttemptId>, a: AttemptId)
    requires Rejected(before, attempts, queues, now, ttr, full, rejected) && First(attempts, a, now, full)
    ensures First(before, a, now, full) && a !in rejected
  {
    hide Rejected, Eligible;
    SameEligible(before, attempts, queues, now, ttr, full, rejected, a);
    EligibleIn(attempts, a, now, full);
    EligibleIn(before, a, now, full);
    forall b | b in before && Eligible(before, b, now, full) ensures before[a].reserved <= before[b].reserved {
      SameEligible(before, attempts, queues, now, ttr, full, rejected, b);
      EligibleIn(attempts, b, now, full);
    }
  }

  lemma EligibleIn(attempts: map<AttemptId, Attempt>, a: AttemptId, now: int, full: seq<QueueId>)
    requires Eligible(attempts, a, now, full)
    ensures a in attempts && attempts[a].queue !in full
  {
  }

  // One more queue found full.
  lemma OneMore(before: map<AttemptId, Attempt>, attempts: map<AttemptId, Attempt>, queues: map<QueueId, Queue>,
                now: int, ttr: int, full: seq<QueueId>, rejected: seq<AttemptId>, a: AttemptId)
    requires Rejected(before, attempts, queues, now, ttr, full, rejected) && First(attempts, a, now, full)
    requires a in attempts && Full(queues, attempts[a].queue, a)
    ensures Rejected(before, attempts[a := Taken(attempts[a], now, ttr)], queues, now, ttr, full + [attempts[a].queue], rejected + [a])
  {
    SameFirst(before, attempts, queues, now, ttr, full, rejected, a);
    var full', rejected' := full + [attempts[a].queue], rejected + [a];
    forall i | 0 <= i < |full'| ensures First(before, rejected'[i], now, full'[..i]) {
      if i < |full| { assert full'[..i] == full[..i]; } else { assert full'[..i] == full; }
    }
  }

  class Base {
    var attempts: map<AttemptId, Attempt>
    var queues: map<QueueId, Queue>

    ghost predicate Valid()
      reads this
    {
      forall q :: q in queues ==> Balanced(queues[q])
    }

    // full also for a queue that does not exist.
    method EnQueue(q: QueueId, a: AttemptId) returns (full: bool)
      requires Valid()
      modifies this`queues
      ensures Valid() && full == Full(old(queues), q, a)
      ensures queues == if q in old(queues) then old(queues)[q := Admitted(old(queues)[q], a)] else old(queues)
      ensures !full ==> q in queues && a in queues[q].inFlight
      ensures full <==> q !in old(queues) || (a !in old(queues)[q].inFlight && old(queues)[q].available <= 0)
      ensures queues.Keys == old(queues).Keys && forall p :: p in queues && p != q ==> queues[p] == old(queues)[p]
      ensures q in queues ==> queues[q] == if full || a in old(queues)[q].inFlight then old(queues)[q]
        else Queue(old(queues)[q].max, old(queues)[q].available - 1, old(queues)[q].inFlight + [a])
    {
      if q in queues && a in queues[q].inFlight {
        assert queues[q := queues[q]] == queues;
        return false;
      }
      if q in queues && queues[q].available > 0 && a !in queues[q].inFlight {
        queues := queues[q := queues[q].(available := queues[q].available - 1, inFlight := queues[q].inFlight + [a])];
        return false;
      }
      assert q in queues ==> queues[q := queues[q]] == queues;
      full := true;
    }

    method DeQueue(q: QueueId, a: AttemptId)
      requires Valid()
      modifies this`queues
      ensures Valid() && (q in queues ==> a !in queues[q].inFlight)
      ensures queues.Keys == old(queues).Keys && forall p :: p in queues && p != q ==> queues[p] == old(queues)[p]
      ensures q in queues ==> forall b :: b != a ==> (b in queues[q].inFlight <==> b in old(queues)[q].inFlight)
      ensures q in queues ==> queues[q].max == old(queues)[q].max
      ensures q in queues ==> queues[q].available == old(queues)[q].available + if a in old(queues)[q].inFlight then 1 else 0
      ensures queues == if q in old(queues) then old(queues)[q := Released(old(queues)[q], a)] else old(queues)
    {
      if q in queues {
        ReleasedBalanced(queues[q], a);
        assert a !in queues[q].inFlight ==> queues[q := queues[q]] == queues;
        if a in queues[q].inFlight {
          queues := queues[q := queues[q].(available := queues[q].available + 1, inFlight := Pulled(queues[q].inFlight, a))];
        }
      }
    }

    // One attempt as findAndModify picks it, reserved.
    method Pick(now: int, ttr: int, full: seq<QueueId>) returns (r: Option<AttemptId>)
      modifies this`attempts
      ensures r.Some? ==> forall b :: Eligible(old(attempts), b, now, full) ==>
        r.value in old(attempts) && old(attempts)[r.value].reserved <= old(attempts)[b].reserved
      ensures match r
              case Some(a) => First(old(attempts), a, now, full) && a in old(attempts) && attempts == old(attempts)[a := Taken(old(attempts)[a], now, ttr)]
              case None => attempts == old(attempts) && forall a :: !Eligible(attempts, a, now, full)
    {
      var found := set a | a in attempts && Eligible(attempts, a, now, full);
      if found == {} {
        forall a ensures !Eligible(attempts, a, now, full) {
          assert a !in found;
        }
        return None;
      }
      ghost var first := FirstExists(attempts, found, now, full);
      assert First(attempts, first, now, full) by {
        forall b | b in attempts && Eligible(attempts, b, now, full) ensures attempts[first].reserved <= attempts[b].reserved {
          assert b in found;
        }
      }
      var a :| a in attempts && First(attempts, a, now, full);
      FirstMeans(attempts, a, now, full);
      attempts := attempts[a := attempts[a].(reserved := now + ttr * 1000000000, status := Running)];
      r := Some(a);
    }

    // The next attempt: with it goes what the loop went through.
    method NextAttempt(now: int, ttr: int) returns (r: Option<AttemptId>, full: seq<QueueId>, ghost rejected: seq<AttemptId>)
      requires Valid()
      modifies this
      ensures Valid() && |full| <= |Queues(old(attempts))|
      // Nothing: every attempt there was is in a queue found full.
      ensures r == None ==> Rejected(old(attempts), attempts, queues, now, ttr, full, rejected) && queues == old(queues)
      ensures r == None ==> forall a :: !Eligible(old(attempts), a, now, full)
      // An attempt: in flight, and the first of those outside the queues found full.
      ensures r.Some? ==> First(old(attempts), r.value, now, full) && r.value in old(attempts) && r.value in attempts
      ensures r.Some? ==> attempts[r.value] == Taken(old(attempts)[r.value], now, ttr)
      ensures r.Some? ==> attempts[r.value].queue in queues && r.value in queues[attempts[r.value].queue].inFlight
      ensures r.Some? ==> Rejected(old(attempts), attempts[r.value := old(attempts)[r.value]], old(queues), now, ttr, full, rejected)
    {
      full, rejected := [], [];
      while true
        invariant Valid() && queues == old(queues)
        invariant Rejected(old(attempts), attempts, queues, now, ttr, full, rejected)
        decreases |Queues(old(attempts))| - |full|
      {
        ghost var taken := attempts;
        r := Pick(now, ttr, full);
        Bounded(old(attempts), taken, queues, now, ttr, full, rejected);
        if r == None {
          forall a ensures !Eligible(old(attempts), a, now, full) {
            SameEligible(old(attempts), taken, queues, now, ttr, full, rejected, a);
          }
          return;
        }
        var a := r.value;
        SameFirst(old(attempts), taken, queues, now, ttr, full, rejected, a);
        var isFull := EnQueue(attempts[a].queue, a);
        if !isFull {
          SameEligible(old(attempts), taken, old(queues), now, ttr, full, rejected, a);
          assert attempts[a := old(attempts)[a]] == taken;
          return;
        }
        OneMore(old(attempts), taken, old(queues), now, ttr, full, rejected, a);
        assert queues == old(queues);
        full, rejected := full + [attempts[a].queue], rejected + [a];
        Bounded(old(attempts), attempts, queues, now, ttr, full, rejected);
      }
    }
  }

  function Elements(s: seq<QueueId>): set<QueueId> {
    set q | q in s
  }

  lemma {:induction false} DistinctCount(s: seq<QueueId>)
    requires forall i, j :: 0 <= i < j < |s| ==> s[i] != s[j]
    ensures |Elements(s)| == |s|
  {
    if s == [] {
      assert Elements(s) == {};
    } else {
      var n := |s| - 1;
      DistinctCount(s[..n]);
      assert Elements(s) == Elements(s[..n]) + {s[n]};
      assert s[n] !in Elements(s[..n]);
    }
  }

  // At most one probe for every queue there is, and one more.
  lemma Bounded(before: map<AttemptId, Attempt>, attempts: map<AttemptId, Attempt>, queues: map<QueueId, Queue>,
                now: int, ttr: int, full: seq<QueueId>, rejected: seq<AttemptId>)
    requires Rejected(before, attempts, queues, now, ttr, full, rejected)
    ensures |full| <= |Queues(before)|
  {
    DistinctCount(full);
    forall q | q in Elements(full) ensures q in Queues(before) {
      var i :| 0 <= i < |full| && full[i] == q;
      assert before[rejected[i]].queue == q;
    }
    SubsetSize(Elements(full), Queues(before));
  }

  lemma {:induction false} SubsetSize(x: set<QueueId>, y: set<QueueId>)
    requires x <= y
    ensures |x| <= |y|
    decreases x
  {
    if x != {} {
      var q :| q in x;
      SubsetSize(x - {q}, y - {q});
    }
  }
}
