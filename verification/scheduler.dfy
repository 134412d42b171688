// The loop of the scheduler: queriers that look for an attempt, workers that
// execute it, and the two channels used as semaphores.

module Scheduler {
  // How far a goroutine has come. The first six are a querier: it waits for a
  // worker's token, has it, is counted by the wait group and asks for an attempt,
  // got none, or has only its own token left to give back. A worker executes an
  // attempt or is through with it. Either is then only left to be counted off.
  datatype Phase = Waiting | Holding | Asking | Empty | Leaving | Working | Finished | Returning | Gone

  // The capacities of the two channels.
  datatype Limits = Limits(queriers: nat, workers: nat)

  // The elements in the channels, the count of the wait group, the goroutines
  // ever started, whether the quit channel is closed, whether the loop came to
  // its end and whether Stop returned.
  datatype State = State(queriers: int, workers: int, group: int, calls: seq<Phase>, quit: bool, ended: bool, stopped: bool)

  const START := State(0, 0, 0, [], false, false, false)

  datatype Step =
    | Accept                         // the loop starts a querier
    | Acquire(i: nat)                // a querier gets a worker's token
    | Add(i: nat)                    // it is counted and asks
    | Answer(i: nat, found: bool)    // NextAttempt returns, and a worker is started if it found one
    | End(i: nat)                    // a worker has executed its attempt
    | ReleaseWorker(i: nat)
    | ReleaseQuerier(i: nat)
    | Return(i: nat)                 // a goroutine is counted off and ends
    | Quit                           // Stop closes the quit channel
    | Leave                          // the loop sees that it is closed
    | Stopped                        // the wait group is at zero and Stop returns

  predicate In(s: State, i: nat, p: Phase) {
    i < |s.calls| && s.calls[i] == p
  }

  // Sending blocks on a full channel and receiving on an empty one. The loop may
  // go on with either of its cases when both are ready.
  predicate Enabled(l: Limits, s: State, e: Step) {
    match e
    case Accept => !s.ended && s.queriers < l.queriers
    case Acquire(i) => In(s, i, Waiting) && s.workers < l.workers
    case Add(i) => In(s, i, Holding)
    case Answer(i, found) => In(s, i, Asking)
    case End(i) => In(s, i, Working)
    case ReleaseWorker(i) => (In(s, i, Empty) || In(s, i, Finished)) && s.workers > 0
    case ReleaseQuerier(i) => In(s, i, Leaving) && s.queriers > 0
    case Return(i) => In(s, i, Returning)
    case Quit => !s.quit
    case Leave => s.quit && !s.ended
    case Stopped => s.quit && !s.stopped && s.group == 0
  }

  function Take(l: Limits, s: State, e: Step): State
    requires Enabled(l, s, e)
  {
    match e
    case Accept => s.(queriers := s.queriers + 1, calls := s.calls + [Waiting])
    case Acquire(i) => s.(workers := s.workers + 1, calls := s.calls[i := Holding])
    case Add(i) => s.(group := s.group + 1, calls := s.calls[i := Asking])
    case Answer(i, found) =>
      if found then s.(group := s.group + 1, calls := s.calls[i := Leaving] + [Working])
      else s.(calls := s.calls[i := Empty])
    case End(i) => s.(calls := s.calls[i := Finished])
    case ReleaseWorker(i) =>
      s.(workers := s.workers - 1, calls := s.calls[i := if s.calls[i] == Empty then Leaving else Returning])
    case ReleaseQuerier(i) => s.(queriers := s.queriers - 1, calls := s.calls[i := Returning])
    case Return(i) => s.(group := s.group - 1, calls := s.calls[i := Gone])
    case Quit => s.(quit := true)
    case Leave => s.(ended := true)
    case Stopped => s.(stopped := true)
  }

  ghost predicate Runs(l: Limits, states: seq<State>, steps: seq<Step>) {
    && |states| == |steps| + 1
    && forall k :: 0 <= k < |steps| ==> Enabled(l, states[k], steps[k]) && states[k + 1] == Take(l, states[k], steps[k])
  }

  ghost predicate IsRun(l: Limits, states: seq<State>, steps: seq<Step>) {
    Runs(l, states, steps) && states[0] == START
  }

  // ---------- what the goroutines hold ----------

  // An element in the channel of the queriers or the workers, a count of the
  // wait group, and how many steps are left at most.
  datatype Share = Querier | Worker | Counted | Work

  function Part(p: Phase, k: Share): nat {
    match k
    case Querier => if p == Waiting || p == Holding || p == Asking || p == Empty || p == Leaving then 1 else 0
    case Worker => if p == Holding || p == Asking || p == Empty || p == Working || p == Finished then 1 else 0
    case Counted => if Uncounted(p) then 0 else 1
    case Work =>
      match p
      case Waiting => 8 case Holding => 7 case Asking => 6 case Empty => 3 case Leaving => 2
      case Working => 3 case Finished => 2 case Returning => 1 case Gone => 0
  }

  predicate Uncounted(p: Phase) {
    p == Waiting || p == Holding || p == Gone
  }

  function Total(calls: seq<Phase>, k: Share): nat {
    if calls == [] then 0 else Total(calls[..|calls| - 1], k) + Part(calls[|calls| - 1], k)
  }

  // How many are in a phase.
  function Number(calls: seq<Phase>, p: Phase): nat {
    if calls == [] then 0 else Number(calls[..|calls| - 1], p) + if calls[|calls| - 1] == p then 1 else 0
  }

  lemma TotalAppend(calls: seq<Phase>, p: Phase, k: Share)
    ensures Total(calls + [p], k) == Total(calls, k) + Part(p, k)
  {
    assert (calls + [p])[..|calls|] == calls;
  }

  lemma {:induction false} TotalUpdate(calls: seq<Phase>, i: nat, p: Phase, k: Share)
    requires i < |calls|
    ensures Total(calls[i := p], k) == Total(calls, k) - Part(calls[i], k) + Part(p, k)
  {
    hide Part;
    var n := |calls| - 1;
    if i < n {
      assert calls[i := p][..n] == calls[..n][i := p];
      TotalUpdate(calls[..n], i, p, k);
    } else {
      assert calls[i := p][..n] == calls[..n];
    }
  }

  lemma {:induction false} OneOf(calls: seq<Phase>, i: nat, k: Share)
    requires i < |calls|
    ensures Part(calls[i], k) <= Total(calls, k)
  {
    var n := |calls| - 1;
    if i < n { OneOf(calls[..n], i, k); }
  }

  lemma {:induction false} NoneOf(calls: seq<Phase>, k: Share)
    requires forall i :: 0 <= i < |calls| ==> Part(calls[i], k) == 0
    ensures Total(calls, k) == 0
  {
    if calls != [] { NoneOf(calls[..|calls| - 1], k); }
  }

  lemma {:induction false} NumberAtMost(calls: seq<Phase>, p: Phase, k: Share)
    requires Part(p, k) == 1
    ensures Number(calls, p) <= Total(calls, k)
  {
    if calls != [] { NumberAtMost(calls[..|calls| - 1], p, k); }
  }

  // The channels hold exactly what the goroutines have put in and not yet taken
  // out, within their capacity, and the wait group counts those that it has to.
  ghost predicate Inv(l: Limits, s: State) {
    && s.queriers == Total(s.calls, Querier) <= l.queriers
    && s.workers == Total(s.calls, Worker) <= l.workers
    && s.group == Total(s.calls, Counted)
  }

  // What a step changes of what the goroutines hold.
  function Moved(e: Step, s: State, k: Share): int
    requires e.Acquire? || e.Add? || e.Answer? || e.End? || e.ReleaseWorker? || e.ReleaseQuerier? || e.Return? ==> e.i < |s.calls|
  {
    match e
    case Accept => Part(Waiting, k)
    case Acquire(i) => Part(Holding, k) - Part(s.calls[i], k)
    case Add(i) => Part(Asking, k) - Part(s.calls[i], k)
    case Answer(i, found) => (if found then Part(Leaving, k) + Part(Working, k) else Part(Empty, k)) - Part(s.calls[i], k)
    case End(i) => Part(Finished, k) - Part(s.calls[i], k)
    case ReleaseWorker(i) => Part(if s.calls[i] == Empty then Leaving else Returning, k) - Part(s.calls[i], k)
    case ReleaseQuerier(i) => Part(Returning, k) - Part(s.calls[i], k)
    case Return(i) => Part(Gone, k) - Part(s.calls[i], k)
    case _ => 0
  }

  lemma StepMoves(l: Limits, s: State, e: Step, k: Share)
    requires Enabled(l, s, e)
    ensures Total(Take(l, s, e).calls, k) == Total(s.calls, k) + Moved(e, s, k)
  {
    hide Part, Total;
    match e
    case Accept => TotalAppend(s.calls, Waiting, k);
    case Answer(i, found) => AnswerMoves(s.calls, i, found, k);
    case Acquire(i) => TotalUpdate(s.calls, i, Holding, k);
    case Add(i) => TotalUpdate(s.calls, i, Asking, k);
    case End(i) => TotalUpdate(s.calls, i, Finished, k);
    case ReleaseWorker(i) => TotalUpdate(s.calls, i, if s.calls[i] == Empty then Leaving else Returning, k);
    case ReleaseQuerier(i) => TotalUpdate(s.calls, i, Returning, k);
    case Return(i) => TotalUpdate(s.calls, i, Gone, k);
    case _ =>
  }

  lemma AnswerMoves(calls: seq<Phase>, i: nat, found: bool, k: Share)
    requires i < |calls|
    ensures Total(calls[i := Leaving] + [Working], k) == Total(calls, k) - Part(calls[i], k) + Part(Leaving, k) + Part(Working, k)
    ensures Total(calls[i := Empty], k) == Total(calls, k) - Part(calls[i], k) + Part(Empty, k)
  {
    hide *;
    TotalUpdate(calls, i, Leaving, k);
    TotalUpdate(calls, i, Empty, k);
    TotalAppend(calls[i := Leaving], Working, k);
  }

  // A step moves the channels and the count as it moves what the goroutines hold.
  lemma StepMovesQueriers(l: Limits, s: State, e: Step)
    requires Enabled(l, s, e)
    ensures var n := Take(l, s, e).queriers; n == s.queriers + Moved(e, s, Querier) && (n <= s.queriers || n <= l.queriers)
  {
  }

  lemma StepMovesWorkers(l: Limits, s: State, e: Step)
    requires Enabled(l, s, e)
    ensures var n := Take(l, s, e).workers; n == s.workers + Moved(e, s, Worker) && (n <= s.workers || n <= l.workers)
  {
  }

  lemma StepMovesGroup(l: Limits, s: State, e: Step)
    requires Enabled(l, s, e)
    ensures Take(l, s, e).group == s.group + Moved(e, s, Counted)
  {
  }

  lemma StepKeepsInv(l: Limits, s: State, e: Step)
    requires Inv(l, s) && Enabled(l, s, e)
    ensures Inv(l, Take(l, s, e))
  {
    hide Enabled, Take, Moved, Total;
    StepMovesQueriers(l, s, e);
    StepMovesWorkers(l, s, e);
    StepMovesGroup(l, s, e);
    StepMoves(l, s, e, Querier);
    StepMoves(l, s, e, Worker);
    StepMoves(l, s, e, Counted);
  }

  lemma {:induction false} InvInEveryRun(l: Limits, states: seq<State>, steps: seq<Step>, n: nat)
    requires IsRun(l, states, steps) && n < |states|
    ensures Inv(l, states[n])
  {
    if n > 0 {
      InvInEveryRun(l, states, steps, n - 1);
      assert Enabled(l, states[n - 1], steps[n - 1]) && states[n] == Take(l, states[n - 1], steps[n - 1]);
      StepKeepsInv(l, states[n - 1], steps[n - 1]);
    }
  }

  // Never more attempts are executed at once than there are workers, nor asked
  // for than there are queriers, and those that ask count as workers already.
  lemma NeverTooMany(l: Limits, states: seq<State>, steps: seq<Step>, n: nat)
    requires IsRun(l, states, steps) && n < |states|
    ensures Number(states[n].calls, Working) + Number(states[n].calls, Asking) <= l.workers
    ensures Number(states[n].calls, Asking) <= l.queriers
  {
    InvInEveryRun(l, states, steps, n);
    NumberAtMost(states[n].calls, Asking, Querier);
    BothAtMost(states[n].calls);
  }

  lemma {:induction false} BothAtMost(calls: seq<Phase>)
    ensures Number(calls, Working) + Number(calls, Asking) <= Total(calls, Worker)
  {
    if calls != [] { BothAtMost(calls[..|calls| - 1]); }
  }

  // ---------- nobody waits for ever ----------

  // Who has an element to take back never waits for it, and the wait group never
  // goes below zero.
  lemma NeverBlocked(l: Limits, states: seq<State>, steps: seq<Step>, n: nat, i: nat)
    requires IsRun(l, states, steps) && n < |states| && i < |states[n].calls|
    ensures states[n].calls[i] == Empty || states[n].calls[i] == Finished ==> Enabled(l, states[n], ReleaseWorker(i))
    ensures states[n].calls[i] == Leaving ==> Enabled(l, states[n], ReleaseQuerier(i))
    ensures states[n].calls[i] == Returning ==> Enabled(l, states[n], Return(i)) && states[n].group > 0
  {
    InvInEveryRun(l, states, steps, n);
    OneOf(states[n].calls, i, Worker);
    OneOf(states[n].calls, i, Querier);
    OneOf(states[n].calls, i, Counted);
  }

  // The steps of goroutines already started.
  predicate Inner(e: Step) {
    !(e.Accept? || e.Quit? || e.Leave? || e.Stopped?)
  }

  // While a goroutine is not gone one of them can go on: a querier that waits
  // has workers to wait for, or a worker's token to take.
  lemma SomeoneGoes(l: Limits, s: State, i: nat) returns (e: Step)
    requires Inv(l, s) && l.workers > 0 && i < |s.calls| && s.calls[i] != Gone
    ensures Inner(e) && Enabled(l, s, e)
  {
    if s.calls[i] == Waiting && s.workers == l.workers {
      var j := WhoHolds(s.calls, Worker);
      e := NextStep(l, s, j);
    } else {
      e := NextStep(l, s, i);
    }
  }

  lemma {:induction false} WhoHolds(calls: seq<Phase>, k: Share) returns (j: nat)
    requires Total(calls, k) > 0
    ensures j < |calls| && Part(calls[j], k) > 0
  {
    hide Part;
    var n := |calls| - 1;
    if Part(calls[n], k) > 0 { j := n; } else { j := WhoHolds(calls[..n], k); }
  }

  lemma NextStep(l: Limits, s: State, i: nat) returns (e: Step)
    requires Inv(l, s) && i < |s.calls| && s.calls[i] != Gone
    requires s.calls[i] == Waiting ==> s.workers < l.workers
    ensures Inner(e) && Enabled(l, s, e)
  {
    OneOf(s.calls, i, Worker);
    OneOf(s.calls, i, Querier);
    match s.calls[i]
    case Waiting => e := Acquire(i);
    case Holding => e := Add(i);
    case Asking => e := Answer(i, false);
    case Empty => e := ReleaseWorker(i);
    case Leaving => e := ReleaseQuerier(i);
    case Working => e := End(i);
    case Finished => e := ReleaseWorker(i);
    case Returning => e := Return(i);
  }

  // Each of their steps leaves less to do.
  lemma StepWorks(l: Limits, s: State, e: Step)
    requires Enabled(l, s, e) && Inner(e)
    ensures Total(Take(l, s, e).calls, Work) < Total(s.calls, Work)
  {
    hide Total;
    StepMoves(l, s, e, Work);
  }

  // Left alone, the goroutines started are gone after a bounded number of their
  // steps, whatever the order: no run of them is longer, and one that cannot be
  // continued has them all gone with both channels and the wait group empty.
  lemma {:induction false} Drains(l: Limits, states: seq<State>, steps: seq<Step>)
    requires Runs(l, states, steps) && Inv(l, states[0]) && forall e :: e in steps ==> Inner(e)
    ensures |steps| + Total(states[|steps|].calls, Work) <= Total(states[0].calls, Work) && Inv(l, states[|steps|])
    ensures var s := states[|steps|];
      l.workers > 0 && (forall e :: Inner(e) ==> !Enabled(l, s, e))
      ==> (forall i :: 0 <= i < |s.calls| ==> s.calls[i] == Gone) && s.queriers == s.workers == s.group == 0
    decreases |steps|
  {
    var n := |steps|;
    hide Total, Enabled, Inner;
    if n > 0 {
      assert Runs(l, states[..n], steps[..n - 1]);
      Drains(l, states[..n], steps[..n - 1]);
      assert Enabled(l, states[n - 1], steps[n - 1]) && states[n] == Take(l, states[n - 1], steps[n - 1]);
      assert steps[n - 1] in steps;
      StepWorks(l, states[n - 1], steps[n - 1]);
      StepKeepsInv(l, states[n - 1], steps[n - 1]);
    }
    if l.workers > 0 && forall e :: Inner(e) ==> !Enabled(l, states[n], e) { StuckIsEmpty(l, states[n]); }
  }

  lemma StuckIsEmpty(l: Limits, s: State)
    requires Inv(l, s) && l.workers > 0 && forall e :: Inner(e) ==> !Enabled(l, s, e)
    ensures forall i :: 0 <= i < |s.calls| ==> s.calls[i] == Gone
    ensures s.queriers == s.workers == s.group == 0
  {
    forall i | 0 <= i < |s.calls| ensures s.calls[i] == Gone {
      if s.calls[i] != Gone { var e := SomeoneGoes(l, s, i); }
    }
    forall k ensures Total(s.calls, k) == 0 { NoneOf(s.calls, k); }
  }

  // Before Stop is called something can always go on, in every run, exactly if
  // both capacities are positive.
  ghost predicate NeverStuck(l: Limits) {
    forall states: seq<State>, steps: seq<Step> :: IsRun(l, states, steps) && !states[|steps|].quit ==> Goes(l, states[|steps|])
  }

  ghost predicate Goes(l: Limits, s: State) {
    exists e: Step :: !e.Quit? && Enabled(l, s, e)
  }

  lemma NeverStuckExact(l: Limits)
    ensures NeverStuck(l) <==> l.queriers > 0 && l.workers > 0
  {
    if l.queriers > 0 && l.workers > 0 {
      forall states: seq<State>, steps: seq<Step> | IsRun(l, states, steps) && !states[|steps|].quit ensures Goes(l, states[|steps|]) {
        OneGoes(l, states, steps);
      }
    } else {
      var states, steps := AllWait(l, l.queriers);
      NobodyGoes(l, states[|steps|]);
    }
  }

  lemma {:induction false} EndedMeansQuit(l: Limits, states: seq<State>, steps: seq<Step>, n: nat)
    requires IsRun(l, states, steps) && n < |states|
    ensures states[n].ended ==> states[n].quit
  {
    if n > 0 {
      EndedMeansQuit(l, states, steps, n - 1);
      assert Enabled(l, states[n - 1], steps[n - 1]) && states[n] == Take(l, states[n - 1], steps[n - 1]);
    }
  }

  lemma OneGoes(l: Limits, states: seq<State>, steps: seq<Step>)
    requires l.queriers > 0 && l.workers > 0 && IsRun(l, states, steps) && !states[|steps|].quit
    ensures Goes(l, states[|steps|])
  {
    var s := states[|steps|];
    InvInEveryRun(l, states, steps, |steps|);
    EndedMeansQuit(l, states, steps, |steps|);
    if s.queriers < l.queriers {
      assert Enabled(l, s, Accept);
    } else {
      var i := WhoHolds(s.calls, Querier);
      var e := SomeoneGoes(l, s, i);
    }
  }

  function AllWaiting(n: nat): seq<Phase> {
    seq(n, i => Waiting)
  }

  // With as many queriers as there may be and no worker at all nobody goes on.
  lemma {:induction false} AllWait(l: Limits, n: nat) returns (states: seq<State>, steps: seq<Step>)
    requires n <= l.queriers
    ensures IsRun(l, states, steps) && states[|steps|] == START.(queriers := n, calls := AllWaiting(n))
  {
    if n == 0 {
      states, steps := [START], [];
    } else {
      states, steps := AllWait(l, n - 1);
      var s := states[|steps|];
      assert AllWaiting(n) == AllWaiting(n - 1) + [Waiting];
      states, steps := states + [Take(l, s, Accept)], steps + [Accept];
    }
  }

  lemma NobodyGoes(l: Limits, s: State)
    requires (l.queriers == 0 || l.workers == 0) && s == START.(queriers := l.queriers, calls := AllWaiting(l.queriers))
    ensures !Goes(l, s)
  {
  }

  // ---------- after Stop ----------

  // Whatever happens from here on, nobody asks for an attempt.
  ghost predicate Quiet(l: Limits, s: State) {
    forall states: seq<State>, steps: seq<Step> :: Runs(l, states, steps) && states[0] == s ==> Number(states[|steps|].calls, Asking) == 0
  }

  // When Stop returns no attempt is being asked for or executed.
  lemma NobodyIsCounted(l: Limits, states: seq<State>, steps: seq<Step>, n: nat, i: nat)
    requires IsRun(l, states, steps) && n < |steps| && steps[n] == Stopped && i < |states[n + 1].calls|
    ensures Uncounted(states[n + 1].calls[i])
  {
    InvInEveryRun(l, states, steps, n);
    assert Enabled(l, states[n], steps[n]) && states[n + 1] == Take(l, states[n], steps[n]);
    OneOf(states[n].calls, i, Counted);
  }

  // And none is later exactly if by then the loop has come to its end and no
  // querier waits for a worker's token or has just got it.
  lemma StopExact(l: Limits, states: seq<State>, steps: seq<Step>, n: nat)
    requires l.queriers > 0 && l.workers > 0
    requires IsRun(l, states, steps) && n < |steps| && steps[n] == Stopped
    ensures var s := states[n + 1];
      Quiet(l, s) <==> s.ended && forall i :: 0 <= i < |s.calls| ==> s.calls[i] == Gone
  {
    var s := states[n + 1];
    InvInEveryRun(l, states, steps, n + 1);
    forall i | 0 <= i < |s.calls| ensures Uncounted(s.calls[i]) {
      NobodyIsCounted(l, states, steps, n, i);
    }
    if s.ended && forall i :: 0 <= i < |s.calls| ==> s.calls[i] == Gone {
      forall states': seq<State>, steps': seq<Step> | Runs(l, states', steps') && states'[0] == s ensures Number(states'[|steps'|].calls, Asking) == 0 {
        StaysQuiet(l, states', steps', |steps'|);
      }
    } else {
      var states', steps' := GoesOn(l, s);
    }
  }

  lemma {:induction false} StaysQuiet(l: Limits, states: seq<State>, steps: seq<Step>, n: nat)
    requires Runs(l, states, steps) && n < |states|
    requires states[0].ended && forall i :: 0 <= i < |states[0].calls| ==> states[0].calls[i] == Gone
    ensures states[n].ended && states[n].calls == states[0].calls && Number(states[n].calls, Asking) == 0
  {
    if n > 0 {
      StaysQuiet(l, states, steps, n - 1);
      assert Enabled(l, states[n - 1], steps[n - 1]) && states[n] == Take(l, states[n - 1], steps[n - 1]);
    } else {
      NoneAsks(states[0].calls);
    }
  }

  lemma {:induction false} NoneAsks(calls: seq<Phase>)
    requires forall i :: 0 <= i < |calls| ==> calls[i] == Gone
    ensures Number(calls, Asking) == 0
  {
    if calls != [] { NoneAsks(calls[..|calls| - 1]); }
  }

  lemma {:induction false} SomeAsks(calls: seq<Phase>, i: nat)
    requires i < |calls| && calls[i] == Asking
    ensures Number(calls, Asking) > 0
  {
    if i < |calls| - 1 { SomeAsks(calls[..|calls| - 1], i); }
  }

  lemma GoesOn(l: Limits, s: State) returns (states: seq<State>, steps: seq<Step>)
    requires Inv(l, s) && l.queriers > 0 && l.workers > 0
    requires forall i :: 0 <= i < |s.calls| ==> Uncounted(s.calls[i])
    requires s.ended ==> exists i :: 0 <= i < |s.calls| && s.calls[i] != Gone
    ensures Runs(l, states, steps) && states[0] == s && Number(states[|steps|].calls, Asking) > 0
  {
    if i: nat :| i < |s.calls| && s.calls[i] == Holding {
      states, steps := Asks(l, s, i);
    } else if i: nat :| i < |s.calls| && s.calls[i] == Waiting {
      NoneOf(s.calls, Worker);
      states, steps := GetsAndAsks(l, s, i);
    } else {
      NoneOf(s.calls, Worker);
      NoneOf(s.calls, Querier);
      var s1 := Take(l, s, Accept);
      states, steps := GetsAndAsks(l, s1, |s.calls|);
      states, steps := [s] + states, [Accept] + steps;
    }
  }

  lemma Asks(l: Limits, s: State, i: nat) returns (states: seq<State>, steps: seq<Step>)
    requires i < |s.calls| && s.calls[i] == Holding
    ensures Runs(l, states, steps) && states[0] == s && Number(states[|steps|].calls, Asking) > 0
  {
    states, steps := [s, Take(l, s, Add(i))], [Add(i)];
    SomeAsks(states[1].calls, i);
  }

  lemma GetsAndAsks(l: Limits, s: State, i: nat) returns (states: seq<State>, steps: seq<Step>)
    requires i < |s.calls| && s.calls[i] == Waiting && s.workers < l.workers
    ensures Runs(l, states, steps) && states[0] == s && Number(states[|steps|].calls, Asking) > 0
  {
    states, steps := Asks(l, Take(l, s, Acquire(i)), i);
    states, steps := [s] + states, [Acquire(i)] + steps;
  }

  // Such a run: a querier gets its token after Stop has returned, and asks.
  lemma AsksAfterStop(l: Limits) returns (states: seq<State>, steps: seq<Step>)
    requires l.queriers > 0 && l.workers > 0
    ensures IsRun(l, states, steps) && steps == [Accept, Quit, Leave, Stopped, Acquire(0), Add(0)]
    ensures states[4].stopped && states[6].calls == [Asking]
  {
    hide Total, Number;
    assert [] + [Waiting] == [Waiting] && [Waiting][0 := Holding] == [Holding] && [Holding][0 := Asking] == [Asking];
    var s1 := Take(l, START, Accept);
    var s2 := Take(l, s1, Quit);
    var s3 := Take(l, s2, Leave);
    var s4 := Take(l, s3, Stopped);
    var s5 := Take(l, s4, Acquire(0));
    states := [START, s1, s2, s3, s4, s5, Take(l, s5, Add(0))];
    steps := [Accept, Quit, Leave, Stopped, Acquire(0), Add(0)];
  }
}
