# Hooky: models and proofs

Hooky runs webhooks: tasks with a schedule or without, each with a current
attempt that waits in a queue until a worker executes it, follows it up and
makes the next. This project models that protocol and the parts of Hooky's
libraries that carry it, and proves what they are for.

- `protocol.dfy`, `base.dfy`: the task and attempt documents as a store on which
  calls work one operation at a time, interleave and stop anywhere; what holds in
  every run, what the fixer repairs, and exactly where the guarantee stops. The
  calls themselves are methods proved to be those operations run uninterrupted.
- `retry.dfy`: the retry strategy, the attempts made in the store for a task that
  keeps failing, and its waits. Delays are real numbers.
- `admission.dfy`: the slots of a queue under concurrent admission, release and
  resizing, and the loop that looks for the next attempt.
- `scheduler.dfy`: the queriers and workers of the scheduler under every
  interleaving, with the channels used as semaphores and the way it is stopped.
- `tarjan.dfy`, `txn.dfy`: the order in which transactions on several documents
  are applied, and one transaction run by many flushers with stale copies.
- `cron.dfy`, `cronparser.dfy`: the search for the next run of a schedule over
  the Gregorian calendar in UTC, and the masks a crontab text is read into. A
  word is modelled as the set of positions of its one bits.
- `yamlsteps.dfy`, `yamlparser.dfy`: the YAML event parser, a stack machine over
  any sequence of tokens: the object, one step of it as a function, and what
  every step keeps.
- `yamlgrammar.dfy`, `yamlaccept.dfy`, `yamlstream.dfy`, `yamlreject.dfy`,
  `yamllanguage.dfy`, `yamlsound.dfy`: the grammar written at the head of the parser,
  as derivations with their tokens and events; which streams of it the parser takes,
  with these events, that it refuses the others, and that whatever tokens it takes
  are those of such a stream.
- `yamltree.dfy`, `yamlload.dfy`: the tree built out of the events, and that
  reading the tokens of a derivation gives its tree.
- `yamlchars.dfy`, `yamlemitter.dfy`, `yamlscanner.dfy`, `yamlroundtrip.dfy`:
  double-quoted scalars written and scanned again, byte by byte (sections 5.6 and
  9.1.1 of YAML 1.1; UTF-8 as in section 3 of RFC 3629).
- `yamlscalar.dfy`: what a double-quoted scalar means, by its characters, escapes and
  line breaks, and that the scanner reads every one so.
- `bson.dfy`, `bsoncoder.dfy`, `bsonwire.dfy`: BSON documents encoded with lengths
  patched in place and decoded with a cursor, and the wire format byte by byte.
- `gridfs.dfy`: files stored in chunks, written and read as flat bytes.
- `ring.dfy`: the growing ring buffer of the driver.

Time, randomness, fresh ids and the outcome of a request are parameters. A
database call is one atomic step. At any step a call may stop for good, or its
operation may fail and the call go on as the source does, so that a follow-up that
could not make its new attempt still acknowledges.

Where a guarantee of the code has an edge the exact edge is stated, with an input
on the far side of it:

- Tasks stay healthy once calls of one task overlap, stop or fail anywhere:
  `Protocol.StepExact` says of every step when it does no harm, and
  `Protocol.HealthyExact` of every run. `Protocol.OverlapStrands`,
  `Protocol.TwoFollowsStrand`, `Protocol.HalfDeletionStrands` and
  `Protocol.CleaningStrands` are runs that end with a task that has lost its
  attempt, the last three beyond the reach of the fixer's first pass.
- A resize that read a stale size: `Admission.ResizeExact`, `Admission.ResizesMiss`.
- Stopping the scheduler: `Scheduler.StopExact`, `Scheduler.AsksAfterStop`.
- BSON's binary kinds 0 and 2: `Bson.DocumentRoundTrip`.
- The grammar of the YAML parser: `YamlLanguage.StreamTaken`,
  `YamlLanguage.GrammarRefused`, `YamlSound.ExactLanguage`,
  `YamlSound.BracketSwallowed`.
- Lines of a scalar that look like document indicators: `YamlScalar.ScanMeans`.

The README of the repository says that a task can have up to 10 attempts by
default; the code counts failures since the last success, and a scheduled task
that uses them up becomes inactive as well. The grammar at the head of the YAML
parser (parserc.go:7-43) makes the key indicator of a block mapping's entry
optional, and the key of a pair in a flow sequence; the code needs the indicator,
and takes the token after a key indicator for the missing key whatever it is.

## Model

| member | source | states |
|---|---|---|
| `Protocol.QueuedInEveryRun` | models/task.go:356-372 | in every run, whatever overlaps or crashes, attempt_queued is only true of a task whose current attempt was inserted, and every stored or held id belongs to the task it was made for |
| `Protocol.InvKept` | models/task.go:374-447 | every step that does not overlap another call on its task keeps the invariant, also one that fails or is the last of its call: current attempts once inserted are stored, undeleted and unacknowledged unless the task is being deleted; calls in progress agree with the store; at most one live pending attempt a task |
| `Protocol.InvInEveryRun` | models/task.go:121-247 | the invariant holds in every state of every run in which the calls of one task do not overlap, no deletion stops halfway and only acknowledged attempts are cleaned; any other call may stop or fail between two store operations |
| `Protocol.HealthyInEveryRun` | models/task.go:374-447 | in such runs each undeleted task that is not being deleted at that moment has its current attempt stored, undeleted and unacknowledged, or missing with attempt_queued false; attempt_queued implies inserted; no two live pending attempts of a task |
| `Protocol.AdvanceOnePending` | models/attempt.go:93-128 | one store operation of a call never leaves two undeleted pending attempts of a task, because the pending ones are deleted before the insertion |
| `Protocol.AdvancePending` | models/attempt.go:103-123 | only the insertion makes a pending attempt, and it is the current attempt of its task |
| `Protocol.AttemptStepKeepsInv` | models/attempt.go:313-342 | reserving, touching and finishing an attempt, and removing deleted or acknowledged ones, keep the invariant |
| `Protocol.CreateKeepsInv` | models/task.go:177-242 | storing a new task and putting an existing one again keep the invariant |
| `Protocol.DeleteKeepsInv` | models/task.go:283-309 | the first operation of a deletion, over the attempts, and cleaning deleted tasks keep the invariant, with the task marked as being deleted; the second operation is a step of its call, in `Protocol.InvKept` |
| `Protocol.ActiveHasTimeInEveryRun` | models/task.go:413-433 | in every run an active task has a time to run at |
| `Protocol.ErrorRateInEveryRun` | models/task.go:105-111 | in every run errors never exceed executions, and the error rate is the errors in a hundred executions, rounded down, between 0 and 100 |
| `Protocol.FixerRepairs` | models/task.go:485-530 | a task the fixer selects has its current attempt stored, undeleted and unacknowledged when the fixing call ends, unless that call stopped midway or one of its operations failed |
| `Protocol.FixingStep` | models/task.go:505-529 | any other step in between leaves the fixing of a task in progress, and its own steps end with the attempt in place |
| `Protocol.ApplyExact` | models/task.go:405-437 | the update of a follow-up, whatever overlaps it, leaves the task healthy if and only if the followed attempt was current in the copy read, or the attempt current there is gone, or it is neither deleted nor acknowledged |
| `Protocol.StepExact` | models/task.go:374-447 | for every step of every kind, whatever overlaps, stops or fails: from a state with all tasks healthy it leads to one if and only if it spares its task: a stale copy written back names an attempt that is followed, gone or still good; the pending attempts deleted do not include the current one; the flag is not set for an attempt that is gone; the attempt acknowledged is not the current one; a deletion finds no current attempt stored; cleaning takes no current attempt of a task with attempt_queued |
| `Protocol.HealthyExact` | models/task.go:374-447 | in any run at all, every state has all tasks healthy if and only if every step spares every task |
| `Protocol.DeletionExact` | models/task.go:283-309 | the first operation of a deletion leaves all tasks healthy if and only if no undeleted task it names has its current attempt stored |
| `Protocol.HalfDeletionExact` | models/task.go:283-309 | a deletion that stops after its first operation leaves the task healthy if and only if it had no current attempt stored and attempt_queued false |
| `Protocol.CleaningExact` | models/attempt.go:344-356 | removing a finished attempt without looking at acked keeps every task healthy if and only if it is not the current attempt of an undeleted task with attempt_queued |
| `Protocol.OverlapStrands` | models/task.go:405-422 | a concrete run in which a follow-up writes a stale current attempt back and the task ends with a deleted one |
| `Protocol.TwoFollowsStrand` | models/task.go:374-447 | a concrete run in which a worker and the fixer follow up the same attempt, both taking it for current, and the slower deletes what the faster made: the task ends active, with attempt_queued, its attempt deleted and no call at work |
| `Protocol.HalfDeletionStrands` | models/task.go:283-309 | a concrete run that ends the same way after a deletion stopped between its operations |
| `Protocol.CleaningStrands` | models/attempt.go:344-356 | a concrete run that ends the same way after the cleaning of a finished, unacknowledged current attempt, all tasks being healthy just before |
| `Base.Models.DeletePendingAttempts` | models/attempt.go:167-185 | exactly the undeleted pending attempts of the task become deleted |
| `Base.Models.SetAttemptQueuedForTask` | models/task.go:356-372 | the flag is set only where the stored task still has the same current attempt and the flag unset |
| `Base.Models.AckAttempt` | models/attempt.go:130-140 | the stored attempt becomes acknowledged, nothing else changes |
| `Base.Models.NewAttempt` | models/attempt.go:93-128 | the pending attempts of the task are deleted first if asked; an attempt is made, for the time of the task, if and only if the task is wanted and its id is new, and then attempt_queued is set where the task still has it for current; this is what the protocol steps make of the store uninterrupted |
| `Base.Models.NextAttemptForTask` | models/task.go:374-447 | after the call, field by field: the stored task has its status, executions, errors, retry count, time and activity as the outcome, the schedule and the retry strategy say, a new pending attempt is made for exactly that time if and only if there is one, all others pending are deleted, the followed attempt is acknowledged, and no other task or attempt changes; this is what the protocol steps from the find to the acknowledgement make of the store uninterrupted |
| `Base.FollowMeans` | models/task.go:374-447 | the protocol steps of a follow-up have exactly that effect, whatever the store |
| `Base.Models.NewTask` | models/task.go:177-242 | field by field: a new task, or one put again over an old one with its counters kept, is pending or as it was, active exactly when wanted and with a time, and has one live pending attempt for that time; the store becomes what the protocol steps make of it |
| `Base.PutMeans` | models/task.go:177-242 | the protocol steps of storing a task have exactly that effect, whatever the store |
| `Base.Models.TouchAttempt` | models/attempt.go:332-342 | the stored attempt is reserved until so many seconds from now in nanoseconds, and nothing else changes; this is the protocol step |
| `Base.Models.FinishAttempt` | models/attempt.go:292-329 | the attempt ends in success if and only if the server answered with code 200, and in error otherwise, and nothing else changes; this is the protocol step |
| `Base.Models.DeleteTask` | models/task.go:283-309 | every attempt of the task becomes deleted, then the store becomes what the second step of the deletion makes of it |
| `Base.Models.FixTasks` | models/task.go:490-535 | after the first pass every task selected has its current attempt stored and undeleted, no current attempt was changed and tasks not selected are untouched |
| `Base.Models.FixAttempts` | models/task.go:537-557 | the second pass makes of the store what the protocol makes of it following up each finished attempt found, in order; none of those that have a task is left unacknowledged, and no attempt is lost |
| `Base.FollowKeeps` | models/task.go:374-447 | one follow-up loses no attempt and no acknowledgement, acknowledges the followed one, and makes at most the attempt with the new id |
| `Base.AckComesLast` | models/task.go:440-446 | a follow-up that acknowledges does what making the attempt alone does and then the acknowledgement, also when the insertion fails |
| `Base.FollowRan` | models/task.go:374-447 | the whole follow-up is the update, then a new attempt if the followed one was current, then the acknowledgement |
| `Base.FixOne` | models/task.go:505-530 | fixing one selected task gives it its attempt and leaves every other task and its attempt as they were |
| `Base.AllFixed` | models/task.go:485-530 | after the pass every active, undeleted task found without attempt_queued has its current attempt stored, its own and undeleted |
| `Base.InvIsSound` | models/task.go:490-495 | what the fixer pass relies on follows from the invariant of the protocol |
| `Retries.Strategy.NextAttempt` | models/retry.go:33-51 | fails exactly when the attempts are used up and then changes nothing; otherwise counts one and gives now plus the capped, randomised, truncated delay |
| `Retries.Strategy.SetDefault` | models/retry.go:53-66 | each zero parameter gets its default and the others stay |
| `Retries.DelaysGrow` | models/retry.go:38-46 | with factor at least 1 the base delay never shrinks from one attempt to the next |
| `Retries.DelaySteps` | models/retry.go:38-46 | the first delay is the smaller of minimum and maximum, and each next one the factor times the last, up to the maximum |
| `Retries.JitterAdds` | models/retry.go:41-50 | without jitter the wait is the delay truncated to the nanosecond, and jitter adds exactly its fifth part of the delay |
| `Retries.WaitBounds` | models/retry.go:38-50 | a retry is never before now and at most 1.2 times the maximum ahead, to the nanosecond |
| `Retries.RunsExactlyM` | models/retry.go:33-36 | on the task record: a wanted task with M attempts allowed and none used whose attempts all fail stays wanted for fewer than M failures and is inactive with no time after M, scheduled or not |
| `Retries.MakesExactlyM` | models/task.go:374-447 | on the store: over rounds in which its attempt is reserved, fails and is followed up, such a task has exactly M attempts ever made; while fewer have failed the newest is its only live pending one, and after the M-th none is pending and the task is not wanted |
| `Retries.WaitsBounded` | models/retry.go:41-50 | all waits of such a task total at most 1.2 * Max * (M - 1) |
| `Retries.SuccessResets` | models/task.go:401-402 | a success sets the count of retries to zero and keeps the parameters |
| `Retries.FailureStored` | models/task.go:395-442 | after a failed current attempt is followed up the only live pending attempt is the next one at the retry time, and none if the attempts are used up |
| `Retries.SuccessStored` | models/task.go:378-442 | after the successful current attempt of a task is followed up: success, one execution more, errors unchanged, retry count 0; an active scheduled task with a next time is active at exactly that time with exactly one live pending attempt, the new one, set for it; one without a schedule is inactive with none |
| `Admission.BalancedInEveryRun` | models/queue.go:215-267 | under every interleaving of EnQueue, DeQueue and resizes available plus in flight equals the maximum and the ids in flight are distinct |
| `Admission.NeverOverAdmits` | models/queue.go:230-249 | an attempt is let in only while fewer than the maximum are in flight, however stale the count was |
| `Admission.ReleasedBalanced` | models/queue.go:251-267 | a release takes out exactly its attempt and keeps the balance |
| `Admission.ReleaseTwice` | models/base.go:126-128 | releasing a second time, by the cleaner after the worker, changes nothing |
| `Admission.ResizeExact` | models/queue.go:88-105 | in every run, a resize that read the size ends at the size asked for if and only if what other resizes changed between its reading and its change comes to nothing |
| `Admission.ResizesMiss` | models/queue.go:88-105 | a concrete run: two resizes of a queue of 4, to 6 and to 8, that both read before either changes leave it at 10 |
| `Admission.Base.EnQueue` | models/queue.go:215-249 | full exactly when the queue is missing, or has no slot and not the attempt; otherwise the attempt is in flight, a slot less is free unless it was in flight before, and no other queue changes |
| `Admission.Base.DeQueue` | models/queue.go:251-267 | one slot more is free and the attempt is no longer in flight; nothing changes if it was not |
| `Admission.Base.Pick` | models/attempt.go:208-227 | reserves one attempt with the least reservation among those eligible outside the full queues, or none when there is none |
| `Admission.Redelivered` | models/attempt.go:204-227 | a new attempt can be taken once its time has come, a reserved one again exactly when its time to run has passed, a finished or deleted one never, and none from a full queue |
| `Admission.Base.NextAttempt` | models/attempt.go:204-246 | a returned attempt is in flight in its queue and the first outside the queues found full; none means every eligible attempt is in a queue found full; one attempt per full queue is altered and no other; at most one full queue per distinct queue |
| `Admission.Bounded` | models/attempt.go:222-245 | the queues found full are no more than the distinct queues of the attempts |
| `Scheduler.InvInEveryRun` | scheduler/scheduler.go:92-123 | in every run the channels hold one element for each querier and worker that has put one in and not yet taken it out, within their capacities, and the wait group counts exactly the goroutines it has to |
| `Scheduler.NeverTooMany` | scheduler/scheduler.go:98-113 | in every run at most maxWorker goroutines execute an attempt or ask for one, and at most maxQuerier ask |
| `Scheduler.NeverBlocked` | scheduler/scheduler.go:112-120 | in every run whoever takes an element back finds one, and the wait group never goes below zero |
| `Scheduler.Drains` | scheduler/scheduler.go:99-121 | from every state that satisfies the invariant the goroutines started take a bounded number of steps in any order, and when none can go on all are gone and both channels are empty |
| `Scheduler.NeverStuckExact` | scheduler/scheduler.go:92-123 | before Stop is called something can always go on, in every run, if and only if both capacities are positive |
| `Scheduler.NobodyIsCounted` | scheduler/scheduler.go:35-39 | when Stop returns no attempt is being asked for or executed |
| `Scheduler.StopExact` | scheduler/scheduler.go:35-39 | no attempt is asked for ever after Stop returned if and only if by then the loop has ended and no querier waits for a worker or has just got one, since those are not counted yet |
| `Scheduler.AsksAfterStop` | scheduler/scheduler.go:92-105 | a concrete run in which a querier goes on after Stop returned |
| `Tarjan.TarjanSort` | Godeps/_workspace/src/gopkg.in/mgo.v2/txn/tarjan.go:8-30 | the groups partition the keys, are exactly the classes of mutual reachability, every edge between groups leads to an earlier one, and each group ascends |
| `Tarjan.Components` | Godeps/_workspace/src/gopkg.in/mgo.v2/txn/tarjan.go:9-21 | the same before the groups are ordered inside |
| `Tarjan.Data.StrongConnect` | Godeps/_workspace/src/gopkg.in/mgo.v2/txn/tarjan.go:52-94 | a search from an unseen vertex keeps the invariant, visits everything reachable and unseen, and returns the low link its caller needs |
| `Tarjan.Data.PopComponent` | Godeps/_workspace/src/gopkg.in/mgo.v2/txn/tarjan.go:74-91 | the pop loop moves exactly the part of the stack from the root on into one group and clears its flags |
| `Tarjan.Data.LowerTo` | Godeps/_workspace/src/gopkg.in/mgo.v2/txn/tarjan.go:63-70 | the low link becomes the smaller of the two and nothing else changes |
| `Tarjan.RootIsClass` | Godeps/_workspace/src/gopkg.in/mgo.v2/txn/tarjan.go:74-91 | the part of the stack popped at a root is exactly one class of mutual reachability |
| `Tarjan.NodesFitCapacity` | Godeps/_workspace/src/gopkg.in/mgo.v2/txn/tarjan.go:10-14 | the nodes never outgrow the capacity made, so a pointer kept into them stays valid |
| `Tarjan.SortedAfterReorder` | Godeps/_workspace/src/gopkg.in/mgo.v2/txn/tarjan.go:23-28 | ordering a group inside keeps what the sort promises |
| `Tarjan.PredecessorsFirst` | Godeps/_workspace/src/gopkg.in/mgo.v2/txn/flusher.go:106-127 | walking the groups from last to first meets a transaction before those that depend on it, unless they share a group |
| `Txn.RevnosGrow` | Godeps/_workspace/src/gopkg.in/mgo.v2/txn/flusher.go:487-494 | a change is effective if and only if it moves the revision number away from zero |
| `Txn.RevnoSigns` | Godeps/_workspace/src/gopkg.in/mgo.v2/txn/flusher.go:487-494 | an insertion that takes effect ends positive and a removal negative, one above the old absolute value; an update adds one; the others keep the number |
| `Txn.AssembledRevnos` | Godeps/_workspace/src/gopkg.in/mgo.v2/txn/flusher.go:481-497 | gives for each operation the revision its document has after the operations before it ran in order |
| `Txn.StepMoves` | Godeps/_workspace/src/gopkg.in/mgo.v2/txn/flusher.go:594-678 | every step moves the stored state along one edge, and writes nonce and revision numbers once |
| `Txn.StepperAgrees` | Godeps/_workspace/src/gopkg.in/mgo.v2/txn/flusher.go:156-187 | a step leaves the flusher that takes it with a copy the stored record is not behind, and the other flushers as they were |
| `Txn.AgreeInEveryRun` | Godeps/_workspace/src/gopkg.in/mgo.v2/txn/flusher.go:156-187 | in every run every flusher's copy agrees with the stored branch, nonce and revision numbers |
| `Txn.StepsDo` | Godeps/_workspace/src/gopkg.in/mgo.v2/txn/flusher.go:594-678 | a flusher alone: each guarded update with its reload, as its method does it, is one to three steps of the system, with the same stored record, copy and documents |
| `Txn.StepsApply` | Godeps/_workspace/src/gopkg.in/mgo.v2/txn/flusher.go:680-745 | and the loop over the operations is one step of the system for each, with the same documents and effects, and the mark at the end |
| `Txn.RecordFollows` | Godeps/_workspace/src/gopkg.in/mgo.v2/txn/flusher.go:594-678 | in every run a branch once taken is kept, final states stay, and nonce and revision numbers never change once written |
| `Txn.OutcomesAgree` | Godeps/_workspace/src/gopkg.in/mgo.v2/txn/flusher.go:156-187 | no two flushers ever come to different ends, and those that apply use the same revision numbers |
| `Txn.NoPanic` | Godeps/_workspace/src/gopkg.in/mgo.v2/txn/flusher.go:331-337 | no flusher meets a panic on the state, and one that lost the race to abort finds the transaction not prepared any more |
| `Txn.ApplyOpCounted` | Godeps/_workspace/src/gopkg.in/mgo.v2/txn/flusher.go:707-745 | a guarded update that takes effect has not done so before |
| `Txn.ApplyOpExact` | Godeps/_workspace/src/gopkg.in/mgo.v2/txn/flusher.go:707-745 | an update takes effect exactly when its document is at the revision recorded and holds the token, adds one to the revision, and changes nothing else |
| `Txn.AtMostOnce` | Godeps/_workspace/src/gopkg.in/mgo.v2/txn/flusher.go:680-745 | in every run each update takes effect at most once however many flushers replay it and whatever other transactions do to the documents |
| `Txn.ExactlyOnceAlone` | Godeps/_workspace/src/gopkg.in/mgo.v2/txn/flusher.go:680-745 | with the assembled revisions and nobody else at work every operation due takes effect once, in order, and the documents end at the predicted revisions |
| `Txn.Flusher.SaveNonce` | Godeps/_workspace/src/gopkg.in/mgo.v2/txn/flusher.go:322-343 | saves state and nonce if still preparing, otherwise reloads; the copy is never preparing afterwards |
| `Txn.Flusher.Checkpoint` | Godeps/_workspace/src/gopkg.in/mgo.v2/txn/flusher.go:653-678 | saves state and revision numbers if still prepared, otherwise reloads |
| `Txn.Flusher.AbortOrReload` | Godeps/_workspace/src/gopkg.in/mgo.v2/txn/flusher.go:594-651 | aborts if still prepared or aborting, otherwise takes over the stored outcome; the unguarded last update never leaves another branch |
| `Txn.Flusher.Apply` | Godeps/_workspace/src/gopkg.in/mgo.v2/txn/flusher.go:680-745 | the loop over the operations makes of the documents what ApplyFrom says and ends applied |
| `Txn.Flusher.Advance` | Godeps/_workspace/src/gopkg.in/mgo.v2/txn/flusher.go:156-187 | the loop on the state ends, applied if and only if the stored branch or the assertions say so, with the record at the same end |
| `Cron.Next` | Godeps/_workspace/src/github.com/robfig/cron/spec.go:53-145 | gives the least due whole second strictly later, or none when nothing is due up to the end of the fifth year after, and terminates |
| `Cron.MonthStep` | Godeps/_workspace/src/github.com/robfig/cron/spec.go:80-93 | a step of the month loop passes no due instant, moves on, and leaves every lower field at its minimum |
| `Cron.DayStep` | Godeps/_workspace/src/github.com/robfig/cron/spec.go:96-106 | the same for the day loop |
| `Cron.HourStep` | Godeps/_workspace/src/github.com/robfig/cron/spec.go:108-118 | the same for the hour loop |
| `Cron.MinuteStep` | Godeps/_workspace/src/github.com/robfig/cron/spec.go:120-130 | the same for the minute loop |
| `Cron.SecondStep` | Godeps/_workspace/src/github.com/robfig/cron/spec.go:132-142 | the same for the second loop |
| `Cron.NextIsUnique` | Godeps/_workspace/src/github.com/robfig/cron/spec.go:53-54 | the answer is determined by the schedule and the time |
| `Cron.NextIsStable` | Godeps/_workspace/src/github.com/robfig/cron/spec.go:53-145 | asking at any instant before the answer gives the same answer |
| `Cron.SearchSpan` | Godeps/_workspace/src/github.com/robfig/cron/spec.go:58-78 | none means that nothing is due up to the end of the fifth year after, and an answer is in those years, or the first second of the next one when asked in the last of a year |
| `Cron.ChainEnumerates` | models/task.go:113-119 | repeated calls meet every due instant in their span |
| `Cron.ChainAscends` | models/task.go:113-119 | repeated calls go strictly forward and every answer is due |
| `Calendar.OrderAgrees` | Godeps/_workspace/src/github.com/robfig/cron/spec.go:53-54 | comparing the fields of two civil times compares the instants |
| `Calendar.AddMonthIsExact` | Godeps/_workspace/src/github.com/robfig/cron/spec.go:87 | adding a month adds the days of the month, also when the day runs over |
| `Calendar.AddDayIsADay` | Godeps/_workspace/src/github.com/robfig/cron/spec.go:101 | adding a day is the next day across months and years |
| `Calendar.AddHourIsExact` | Godeps/_workspace/src/github.com/robfig/cron/spec.go:113 | adding an hour adds 3600 seconds across every boundary |
| `Calendar.AddMinuteIsExact` | Godeps/_workspace/src/github.com/robfig/cron/spec.go:125 | adding a minute adds 60 seconds |
| `Calendar.AddSecondIsExact` | Godeps/_workspace/src/github.com/robfig/cron/spec.go:137 | adding a second adds one |
| `Calendar.TruncatesAreFloors` | Godeps/_workspace/src/github.com/robfig/cron/spec.go:111-123 | setting the lower fields to zero is truncating the absolute time |
| `Calendar.WeekdayFollows` | Godeps/_workspace/src/github.com/robfig/cron/spec.go:149-158 | the day after a day of the week is the next one, over every month and year |
| `Calendar.KnownDates` | Godeps/_workspace/src/github.com/robfig/cron/spec.go:149-158 | 1970-01-01 was a Thursday and 2001-01-01 a Monday, which settles all the others, and the instants count from year 1 |
| `Calendar.MonthEnds` | Godeps/_workspace/src/github.com/robfig/cron/spec.go:80-106 | which dates there are: months of 30 and 31 days, and leap years by the rule of 4, 100 and 400 |
| `CronParser.GetBits` | Godeps/_workspace/src/github.com/robfig/cron/parser.go:144-158 | the mask has bit i exactly when i is in the range and a multiple of the step above its start |
| `CronParser.LoopForm` | Godeps/_workspace/src/github.com/robfig/cron/parser.go:153-157 | the same for the loop alone |
| `CronParser.ShiftFormDenotes` | Godeps/_workspace/src/github.com/robfig/cron/parser.go:148-151 | the shift form sets exactly the bits of the range |
| `CronParser.FormsAgree` | Godeps/_workspace/src/github.com/robfig/cron/parser.go:148-157 | the shift form and the loop with step one give the same bits |
| `CronParser.GetRange` | Godeps/_workspace/src/github.com/robfig/cron/parser.go:66-119 | accepts exactly the well-formed ranges, and the mask denotes the set of the range, with bit 63 for a star |
| `CronParser.GetField` | Godeps/_workspace/src/github.com/robfig/cron/parser.go:54-64 | accepts exactly lists of well-formed ranges, denotes their union, and bit 63 is set exactly when a star or question mark occurs |
| `CronParser.RangeMeans` | Godeps/_workspace/src/github.com/robfig/cron/parser.go:66-119 | the six forms of a range, one by one: which numbers each takes and which it denotes, a single number with a step running to the end of the field |
| `CronParser.FieldBounds` | Godeps/_workspace/src/github.com/robfig/cron/spec.go:17-45 | the bounds of the six fields |
| `CronParser.DayRule` | Godeps/_workspace/src/github.com/robfig/cron/spec.go:147-158 | day of the month and day of the week both given: either will do; one of them a star: the other decides |
| `CronParser.FieldRule` | Godeps/_workspace/src/github.com/robfig/cron/parser.go:42-52 | a number in each of the first five fields is due at that second, minute, hour, day and month and at no other |
| `CronParser.MatchesDue` | Godeps/_workspace/src/github.com/robfig/cron/spec.go:147-159 | a schedule read from the text is due at an instant exactly when the text says so, with the rule for days and stars |
| `CronParser.Parse` | Godeps/_workspace/src/github.com/robfig/cron/parser.go:42-52 | succeeds exactly on accepted fields, with a schedule due when they say so |
| `CronParser.NextRun` | models/task.go:113-119 | the next run is the least later instant at which the text of the schedule is due, or none up to the horizon |
| `YamlChars.TestsOfChar` | Godeps/_workspace/src/gopkg.in/yaml.v2/yamlprivateh.go:58-109 | the tests on bytes say of a UTF-8 character what their ranges of code points say |
| `YamlChars.WidthOfChar` | Godeps/_workspace/src/gopkg.in/yaml.v2/yamlprivateh.go:155-173 | the width from the first byte is the length of the character |
| `YamlChars.ValueOfChar` | Godeps/_workspace/src/gopkg.in/yaml.v2/emitterc.go:1440-1456 | the value put together from the octets is the code point |
| `YamlEmitter.Emitter.WriteDoubleQuotedScalar` | Godeps/_workspace/src/gopkg.in/yaml.v2/emitterc.go:1429-1548 | for every UTF-8 text the output grows by the quoted form the specification function gives |
| `YamlEmitter.Emitter.WriteChar` | Godeps/_workspace/src/gopkg.in/yaml.v2/emitterc.go:1436-1540 | one round of the loop writes the piece for one character and keeps the line past the indentation |
| `YamlEmitter.Emitter.WriteIndent` | Godeps/_workspace/src/gopkg.in/yaml.v2/emitterc.go:1201-1219 | breaks the line when past the indentation, or not at an indentation, or at it without a blank before, and fills up to the indentation |
| `YamlEmitter.Emitter.WriteQuote` | Godeps/_workspace/src/gopkg.in/yaml.v2/emitterc.go:1221-1234 | pads with a space if needed and resets whitespace and indention |
| `YamlEmitter.Emitter.PutEscape` | Godeps/_workspace/src/gopkg.in/yaml.v2/emitterc.go:1459-1516 | writes the short escape or the hexadecimal one |
| `YamlEmitter.Emitter.PutHex` | Godeps/_workspace/src/gopkg.in/yaml.v2/emitterc.go:1507-1514 | writes the digits from the highest on |
| `YamlEmitter.EscapedExact` | Godeps/_workspace/src/gopkg.in/yaml.v2/emitterc.go:1436-1439 | which characters are escaped, by their code points |
| `YamlEmitter.EscapeForm` | Godeps/_workspace/src/gopkg.in/yaml.v2/emitterc.go:1461-1511 | the letter of each of fifteen characters, and two, four or eight digits for the others |
| `YamlEmitter.BodyVisible` | Godeps/_workspace/src/gopkg.in/yaml.v2/emitterc.go:1436-1540 | unless Unicode is asked for nothing but visible ASCII is written, and line breaks only where allowed |
| `YamlEmitter.FoldedExact` | Godeps/_workspace/src/gopkg.in/yaml.v2/emitterc.go:1516-1530 | a line is broken exactly at a single inner space past the width, with the indentation after it and a backslash if a space follows |
| `YamlScanner.Scanner.ScanFlowScalar` | Godeps/_workspace/src/gopkg.in/yaml.v2/scannerc.go:2304-2557 | gives the text, position and column, or the error, that the loops as functions give, on every buffer; what these give on the bytes of any scalar is `YamlScalar.ScanMeans` |
| `YamlScanner.Scanner.ReadText` | Godeps/_workspace/src/gopkg.in/yaml.v2/scannerc.go:2336-2472 | the same for the loop over non-blank characters |
| `YamlScanner.Scanner.ReadBlanks` | Godeps/_workspace/src/gopkg.in/yaml.v2/scannerc.go:2488-2540 | the same for the loop over blanks and breaks with the folding, which is given in `YamlScalar.GapRead` |
| `YamlScanner.Scanner.ScanEscape` | Godeps/_workspace/src/gopkg.in/yaml.v2/scannerc.go:2364-2466 | the same for one escape sequence |
| `YamlScanner.Scanner.ReadLine` | Godeps/_workspace/src/gopkg.in/yaml.v2/scannerc.go:537-568 | reads CR LF, CR, LF and NEL as a line feed and keeps the two Unicode separators |
| `YamlScalar.ScanMeans` | Godeps/_workspace/src/gopkg.in/yaml.v2/scannerc.go:2304-2557 | every double-quoted scalar, of any characters, escapes, blanks and line breaks, wherever it stands, is read as what it means and to its right quote, unless a line starts with three dashes or dots and a blank, when the scan fails on a document indicator |
| `YamlScalar.Read` | Godeps/_workspace/src/gopkg.in/yaml.v2/scannerc.go:2304-2557 | the same of the scanner as a method, from the bytes of a scalar to its text |
| `YamlScalar.GapRead` | Godeps/_workspace/src/gopkg.in/yaml.v2/scannerc.go:2488-2540 | blanks on a line stay, those around breaks are dropped; a single break is a space, of several the first is left out unless it is a Unicode separator, and after an escaped break nothing is left out |
| `YamlScalar.FeedsFolded` | Godeps/_workspace/src/gopkg.in/yaml.v2/scannerc.go:2517-2540 | n line feeds between two lines, whatever blanks are around them, are a space for one and n - 1 line feeds for more; after an escaped break all n |
| `YamlScalar.BlankLine` | Godeps/_workspace/src/gopkg.in/yaml.v2/scannerc.go:2523-2528 | a scalar of two lines with a blank one between them keeps one line feed |
| `YamlScalar.CutRead` | Godeps/_workspace/src/gopkg.in/yaml.v2/scannerc.go:2349-2357 | an escaped line break of any of the six kinds is taken as a whole |
| `YamlScalar.LetterMeans` | Godeps/_workspace/src/gopkg.in/yaml.v2/scannerc.go:2364-2408 | the character of each letter after a backslash, also of those the emitter never writes |
| `YamlScalar.HexRead` | Godeps/_workspace/src/gopkg.in/yaml.v2/scannerc.go:2429-2435 | digits of either case are read as the number they are |
| `YamlScalar.EscapeRefused` | Godeps/_workspace/src/gopkg.in/yaml.v2/scannerc.go:2409-2442 | other letters, characters that are no digits, surrogates and numbers past the last character are errors |
| `YamlScalar.Unclosed` | Godeps/_workspace/src/gopkg.in/yaml.v2/scannerc.go:2329-2334 | where no right quotation mark comes the scan fails |
| `YamlRoundTrip.RoundTrip` | Godeps/_workspace/src/gopkg.in/yaml.v2/emitterc.go:1429-1548 | scanning the written scalar gives the text back and ends right after it, for every text: without folding always, with folding whenever the indentation is positive |
| `YamlRoundTrip.RoundTripExact` | Godeps/_workspace/src/gopkg.in/yaml.v2/scannerc.go:2318-2330 | for every text and all settings, indentation 0 included: scanning the written scalar gives the text back and ends right after it, unless folding without indentation starts a line with three dashes or three dots and a blank, when the scan fails on a document indicator |
| `YamlRoundTrip.Through` | Godeps/_workspace/src/gopkg.in/yaml.v2/scannerc.go:2304-2557 | the emitter's output for any valid UTF-8 text goes through the scanner unharmed |
| `YamlRoundTrip.FlatFoldIsLost` | Godeps/_workspace/src/gopkg.in/yaml.v2/scannerc.go:2318-2330 | a text of the second kind, written with indentation 0, which the emitter's callers never use: the reason why `YamlRoundTrip.RoundTrip` asks for a positive one |
| `YamlRoundTrip.EscapeBack` | Godeps/_workspace/src/gopkg.in/yaml.v2/scannerc.go:2364-2459 | every escape sequence written for a code point is read as its UTF-8 bytes |
| `YamlRoundTrip.ReadsFold` | Godeps/_workspace/src/gopkg.in/yaml.v2/emitterc.go:1521-1530 | a break and indentation written for a space are read as one space |
| `YamlRoundTrip.OnePiece` | Godeps/_workspace/src/gopkg.in/yaml.v2/emitterc.go:1436-1540 | each piece written for a character takes the scanner from one standing to the next with that character added |
| `YamlRoundTrip.HexBack` | Godeps/_workspace/src/gopkg.in/yaml.v2/scannerc.go:2432-2439 | the digits written for a number are read as that number |
| `YamlParser.NodeFeeds` | Godeps/_workspace/src/gopkg.in/yaml.v2/parserc.go:360-574 | a node event feeds the frame of the state it returns to |
| `YamlParser.TopGoesOn` | Godeps/_workspace/src/gopkg.in/yaml.v2/parserc.go:476-477 | the state popped goes on where the events have come to |
| `YamlParser.CollectionEnds` | Godeps/_workspace/src/gopkg.in/yaml.v2/parserc.go:607-619 | an end event closes the frame of its collection and the state below goes on |
| `YamlLanguage.StreamTaken` | Godeps/_workspace/src/gopkg.in/yaml.v2/parserc.go:7-43 | for every stream derived from the grammar: the parser comes to the end of the stream if and only if the stream is supported, that is, tags and directives are in order, no node is blank, entries of block mappings have their key indicator, and a pair without a key in a flow sequence loses nothing |
| `YamlStream.StreamRuns` | Godeps/_workspace/src/gopkg.in/yaml.v2/parserc.go:7-43 | from the tokens of a supported stream the parser gives exactly the events of its derivation, one after the other, and has then taken every token |
| `YamlLanguage.EventsAre` | Godeps/_workspace/src/gopkg.in/yaml.v2/parserc.go:61-73 | whatever the parser has given of a supported stream is a beginning of the events of the derivation, and all of them at the end |
| `YamlLanguage.NeverStuck` | Godeps/_workspace/src/gopkg.in/yaml.v2/parserc.go:92-170 | on a supported stream no call for an event fails |
| `YamlLanguage.GrammarRefused` | Godeps/_workspace/src/gopkg.in/yaml.v2/parserc.go:829-849 | a flow sequence of one pair without a key, and a block mapping of one entry without a key indicator, are in the grammar and are not parsed to the end |
| `YamlSound.StreamDerived` | Godeps/_workspace/src/gopkg.in/yaml.v2/parserc.go:7-43 | the other way round: any tokens that the parser takes to the end, none of them for a missing key in a flow sequence, begin with those of a stream of the grammar, derived here, and that stream is supported |
| `YamlSound.ExactLanguage` | Godeps/_workspace/src/gopkg.in/yaml.v2/parserc.go:7-43 | for all tokens without a key indicator in front of a value indicator, a separator or the end of a flow sequence, and with the end of the stream last: the parser comes to the end if and only if they are the tokens of a supported stream of the grammar, and its events are those of that stream |
| `YamlSound.NodeBack` | Godeps/_workspace/src/gopkg.in/yaml.v2/parserc.go:333-574 | of a run through a node to the end of the stream: the node that was read, that it is derived and supported in its context, and where its tokens stand |
| `YamlSound.EntriesBack` | Godeps/_workspace/src/gopkg.in/yaml.v2/parserc.go:576-991 | the same for the entries of every kind of collection and its end |
| `YamlSound.DocumentsBack` | Godeps/_workspace/src/gopkg.in/yaml.v2/parserc.go:194-332 | the same for the documents of a stream with their directives and end indicators |
| `YamlSound.BracketSwallowed` | Godeps/_workspace/src/gopkg.in/yaml.v2/parserc.go:829-849 | tokens with one closing bracket too many after a key indicator are taken to the end, though no derivation has them: the condition of `YamlSound.ExactLanguage` is needed |
| `YamlLanguage.VersionsTaken` | Godeps/_workspace/src/gopkg.in/yaml.v2/parserc.go:1013-1073 | a document of version 1.1 is taken, one of any other version is not, nor one that gives a handle twice |
| `YamlGrammar.LeafImplicit` | Godeps/_workspace/src/gopkg.in/yaml.v2/parserc.go:471-475 | of a text in a derivation: its tag is resolved from the text if and only if it is plain and without a tag, or tagged with an exclamation mark alone; it is taken for a string if and only if it is quoted and has no tag; and the parser gives that event |
| `YamlGrammar.TagMeans` | Godeps/_workspace/src/gopkg.in/yaml.v2/parserc.go:429-447 | a tag is the prefix of the first directive with its handle followed by the suffix, and undefined if there is none |
| `YamlGrammar.TagAgrees` | Godeps/_workspace/src/gopkg.in/yaml.v2/parserc.go:429-447 | the parser expands every tag as the grammar does |
| `YamlGrammar.TagsAgree` | Godeps/_workspace/src/gopkg.in/yaml.v2/parserc.go:1058-1062 | the handles known in a document are those given and the two defaults not given |
| `YamlAccept.NodeRuns` | Godeps/_workspace/src/gopkg.in/yaml.v2/parserc.go:333-574 | a supported node of any kind, in block or flow context, gives exactly its events, takes exactly its tokens and goes on in the state on top of the stack |
| `YamlAccept.EntriesRun` | Godeps/_workspace/src/gopkg.in/yaml.v2/parserc.go:576-991 | the same for the entries of every kind of collection up to its end |
| `YamlAccept.PropsRead` | Godeps/_workspace/src/gopkg.in/yaml.v2/parserc.go:381-451 | an anchor and a tag are read in either order, and fail exactly for a handle that is not known |
| `YamlAccept.KeylessPairRuns` | Godeps/_workspace/src/gopkg.in/yaml.v2/parserc.go:829-849 | a pair without key and value in a flow sequence is read right when the token lost is a value indicator or the last separator |
| `YamlReject.NodeWins` | Godeps/_workspace/src/gopkg.in/yaml.v2/parserc.go:333-574 | if the parser, started on the tokens of a node with as many ends of flow sequences to come as are open, comes to the end, the node is supported |
| `YamlReject.StepHolds` | Godeps/_workspace/src/gopkg.in/yaml.v2/parserc.go:92-170 | on any tokens no step raises the number of ends of flow sequences to come less those open |
| `YamlReject.Swallowed` | Godeps/_workspace/src/gopkg.in/yaml.v2/parserc.go:829-849 | when the end of a flow sequence is taken for a missing key the parser never comes to the end of the stream |
| `YamlReject.Misplaced` | Godeps/_workspace/src/gopkg.in/yaml.v2/parserc.go:829-849 | when another token is taken for it and the one after has no place, the parser fails |
| `YamlReject.RestWins` | Godeps/_workspace/src/gopkg.in/yaml.v2/parserc.go:194-332 | if the parser comes to the end of a stream, all its documents are supported |
| `YamlStream.DirectivesRead` | Godeps/_workspace/src/gopkg.in/yaml.v2/parserc.go:1013-1073 | the directives of a document are taken if and only if there is at most one version, which is 1.1, and no handle twice; the tags known then are those given and the two defaults |
| `YamlStream.RestRuns` | Godeps/_workspace/src/gopkg.in/yaml.v2/parserc.go:194-332 | documents with and without start and end indicators follow each other |
| `YamlParser.StepFine` | Godeps/_workspace/src/gopkg.in/yaml.v2/parserc.go:92-170 | one step from any good state: the event continues a well-nested document stream in which mappings pair keys and values, the texts of the tokens taken are those of the event, the state after it is good, and a bound on the events to come shrinks |
| `YamlParser.NodeFine` | Godeps/_workspace/src/gopkg.in/yaml.v2/parserc.go:333-574 | the same for a node |
| `YamlParser.GoodIsSafe` | Godeps/_workspace/src/gopkg.in/yaml.v2/parserc.go:476-477 | in a good state no stack is empty that the step pops |
| `YamlParser.Parser.Parse` | Godeps/_workspace/src/gopkg.in/yaml.v2/parserc.go:61-73 | the result is one step of the step function, or nothing at the end and after an error; for every sequence of tokens each event given continues a well-nested stream, no text is lost and the bound on the events left shrinks |
| `YamlParser.Parser.StateMachine` | Godeps/_workspace/src/gopkg.in/yaml.v2/parserc.go:92-170 | the event and the state after it are those of the step function, which is total over all states; it fails exactly when that does |
| `YamlParser.Parser.ParseStreamStart` | Godeps/_workspace/src/gopkg.in/yaml.v2/parserc.go:172-192 | the same for the start of the stream |
| `YamlParser.Parser.ParseDocumentStart` | Godeps/_workspace/src/gopkg.in/yaml.v2/parserc.go:194-277 | the same for implicit and explicit documents and the end of the stream |
| `YamlParser.Parser.ParseDocumentContent` | Godeps/_workspace/src/gopkg.in/yaml.v2/parserc.go:279-299 | the same for the root of an explicit document |
| `YamlParser.Parser.ParseDocumentEnd` | Godeps/_workspace/src/gopkg.in/yaml.v2/parserc.go:301-332 | the same for the end of a document |
| `YamlParser.Parser.ProcessDirectives` | Godeps/_workspace/src/gopkg.in/yaml.v2/parserc.go:1013-1073 | the loop over directives takes and refuses what the recursive definition does, with the same tags known after it |
| `YamlParser.Parser.AppendTagDirective` | Godeps/_workspace/src/gopkg.in/yaml.v2/parserc.go:1075-1092 | a handle is appended unless it is known, which is an error unless duplicates are allowed |
| `YamlParser.Parser.ParseNode` | Godeps/_workspace/src/gopkg.in/yaml.v2/parserc.go:360-574 | the event, position and stack of states after a node are those of the step function; what the event of a text is, is `YamlGrammar.LeafImplicit` |
| `YamlParser.Parser.ParseProperties` | Godeps/_workspace/src/gopkg.in/yaml.v2/parserc.go:381-451 | the anchor, the tag and the position after them are those of the definition; fails exactly for an unknown handle or at the end |
| `YamlParser.Parser.ParseBlockSequenceEntry` | Godeps/_workspace/src/gopkg.in/yaml.v2/parserc.go:576-627 | the step in block sequences |
| `YamlParser.Parser.ParseIndentlessSequenceEntry` | Godeps/_workspace/src/gopkg.in/yaml.v2/parserc.go:629-664 | the step in sequences without a start and end token of their own |
| `YamlParser.Parser.ParseBlockMappingKey` | Godeps/_workspace/src/gopkg.in/yaml.v2/parserc.go:666-722 | the step before a key of a block mapping |
| `YamlParser.Parser.ParseBlockMappingValue` | Godeps/_workspace/src/gopkg.in/yaml.v2/parserc.go:724-757 | the step before its value |
| `YamlParser.Parser.ParseFlowSequenceEntry` | Godeps/_workspace/src/gopkg.in/yaml.v2/parserc.go:759-827 | the step in flow sequences |
| `YamlParser.Parser.ParseFlowSequenceEntryMappingKey` | Godeps/_workspace/src/gopkg.in/yaml.v2/parserc.go:829-849 | the step before the key of a pair in a flow sequence |
| `YamlParser.Parser.ParseFlowSequenceEntryMappingValue` | Godeps/_workspace/src/gopkg.in/yaml.v2/parserc.go:851-873 | the step before its value |
| `YamlParser.Parser.ParseFlowSequenceEntryMappingEnd` | Godeps/_workspace/src/gopkg.in/yaml.v2/parserc.go:875-891 | the step that closes such a pair |
| `YamlParser.Parser.ParseFlowMappingKey` | Godeps/_workspace/src/gopkg.in/yaml.v2/parserc.go:893-965 | the step before a key of a flow mapping |
| `YamlParser.Parser.ParseFlowMappingValue` | Godeps/_workspace/src/gopkg.in/yaml.v2/parserc.go:967-993 | the step before its value |
| `YamlParser.Parser.SkipDocumentEnds` | Godeps/_workspace/src/gopkg.in/yaml.v2/parserc.go:201-211 | takes the end indicators left over before a document |
| `YamlParser.Parser.ResolveTag` | Godeps/_workspace/src/gopkg.in/yaml.v2/parserc.go:429-447 | gives the prefix of the first directive with the handle and the suffix, or nothing |
| `YamlTree.Comes` | Godeps/_workspace/src/gopkg.in/yaml.v2/decode.go:105-184 | after what is open only the events can come that the builder expects |
| `YamlTree.Builder.Start` | Godeps/_workspace/src/gopkg.in/yaml.v2/decode.go:40-58 | the first event is the start of the stream, and the next one parse can take |
| `YamlTree.Builder.Skip` | Godeps/_workspace/src/gopkg.in/yaml.v2/decode.go:67-77 | takes the event at hand and asks for the next; fails only past the end of the stream or where the parser fails |
| `YamlTree.Builder.ParseNode` | Godeps/_workspace/src/gopkg.in/yaml.v2/decode.go:105-124 | never meets an event it does not expect, and fails only where the parser fails; the events taken are those the tree stands for, and exactly one node was fed |
| `YamlTree.Builder.Document` | Godeps/_workspace/src/gopkg.in/yaml.v2/decode.go:134-145 | a document has one root and is followed by its end event only |
| `YamlTree.Builder.Sequence` | Godeps/_workspace/src/gopkg.in/yaml.v2/decode.go:164-173 | the events taken are those of the sequence |
| `YamlTree.Builder.Mapping` | Godeps/_workspace/src/gopkg.in/yaml.v2/decode.go:175-184 | the events taken are those of the mapping, with as many values as keys |
| `YamlTree.Builder.NothingLost` | Godeps/_workspace/src/gopkg.in/yaml.v2/decode.go:67-77 | at the end of the stream the texts of all tokens taken are in the events, in order |
| `YamlTree.Unambiguous` | Godeps/_workspace/src/gopkg.in/yaml.v2/decode.go:105-184 | a tree is determined by its events, whatever follows them |
| `YamlTree.ProperRuns` | Godeps/_workspace/src/gopkg.in/yaml.v2/decode.go:164-184 | the events of a tree with paired mappings feed exactly one node to any open frame |
| `YamlTree.DocumentRuns` | Godeps/_workspace/src/gopkg.in/yaml.v2/decode.go:134-145 | the events of a document lead from one document to the next |
| `YamlLoad.Unmarshal` | Godeps/_workspace/src/gopkg.in/yaml.v2/yaml.go:79-83 | of the tokens of a supported stream the tree of the first document is read, exactly as derived, or none if there is no document; reading fails only where the parser fails |
| `YamlLoad.TreeEvents` | Godeps/_workspace/src/gopkg.in/yaml.v2/decode.go:105-184 | the tree of a derivation stands for the events of the derivation |
| `YamlLoad.ReadFirst` | Godeps/_workspace/src/gopkg.in/yaml.v2/decode.go:134-145 | a document read from the start of a supported stream is the tree of the first document |
| `YamlLoad.LeafTree` | Godeps/_workspace/src/gopkg.in/yaml.v2/decode.go:152-159 | the leaf read for a text is resolved by it if and only if the text is plain and has no tag, or has an exclamation mark for one |
| `YamlLoad.QuotedNumber` | Godeps/_workspace/src/gopkg.in/yaml.v2/decode.go:335-337 | the tree of a document that is a quoted number has a leaf that is not |
| `GridFs.GridFile.Write` | Godeps/_workspace/src/gopkg.in/mgo.v2/gridfs.go:562-607 | the file grows by the data; full chunks are stored and at most one chunk waits |
| `GridFs.GridFile.Close` | Godeps/_workspace/src/gopkg.in/mgo.v2/gridfs.go:501-517 | chunk n holds exactly its part of the file, for all and only the chunks the file has |
| `GridFs.GridFile.Seek` | Godeps/_workspace/src/gopkg.in/mgo.v2/gridfs.go:652-690 | moves to the offset from the start, from where it stands or from the end, refuses positions past the end, and leaves the buffer right for reading on |
| `GridFs.GridFile.Read` | Godeps/_workspace/src/gopkg.in/mgo.v2/gridfs.go:699-719 | reads what a flat string of bytes has from the offset, as much as fits, and says end of file exactly when it was there |
| `GridFs.GridFile.GetChunk` | Godeps/_workspace/src/gopkg.in/mgo.v2/gridfs.go:721-755 | gives the stored chunk, from ahead or not, and what is fetched ahead is what is stored |
| `GridFs.OneFile` | Godeps/_workspace/src/gopkg.in/mgo.v2/gridfs.go:721-733 | the chunks determine the file |
| `GridFs.JoinedIs` | Godeps/_workspace/src/gopkg.in/mgo.v2/gridfs.go:562-607 | the first n chunks one after the other are the first n chunk sizes of the file |
| `GridFs.Through` | Godeps/_workspace/src/gopkg.in/mgo.v2/gridfs.go:501-755 | however a file is cut into writes, reading it gives what was written |
| `Bson.DocumentRoundTrip` | Godeps/_workspace/src/gopkg.in/mgo.v2/bson/decode.go:401-422 | decoding an encoded document takes exactly its bytes whatever follows, reports no corruption, and gives the document back if and only if it holds no binary of kind 0 or 2 |
| `Bson.EncodingsDiffer` | Godeps/_workspace/src/gopkg.in/mgo.v2/bson/encode.go:84-125 | documents without such binaries have different encodings |
| `Bson.DocBack` | Godeps/_workspace/src/gopkg.in/mgo.v2/bson/decode.go:401-422 | the same wherever the document stands in the input |
| `Bson.ValueBack` | Godeps/_workspace/src/gopkg.in/mgo.v2/bson/decode.go:436-537 | every value decodes to itself, up to the binary kinds, taking exactly its bytes |
| `Bson.ElemsBack` | Godeps/_workspace/src/gopkg.in/mgo.v2/bson/decode.go:407-421 | the loop over the elements reads back each name and value and ends at the final zero |
| `Bson.ItemsBack` | Godeps/_workspace/src/gopkg.in/mgo.v2/bson/decode.go:334-354 | the loop over the items of an array skips each name and reads back each value |
| `Bson.BinaryBack` | Godeps/_workspace/src/gopkg.in/mgo.v2/bson/decode.go:736-746 | binaries are read back, with the repeated length of kind 2 dropped |
| `Bson.StrBack` | Godeps/_workspace/src/gopkg.in/mgo.v2/bson/decode.go:748-755 | strings are read back with their length and final zero |
| `Bson.CStrBack` | Godeps/_workspace/src/gopkg.in/mgo.v2/bson/decode.go:757-771 | names without zero bytes are read back |
| `Bson.EndBack` | Godeps/_workspace/src/gopkg.in/mgo.v2/bson/decode.go:401-406 | the length patched in leads to the final zero |
| `Bson.NormPlain` | Godeps/_workspace/src/gopkg.in/mgo.v2/bson/decode.go:489-495 | a value comes back as itself if and only if no binary of kind 0 or 2 is inside |
| `BsonWire.WireFormat` | Godeps/_workspace/src/gopkg.in/mgo.v2/bson/encode.go:84-125 | bytes are a document of the wire format, told byte by byte with numbers for the kinds, if and only if they are its encoding |
| `BsonWire.WireRead` | Godeps/_workspace/src/gopkg.in/mgo.v2/bson/decode.go:401-537 | bytes of the wire format decode to their document wherever they stand, and exactly they are taken |
| `BsonWire.ElementWire` | Godeps/_workspace/src/gopkg.in/mgo.v2/bson/encode.go:244-435 | the encoding of an element is of the wire format: kind byte, name, value |
| `BsonWire.ArrayWire` | Godeps/_workspace/src/gopkg.in/mgo.v2/bson/encode.go:200-233 | the encoding of an array is of the wire format, its names decimal numerals whose value is the index |
| `BsonWire.ItoaIsDecimal` | Godeps/_workspace/src/gopkg.in/mgo.v2/bson/encode.go:59-76 | the name made for an index is its decimal numeral without leading zeros |
| `BsonWire.DecimalIsItoa` | Godeps/_workspace/src/gopkg.in/mgo.v2/bson/encode.go:59-76 | and there is only one such numeral |
| `BsonWire.NumbersWritten` | Godeps/_workspace/src/gopkg.in/mgo.v2/bson/encode.go:312-435 | the bytes of each kind of number, with the kind bytes 0x10, 0x12, 0x09 and 0x11 |
| `BsonWire.NumbersRead` | Godeps/_workspace/src/gopkg.in/mgo.v2/bson/decode.go:502-530 | and what eight bytes are read as under each of these kinds |
| `BsonWire.KindsRead` | Godeps/_workspace/src/gopkg.in/mgo.v2/bson/decode.go:468-537 | what each kind byte decodes to |
| `BsonWire.OtherKinds` | Godeps/_workspace/src/gopkg.in/mgo.v2/bson/decode.go:535-536 | other kind bytes are refused, and a truth value is true for one only |
| `BsonWire.NoDocument` | Godeps/_workspace/src/gopkg.in/mgo.v2/bson/decode.go:401-406 | a length below five, one past the end, or no zero in the last place is corruption |
| `BsonCoder.Encoder.AddDoc` | Godeps/_workspace/src/gopkg.in/mgo.v2/bson/encode.go:84-125 | appends the encoding of the document, its length patched over the bytes reserved: the bytes appended are a document of the wire format, the little-endian total first, each element its kind byte, name and value, and a zero at the end |
| `BsonCoder.Encoder.AddArray` | Godeps/_workspace/src/gopkg.in/mgo.v2/bson/encode.go:200-233 | appends the items as a document whose names are the numerals of 0, 1, 2 and so on |
| `BsonCoder.Encoder.AddElem` | Godeps/_workspace/src/gopkg.in/mgo.v2/bson/encode.go:244-435 | appends the kind byte of the value, the name with a zero, and the value, as the wire format has them |
| `BsonCoder.Encoder.AddValue` | Godeps/_workspace/src/gopkg.in/mgo.v2/bson/encode.go:244-435 | appends the value alone, of whatever kind |
| `BsonCoder.Encoder.AddBinary` | Godeps/_workspace/src/gopkg.in/mgo.v2/bson/encode.go:440-451 | appends length, kind and data, the length twice for kind 2 |
| `BsonCoder.Encoder.SetInt32` | Godeps/_workspace/src/gopkg.in/mgo.v2/bson/encode.go:469-474 | sets four bytes in place, the lowest first, and no others |
| `BsonCoder.Encoder.ReserveInt32` | Godeps/_workspace/src/gopkg.in/mgo.v2/bson/encode.go:463-467 | appends four bytes and gives their position |
| `BsonCoder.Encoder.AddInt32` | Godeps/_workspace/src/gopkg.in/mgo.v2/bson/encode.go:476-479 | appends the four bytes of the number |
| `BsonCoder.Encoder.AddInt64` | Godeps/_workspace/src/gopkg.in/mgo.v2/bson/encode.go:481-485 | appends the eight bytes of the number |
| `BsonCoder.Decoder.TakeDoc` | Godeps/_workspace/src/gopkg.in/mgo.v2/bson/decode.go:401-422 | gives the document and moves past it, or reports corruption, as the decoding function says, on every input |
| `BsonCoder.Decoder.TakeItems` | Godeps/_workspace/src/gopkg.in/mgo.v2/bson/decode.go:325-362 | the same for arrays, whose names are skipped |
| `BsonCoder.Decoder.TakeValue` | Godeps/_workspace/src/gopkg.in/mgo.v2/bson/decode.go:436-537 | the same for any value |
| `BsonCoder.Decoder.TakeLeaf` | Godeps/_workspace/src/gopkg.in/mgo.v2/bson/decode.go:468-537 | the same for values that hold no others |
| `BsonCoder.Decoder.TakeCStr` | Godeps/_workspace/src/gopkg.in/mgo.v2/bson/decode.go:757-771 | the same for texts up to a zero |
| `BsonCoder.Decoder.TakeStr` | Godeps/_workspace/src/gopkg.in/mgo.v2/bson/decode.go:748-755 | the same for strings |
| `BsonCoder.Decoder.TakeBinary` | Godeps/_workspace/src/gopkg.in/mgo.v2/bson/decode.go:736-746 | the same for binaries |
| `BsonCoder.Through` | Godeps/_workspace/src/gopkg.in/mgo.v2/bson/decode.go:401-422 | a document through the encoder and the decoder comes back, whole exactly when it holds no binary of kind 0 or 2 |
| `Ring.Queue.Push` | Godeps/_workspace/src/gopkg.in/mgo.v2/queue.go:38-49 | the contents grow by the element at the end; over any run from empty at most six elements are moved a push |
| `Ring.Queue.Pop` | Godeps/_workspace/src/gopkg.in/mgo.v2/queue.go:51-64 | gives and drops the oldest element, or nothing when empty |
| `Ring.Queue.Expand` | Godeps/_workspace/src/gopkg.in/mgo.v2/queue.go:66-91 | the contents stay, the capacity becomes 8, doubles below 1024 and grows by a quarter from there, and every element is moved once |
| `Ring.Queue.Len` | Godeps/_workspace/src/gopkg.in/mgo.v2/queue.go:34-36 | the number of elements |
| `Ring.Pushes` | Godeps/_workspace/src/gopkg.in/mgo.v2/queue.go:44-46 | storing at pushi and stepping it round appends to the contents |
| `Ring.Pops` | Godeps/_workspace/src/gopkg.in/mgo.v2/queue.go:57-60 | taking at popi and stepping it round drops the first of the contents |
| `Ring.GrowsAround` | Godeps/_workspace/src/gopkg.in/mgo.v2/queue.go:81-86 | moving the part from popi on to the end of the larger buffer keeps the contents in order |

## Left out

- Protocol.HealthyInEveryRun: covers runs in which the calls of one task do not overlap, no deletion stops halfway and only acknowledged attempts are cleaned, and a task being deleted is excepted until its deletion ends, because the code breaks the property otherwise; `Protocol.HealthyExact` is the exact statement for all runs.
- Protocol.DeleteKeepsInv: does not cover a deletion that stops between its two operations, which `Protocol.HalfDeletionExact` and `Protocol.HalfDeletionStrands` do.
- Protocol.FixerRepairs: takes the tasks the fixer selects without the age limit of 180 seconds, which only makes it select fewer; `bson.ObjectId.Valid` on a missing current attempt is not modelled, since every stored task has one.
- Base.Models.FixTasks: failing operations and other calls in between are left to `Protocol.FixerRepairs`.
- Base.Models.FixAttempts: the age limit of 180 seconds on finished attempts is left out; which attempts are found is a parameter.
- YamlRoundTrip.RoundTrip: with folding it asks for a positive indentation; the emitter's own callers keep it at 2 or more (emitterc.go:196-208, 282-284, 693), and `YamlRoundTrip.RoundTripExact` covers the rest.
- YamlScanner.Scanner.ScanFlowScalar: single-quoted scalars, line and index marks and the refilling of the buffer are left out; a character that is cut off or malformed, where the source panics, is an error.
- YamlEmitter.Emitter.WriteDoubleQuotedScalar: the fixed output buffer and its flushes are one growing output.
- YamlParser.Parser.Parse: positions of tokens and events are left out; the end of the tokens stands for a failing scanner.
- YamlParser.Parser.ParseDocumentStart: its event carries no version and tag directives.
- YamlLanguage.StreamTaken: speaks of derivations in which an entry of a block mapping without a key does not follow one without a value, since the two are one entry in the tokens; the way from bytes to tokens is modelled for double-quoted scalars only.
- YamlSound.StreamDerived: takes tokens that carry nothing beside what their kind is for, as the scanner makes them.
- YamlSound.ExactLanguage: the same; and tokens with a key indicator for a missing key are left to `YamlLanguage.StreamTaken` and `YamlSound.StreamDerived`, since there the code takes what its grammar has not, as in `YamlSound.BracketSwallowed`.
- YamlScalar.ScanMeans: says what scalars in UTF-8 are read as; bytes that are none of them are covered by `YamlScalar.EscapeRefused` and `YamlScalar.Unclosed` only.
- YamlLoad.Unmarshal: ends with the tree; decoding it into Go values by reflection is left out.
- YamlTree.Builder.ParseNode: the map of anchors, lines and columns is left out.
- Bson.DocumentRoundTrip: JavaScript with a scope is left out because it is read into a map; reflection-driven struct mapping is left out, values are a plain datatype; sizes from 2^31 on are excluded because lengths wrap there.
- BsonCoder.Encoder.AddElem: leaves out the same kinds and the cases of reflection.
- BsonWire.OtherKinds: an unknown kind, on which the source panics with a message of its own, is corruption in the model.
- BsonCoder.Decoder.TakeStr: a negative length is corruption in the model; in the source it is a slice out of range, a run-time panic other than that of corrupted documents (decode.go:813-820).
- BsonCoder.Decoder.TakeBinary: the same for a negative length, as for `Bson.ReadBytes`.
- Txn.AtMostOnce: insertions and removals through the stash are left out, where the code itself documents a race.
- Txn.ExactlyOnceAlone: insertions and removals through the stash are left out.
- Txn.Flusher.Apply: insertions and removals through the stash are left out.
- Txn.NoPanic: the checks that panic on tokens missing from a queue are left out.
- Txn.AgreeInEveryRun: the assertions of a transaction and the contents of the queues are free choices at each step.
- GridFs.GridFile.Write: chunks are stored at once and without failures; the background writes and their limit are left out.
- GridFs.GridFile.Close: errors, the checksum and the files document are left out.
- GridFs.GridFile.Seek: positions before the start are excluded, on which the source panics.
- CronParser.GetRange: the text comes split at commas, slashes and hyphens with numbers read; a step of 0, for which the source loops forever, is excluded.
- CronParser.Parse: takes the fields split at blanks, with the seconds given; descriptors such as @daily are left out.
- CronParser.NextRun: the same as for `CronParser.Parse`.
- Cron.Next: zones other than UTC are left out.
- Retries.RunsExactlyM: floating-point rounding is left out, delays are reals.
- Admission.Base.NextAttempt: errors of the database end the loop and are left out, and no other worker comes between the pick and the enqueue; `Admission.BalancedInEveryRun` speaks of interleaved ones.
- Forced attempts, the HTTP request itself, REST handlers, authentication, the command line, clusters and sockets.
- Scheduler.Drains: that NextAttempt and the worker return is assumed; the goroutines of the cleaner, the fixer and the reservation of a running attempt are left out.
- Pagination, indexes, schema migration and the synchronisation of crontabs.
- YAML in UTF-16, where reader and writer lose characters.
