// A multi-document transaction run by any number of flushers at once: its stored
// record, the copies the flushers hold, and the documents its operations change.

module Txn {
  type DocKey = nat
  type FlusherId = nat
  type Nonce = nat

  datatype TState = Preparing | Prepared | Aborting | Applying | Aborted | Applied

  // What is stored of the transaction, and what a flusher has of it.
  datatype Record = Record(state: TState, nonce: Nonce, revnos: seq<int>)

  datatype Kind = Insert | Update | Remove | Assert

  datatype Op = Op(key: DocKey, kind: Kind)

  // ---------- revision numbers ----------

  // A negative revision number means that the document is missing.
  predicate Effective(op: Op, revno: int) {
    match op.kind
    case Insert => revno < 0
    case Update => revno >= 0
    case Remove => revno >= 0
    case Assert => false
  }

  function Stepped(op: Op, revno: int): int {
    if !Effective(op, revno) then revno
    else match op.kind
      case Insert => -revno + 1
      case Update => revno + 1
      case Remove => -revno - 1
      case Assert => revno
  }

  function Abs(x: int): nat {
    if x < 0 then -x else x
  }

  // Every change moves the revision number further away from zero.
  lemma RevnosGrow(op: Op, revno: int)
    ensures Effective(op, revno) <==> Abs(Stepped(op, revno)) > Abs(revno)
    ensures Abs(Stepped(op, revno)) <= Abs(revno) + 1
  {
  }

  // An insertion that has effect ends with a positive number and a removal with a
  // negative one, one further from zero; the number then says whether the
  // document is there.
  lemma RevnoSigns(op: Op, revno: int)
    ensures var next := Stepped(op, revno);
      && (op.kind == Insert ==> if revno < 0 then next > 0 && next == Abs(revno) + 1 else next == revno)
      && (op.kind == Remove ==> if revno >= 0 then next < 0 && -next == Abs(revno) + 1 else next == revno)
      && (op.kind == Update ==> if revno >= 0 then next == revno + 1 else next == revno)
      && (op.kind == Assert ==> next == revno)
  {
  }

  // The revision numbers after the first n operations ran in order.
  function After(ops: seq<Op>, revno: map<DocKey, int>, n: nat): (r: map<DocKey, int>)
    requires n <= |ops| && forall op :: op in ops ==> op.key in revno
    ensures r.Keys == revno.Keys
  {
    if n == 0 then revno else
    var before := After(ops, revno, n - 1);
    var op := ops[n - 1];
    before[op.key := Stepped(op, before[op.key])]
  }

  lemma AfterOne(ops: seq<Op>, revno: map<DocKey, int>, n: nat)
    requires n < |ops| && forall op :: op in ops ==> op.key in revno
    ensures var before := After(ops, revno, n); var op := ops[n];
      op.key in before && After(ops, revno, n + 1) == before[op.key := Stepped(op, before[op.key])]
      && (!Effective(op, before[op.key]) ==> After(ops, revno, n + 1) == before)
  {
    var before := After(ops, revno, n);
    assert ops[n] in ops;
    assert before[ops[n].key := before[ops[n].key]] == before;
  }

  // revnos has the revision each of the first n operations sees when the
  // operations run in order from the tips.
  ghost predicate Sees(ops: seq<Op>, tips: map<DocKey, int>, revnos: seq<int>, n: nat)
    requires n <= |ops| && forall op :: op in ops ==> op.key in tips
  {
    n <= |revnos| && forall i :: 0 <= i < n ==> revnos[i] == SeenBy(ops, tips, i)
  }

  function SeenBy(ops: seq<Op>, tips: map<DocKey, int>, i: nat): int
    requires i < |ops| && forall op :: op in ops ==> op.key in tips
  {
    assert ops[i] in ops;
    After(ops, tips, i)[ops[i].key]
  }

  method AssembledRevnos(ops: seq<Op>, tips: map<DocKey, int>) returns (revnos: seq<int>)
    requires forall op :: op in ops ==> op.key in tips
    ensures |revnos| == |ops| && Sees(ops, tips, revnos, |ops|)
  {
    hide After, SeenBy, Sees;
    revnos := [];
    var revno := tips;
    SeesNone(ops, tips);
    for i := 0 to |ops|
      invariant |revnos| == i && revno == After(ops, tips, i) && Sees(ops, tips, revnos, i)
    {
      AfterOne(ops, tips, i);
      SeesOne(ops, tips, revnos, i);
      var op := ops[i];
      var drevno := revno[op.key];
      revnos := revnos + [drevno];
      if op.kind == Insert && drevno < 0 {
        revno := revno[op.key := -drevno + 1];
      } else if op.kind == Update && drevno >= 0 {
        revno := revno[op.key := drevno + 1];
      } else if op.kind == Remove && drevno >= 0 {
        revno := revno[op.key := -drevno - 1];
      }
    }
  }

  lemma SeesNone(ops: seq<Op>, tips: map<DocKey, int>)
    requires forall op :: op in ops ==> op.key in tips
    ensures After(ops, tips, 0) == tips && Sees(ops, tips, [], 0)
  {
  }

  lemma SeesOne(ops: seq<Op>, tips: map<DocKey, int>, revnos: seq<int>, i: nat)
    requires forall op :: op in ops ==> op.key in tips
    requires i < |ops| && |revnos| == i && Sees(ops, tips, revnos, i)
    ensures ops[i] in ops && Sees(ops, tips, revnos + [After(ops, tips, i)[ops[i].key]], i + 1)
  {
    hide After;
  }

  // ---------- the flushers ----------

  // Where a flusher stands between two database operations.
  datatype Pc =
    | AtAdvance
    | AtSaveNonce(nonce: Nonce)
    | AtReloadPrepare
    | AtReloadRescan
    | AtDecide(tips: seq<int>)
    | AtSetAborting
    | AtReloadAbort
    | AtSetAborted
    | AtSetApplying(tips: seq<int>)
    | AtReloadApplying
    | AtOp(i: nat)
    | AtMarkApplied
    | AtReturn

  datatype Local = Local(record: Record, pc: Pc)

  datatype Doc = Doc(revno: int, queue: set<Nonce>)

  // log has the operations that took effect, in order.
  datatype System = System(ops: seq<Op>, stored: Record, locals: map<FlusherId, Local>, docs: map<DocKey, Doc>, log: seq<nat>)

  // What decides a step from outside: a fresh nonce, the revision numbers found
  // in the documents, and which way the queues and the assertions send it.
  datatype Choice = Choice(nonce: Nonce, tips: seq<int>, way: Way)

  datatype Way = Goes | Reloads | Fails | Gives

  datatype Step =
    | Load(f: FlusherId)
    | Run(f: FlusherId, choice: Choice)
    | Crash(f: FlusherId)
    | Other(k: DocKey, doc: Doc)

  function Put(s: System, f: FlusherId, record: Record, pc: Pc): System {
    s.(locals := s.locals[f := Local(record, pc)])
  }

  // After the queues were looked at with the transaction prepared: the revision
  // numbers are known, or they have to be read again, or there are prerequisites.
  function Queued(choice: Choice): Pc {
    match choice.way
    case Goes => AtDecide(choice.tips)
    case Reloads => AtAdvance
    case Fails => AtReturn
    case Gives => AtReturn
  }

  // The guard of an update: the revision recorded for it, and the token.
  predicate Matches(s: System, i: nat, record: Record) {
    && i < |s.ops| && i < |record.revnos| && s.ops[i].kind == Update && record.revnos[i] >= 0
    && s.ops[i].key in s.docs && s.docs[s.ops[i].key].revno == record.revnos[i]
    && record.nonce in s.docs[s.ops[i].key].queue
  }

  // One operation of apply. Insertions and removals through the stash are not
  // part of this model.
  function ApplyOp(s: System, i: nat, record: Record): System {
    if Matches(s, i, record) then
      var k := s.ops[i].key;
      s.(docs := s.docs[k := s.docs[k].(revno := record.revnos[i] + 1)], log := s.log + [i])
    else s
  }

  function RunStep(s: System, f: FlusherId, choice: Choice): System
    requires f in s.locals
  {
    var t := s.locals[f].record;
    match s.locals[f].pc
    case AtAdvance =>
      (match t.state
       case Preparing => Put(s, f, t, AtSaveNonce(choice.nonce))
       case Prepared => Put(s, f, t, if choice.way == Gives then AtReloadRescan else Queued(choice))
       case Applying => Put(s, f, t, AtOp(0))
       case Aborting => Put(s, f, t, AtSetAborted)
       case Applied => Put(s, f, t, AtReturn)
       case Aborted => Put(s, f, t, AtReturn))
    case AtSaveNonce(n) =>
      if s.stored.state == Preparing then
        Put(s.(stored := s.stored.(state := Prepared, nonce := n)), f, t.(state := Prepared, nonce := n), Queued(choice))
      else Put(s, f, t, AtReloadPrepare)
    case AtReloadPrepare => Put(s, f, s.stored, if s.stored.state != Prepared then AtAdvance else Queued(choice))
    case AtReloadRescan => Put(s, f, s.stored, AtAdvance)
    case AtDecide(tips) => Put(s, f, t, if choice.way == Goes then AtSetApplying(tips) else AtSetAborting)
    case AtSetAborting =>
      if s.stored.state == Prepared then
        Put(s.(stored := s.stored.(state := Aborting)), f, t.(state := Aborting), AtSetAborted)
      else Put(s, f, t, AtReloadAbort)
    case AtReloadAbort => Put(s, f, s.stored, if s.stored.state == Aborting then AtSetAborted else AtAdvance)
    case AtSetAborted =>
      // Not guarded by the state that is stored.
      Put(s.(stored := s.stored.(state := Aborted)), f, t.(state := Aborted), AtReturn)
    case AtSetApplying(tips) =>
      if s.stored.state == Prepared then
        Put(s.(stored := s.stored.(state := Applying, revnos := tips)), f, t.(state := Applying, revnos := tips), AtAdvance)
      else Put(s, f, t, AtReloadApplying)
    case AtReloadApplying => Put(s, f, s.stored, AtAdvance)
    case AtOp(i) =>
      if i < |s.ops| then Put(ApplyOp(s, i, t), f, t, AtOp(i + 1)) else Put(s, f, t.(state := Applied), AtMarkApplied)
    case AtMarkApplied =>
      Put(if s.stored.state == Applying then s.(stored := s.stored.(state := Applied)) else s, f, t, AtReturn)
    case AtReturn => s
  }

  predicate Enabled(s: System, e: Step) {
    match e
    case Load(f) => f !in s.locals
    case Run(f, choice) => f in s.locals && |choice.tips| == |s.ops|
    case Crash(f) => f in s.locals
    // Another transaction changes a document or its queue.
    case Other(k, doc) => k in s.docs && (doc.revno == s.docs[k].revno || Abs(doc.revno) > Abs(s.docs[k].revno))
  }

  function Take(s: System, e: Step): System
    requires Enabled(s, e)
  {
    match e
    case Load(f) => Put(s, f, s.stored, AtAdvance)
    case Run(f, choice) => RunStep(s, f, choice)
    case Crash(f) => s.(locals := s.locals - {f})
    case Other(k, doc) => s.(docs := s.docs[k := doc])
  }

  predicate Init(s: System) {
    s.stored == Record(Preparing, 0, []) && s.locals == map[] && s.log == []
  }

  ghost predicate IsRun(states: seq<System>, steps: seq<Step>) {
    && |states| == |steps| + 1 && Init(states[0])
    && forall i :: 0 <= i < |steps| ==> Enabled(states[i], steps[i]) && states[i + 1] == Take(states[i], steps[i])
  }

  // ---------- what every flusher knows ----------

  predicate Aborts(t: TState) {
    t == Aborting || t == Aborted
  }

  predicate Applies(t: TState) {
    t == Applying || t == Applied
  }

  // A copy is never ahead of what is stored, and agrees with it in what it has.
  predicate Behind(local: Record, stored: Record) {
    match local.state
    case Preparing => true
    case Prepared => stored.state != Preparing && local.nonce == stored.nonce
    case Aborting => Aborts(stored.state)
    case Aborted => Aborts(stored.state)
    case Applying => Applies(stored.state) && local.nonce == stored.nonce && local.revnos == stored.revnos
    case Applied => Applies(stored.state) && local.nonce == stored.nonce && local.revnos == stored.revnos
  }

  // What a flusher can rely on where it stands.
  predicate Stands(l: Local, stored: Record) {
    match l.pc
    case AtAdvance => true
    case AtSaveNonce(_) => l.record.state == Preparing
    case AtReloadPrepare => stored.state != Preparing
    case AtReloadRescan => l.record.state == Prepared
    case AtDecide(_) => l.record.state == Prepared
    case AtSetAborting => l.record.state == Prepared
    case AtReloadAbort => stored.state != Preparing && stored.state != Prepared
    case AtSetAborted => l.record.state == Aborting
    case AtSetApplying(_) => l.record.state == Prepared
    case AtReloadApplying => stored.state != Preparing && stored.state != Prepared
    case AtOp(_) => l.record.state == Applying
    case AtMarkApplied => l.record.state == Applied
    case AtReturn => true
  }

  predicate Agree(s: System) {
    forall f :: f in s.locals ==> Behind(s.locals[f].record, s.stored) && Stands(s.locals[f], s.stored)
  }

  // Where the stored state can go in one step.
  predicate Edge(from: TState, to: TState) {
    || from == to || (from == Preparing && to == Prepared)
    || (from == Prepared && (to == Aborting || to == Applying))
    || (from == Aborting && to == Aborted) || (from == Applying && to == Applied)
  }

  // The stored record moves along an edge, and what is written stays.
  predicate Moves(r: Record, r': Record) {
    && Edge(r.state, r'.state)
    && (r.state != Preparing ==> r'.nonce == r.nonce)
    && (Applies(r.state) || Aborts(r.state) ==> r'.revnos == r.revnos)
  }

  lemma StepMoves(s: System, e: Step)
    requires Agree(s) && Enabled(s, e)
    ensures Moves(s.stored, Take(s, e).stored)
  {
    if e.Run? {
      assert Behind(s.locals[e.f].record, s.stored) && Stands(s.locals[e.f], s.stored);
    }
  }

  lemma BehindMoves(local: Record, r: Record, r': Record)
    requires Behind(local, r) && Moves(r, r')
    ensures Behind(local, r')
  {
  }

  lemma StandsMoves(l: Local, r: Record, r': Record)
    requires Stands(l, r) && Moves(r, r')
    ensures Stands(l, r')
  {
  }

  // The flusher that steps agrees with the record it leaves behind.
  lemma StepperAgrees(s: System, f: FlusherId, choice: Choice)
    requires Agree(s) && f in s.locals
    ensures var u := RunStep(s, f, choice); Behind(u.locals[f].record, u.stored) && Stands(u.locals[f], u.stored)
    ensures var u := RunStep(s, f, choice); forall g :: g in u.locals && g != f ==> g in s.locals && u.locals[g] == s.locals[g]
  {
    assert Behind(s.locals[f].record, s.stored) && Stands(s.locals[f], s.stored);
  }

  lemma AgreeKept(s: System, e: Step)
    requires Agree(s) && Enabled(s, e)
    ensures Agree(Take(s, e))
  {
    StepMoves(s, e);
    var u := Take(s, e);
    if e.Run? { StepperAgrees(s, e.f, e.choice); }
    forall g | g in u.locals ensures Behind(u.locals[g].record, u.stored) && Stands(u.locals[g], u.stored) {
      if g in s.locals && u.locals[g] == s.locals[g] {
        BehindMoves(s.locals[g].record, s.stored, u.stored);
        StandsMoves(s.locals[g], s.stored, u.stored);
      }
    }
  }

  lemma {:induction false} AgreeInEveryRun(states: seq<System>, steps: seq<Step>, i: nat)
    requires IsRun(states, steps) && i < |states|
    ensures Agree(states[i])
  {
    hide Agree;
    if i == 0 {
      NobodyYet(states[0]);
    } else {
      AgreeInEveryRun(states, steps, i - 1);
      assert Enabled(states[i - 1], steps[i - 1]);
      AgreeKept(states[i - 1], steps[i - 1]);
    }
  }

  lemma NobodyYet(s: System)
    requires Init(s)
    ensures Agree(s)
  {
  }

  // ---------- one branch for all ----------

  // A record later in the same run: the branch once taken is kept, and the nonce
  // and the revision numbers once written.
  predicate Follows(r: Record, r': Record) {
    && (r.state != Preparing ==> r'.state != Preparing && r'.nonce == r.nonce)
    && (Aborts(r.state) ==> Aborts(r'.state))
    && (Applies(r.state) ==> Applies(r'.state) && r'.revnos == r.revnos)
    && (r.state == Aborted || r.state == Applied ==> r'.state == r.state)
  }

  lemma {:induction false} RecordFollows(states: seq<System>, steps: seq<Step>, i: nat, j: nat)
    requires IsRun(states, steps) && i <= j < |states|
    ensures Follows(states[i].stored, states[j].stored)
    decreases j
  {
    hide Agree;
    if i < j {
      RecordFollows(states, steps, i, j - 1);
      AgreeInEveryRun(states, steps, j - 1);
      assert Enabled(states[j - 1], steps[j - 1]);
      StepMoves(states[j - 1], steps[j - 1]);
    }
  }

  // Whatever two flushers come to, at whatever times, they do not come to
  // different ends.
  lemma OutcomesAgree(states: seq<System>, steps: seq<Step>, i: nat, j: nat, f: FlusherId, g: FlusherId)
    requires IsRun(states, steps) && i < |states| && j < |states|
    requires f in states[i].locals && g in states[j].locals
    ensures !(Aborts(states[i].locals[f].record.state) && Applies(states[j].locals[g].record.state))
    ensures var a, b := states[i].locals[f].record, states[j].locals[g].record;
      Applies(a.state) && Applies(b.state) ==> a.nonce == b.nonce && a.revnos == b.revnos
  {
    hide Agree, IsRun;
    AgreeInEveryRun(states, steps, i);
    AgreeInEveryRun(states, steps, j);
    AgreeMeans(states[i], f);
    AgreeMeans(states[j], g);
    if i <= j { RecordFollows(states, steps, i, j); } else { RecordFollows(states, steps, j, i); }
  }

  // The checks that panic: a nonce that cannot be saved though the transaction
  // is still preparing, and work begun in the wrong state.
  predicate Panics(l: Local, stored: Record) {
    match l.pc
    case AtReloadPrepare => stored.state == Preparing
    case AtReloadRescan => l.record.state != Prepared
    case AtDecide(_) => l.record.state != Prepared
    case AtSetAborting => l.record.state != Prepared
    case AtSetAborted => l.record.state != Aborting
    case AtOp(_) => l.record.state != Applying
    case _ => false
  }

  // No flusher panics, and none that saw its assertions fail goes on to apply
  // the transaction unless another flusher has begun to.
  lemma NoPanic(states: seq<System>, steps: seq<Step>, i: nat, f: FlusherId)
    requires IsRun(states, steps) && i < |states| && f in states[i].locals
    ensures var l := states[i].locals[f]; !Panics(l, states[i].stored) && (l.pc == AtReloadAbort ==> states[i].stored.state != Prepared)
  {
    AgreeInEveryRun(states, steps, i);
    assert Stands(states[i].locals[f], states[i].stored);
  }

  // ---------- every update at most once ----------

  // The updates that took effect, each once, have moved their document past the
  // revision recorded for them.
  predicate Counted(s: System) {
    && (forall x :: x in s.log ==> Passed(s, x))
    && (forall x, y :: 0 <= x < y < |s.log| ==> s.log[x] != s.log[y])
  }

  predicate Passed(s: System, x: nat) {
    && Applies(s.stored.state) && x < |s.ops| && x < |s.stored.revnos|
    && s.ops[x].key in s.docs && Abs(s.docs[s.ops[x].key].revno) > Abs(s.stored.revnos[x])
  }

  // An update takes effect exactly if the document has the revision recorded for
  // it, which is not negative, and the token of the transaction; then its revision
  // is one more, and nothing else changes.
  lemma ApplyOpExact(s: System, i: nat, record: Record)
    requires i < |s.ops| && |record.revnos| == |s.ops|
    ensures var k, u := s.ops[i].key, ApplyOp(s, i, record);
      && u.ops == s.ops && u.stored == s.stored && u.locals == s.locals
      && if s.ops[i].kind == Update && k in s.docs && s.docs[k].revno == record.revnos[i] >= 0 && record.nonce in s.docs[k].queue
         then u.docs == s.docs[k := Doc(record.revnos[i] + 1, s.docs[k].queue)] && u.log == s.log + [i]
         else u.docs == s.docs && u.log == s.log
  {
  }

  lemma ApplyOpCounted(s: System, i: nat, record: Record)
    requires Counted(s) && Behind(record, s.stored) && record.state == Applying
    ensures Counted(ApplyOp(s, i, record))
  {
    var u := ApplyOp(s, i, record);
    if Matches(s, i, record) {
      assert !Passed(s, i);
      forall x | x in u.log ensures Passed(u, x) {
        if x != i { assert Passed(s, x); }
      }
    }
  }

  lemma SameCounted(s: System, u: System)
    requires Counted(s) && u.ops == s.ops && u.log == s.log && Moves(s.stored, u.stored)
    requires forall k :: k in s.docs ==> k in u.docs && Abs(u.docs[k].revno) >= Abs(s.docs[k].revno)
    ensures Counted(u)
  {
    forall x | x in u.log ensures Passed(u, x) {
      assert Passed(s, x);
    }
  }

  lemma CountedKept(s: System, e: Step)
    requires Agree(s) && Counted(s) && Enabled(s, e)
    ensures Counted(Take(s, e))
  {
    hide Agree, Counted;
    StepMoves(s, e);
    if e.Run? && s.locals[e.f].pc.AtOp? && s.locals[e.f].pc.i < |s.ops| {
      var l := s.locals[e.f];
      AgreeMeans(s, e.f);
      ApplyOpCounted(s, l.pc.i, l.record);
      SameCounted(ApplyOp(s, l.pc.i, l.record), Take(s, e));
    } else {
      SameCounted(s, Take(s, e));
    }
  }

  lemma AgreeMeans(s: System, f: FlusherId)
    requires Agree(s) && f in s.locals
    ensures Behind(s.locals[f].record, s.stored) && Stands(s.locals[f], s.stored)
  {
  }

  // However many flushers apply the transaction, however often.
  lemma {:induction false} AtMostOnce(states: seq<System>, steps: seq<Step>, i: nat)
    requires IsRun(states, steps) && i < |states|
    ensures Counted(states[i])
  {
    hide Agree, Counted;
    if i == 0 {
      NothingYet(states[0]);
    } else {
      AtMostOnce(states, steps, i - 1);
      AgreeInEveryRun(states, steps, i - 1);
      assert Enabled(states[i - 1], steps[i - 1]);
      CountedKept(states[i - 1], steps[i - 1]);
    }
  }

  lemma NothingYet(s: System)
    requires Init(s)
    ensures Counted(s)
  {
  }

  // ---------- a flusher alone ----------

  function ApplyFrom(s: System, record: Record, i: nat): System
    requires i <= |s.ops|
    decreases |s.ops| - i
  {
    if i == |s.ops| then s else ApplyFrom(ApplyOp(s, i, record), record, i + 1)
  }

  // The operations among the first n that are to take effect.
  function Due(ops: seq<Op>, revnos: seq<int>, n: nat): seq<nat>
    requires n <= |ops| && n <= |revnos|
  {
    if n == 0 then [] else
    Due(ops, revnos, n - 1) + if Effective(ops[n - 1], revnos[n - 1]) then [n - 1] else []
  }

  function Tips(docs: map<DocKey, Doc>): map<DocKey, int> {
    map k | k in docs :: docs[k].revno
  }

  // Ready for the operations from i on: the documents stand where the operations
  // before i leave them, and have the token.
  ghost predicate ReadyAt(s: System, record: Record, tips: map<DocKey, int>, i: nat)
    requires i <= |s.ops|
  {
    && (forall op :: op in s.ops ==> op.key in tips && (op.kind == Update || op.kind == Assert))
    && Tips(s.docs) == After(s.ops, tips, i)
    && |record.revnos| == |s.ops| && Sees(s.ops, tips, record.revnos, |s.ops|)
    && (forall k :: k in s.docs ==> record.nonce in s.docs[k].queue)
  }

  lemma OneAlone(s: System, record: Record, tips: map<DocKey, int>, i: nat)
    requires i < |s.ops| && ReadyAt(s, record, tips, i)
    ensures var u := ApplyOp(s, i, record);
      && u.ops == s.ops && ReadyAt(u, record, tips, i + 1)
      && u.log == s.log + (if Effective(s.ops[i], record.revnos[i]) then [i] else [])
  {
    var op := s.ops[i];
    assert op in s.ops;
    AfterOne(s.ops, tips, i);
    assert record.revnos[i] == SeenBy(s.ops, tips, i);
    assert op.key in Tips(s.docs);
    var u := ApplyOp(s, i, record);
    assert Tips(u.docs) == After(s.ops, tips, i + 1);
  }

  // With the revision numbers assembled from the documents and no one else at
  // work, every operation that is to take effect does, once and in order, and
  // the documents end at the revisions predicted.
  lemma {:induction false} ExactlyOnceAlone(s: System, record: Record, tips: map<DocKey, int>, i: nat)
    requires i <= |s.ops| && ReadyAt(s, record, tips, i) && s.log == Due(s.ops, record.revnos, i)
    ensures var u := ApplyFrom(s, record, i);
      u.ops == s.ops && u.log == Due(s.ops, record.revnos, |s.ops|) && Tips(u.docs) == After(s.ops, tips, |s.ops|)
    decreases |s.ops| - i
  {
    if i < |s.ops| {
      OneAlone(s, record, tips, i);
      assert Due(s.ops, record.revnos, i + 1) == s.log + if Effective(s.ops[i], record.revnos[i]) then [i] else [];
      hide ReadyAt, Due, After, ApplyOp;
      ExactlyOnceAlone(ApplyOp(s, i, record), record, tips, i + 1);
    }
  }

  // What the database operations at pc do, with nobody in between: to the stored
  // record and to the copy.
  predicate Does(before: Record, copy: Record, pc: Pc, after: Record, copy': Record) {
    match pc
    case AtSaveNonce(nonce) =>
      if before.state == Preparing then after == Record(Prepared, nonce, before.revnos) && copy' == copy.(state := Prepared, nonce := nonce)
      else after == before && copy' == before
    case AtSetApplying(revnos) =>
      if before.state == Prepared then after == Record(Applying, before.nonce, revnos) && copy' == copy.(state := Applying, revnos := revnos)
      else after == before && copy' == before
    case AtSetAborting =>
      if before.state == Prepared || before.state == Aborting then after == before.(state := Aborted) && copy'.state == Aborted
      else after == before && copy' == before
    case _ => true
  }

  // The flusher f takes n steps with no other in between.
  function Steps(s: System, f: FlusherId, choice: Choice, n: nat): (u: System)
    requires f in s.locals
    ensures f in u.locals
    decreases n
  {
    if n == 0 then s else Steps(RunStep(s, f, choice), f, choice, n - 1)
  }

  // How many steps an update with its reload takes.
  function Length(pc: Pc, stored: Record): nat {
    match pc
    case AtSaveNonce(_) => if stored.state == Preparing then 1 else 2
    case AtSetApplying(_) => if stored.state == Prepared then 1 else 2
    case AtSetAborting => if stored.state == Prepared then 2 else if stored.state == Aborting then 3 else 2
    case _ => 0
  }

  // The steps of the system do what the methods of a flusher on its own do.
  lemma StepsDo(s: System, f: FlusherId, choice: Choice)
    requires Agree(s) && f in s.locals
    requires s.locals[f].pc.AtSaveNonce? || s.locals[f].pc.AtSetApplying? || s.locals[f].pc.AtSetAborting?
    ensures var l := s.locals[f]; var u := Steps(s, f, choice, Length(l.pc, s.stored));
      && Does(s.stored, l.record, l.pc, u.stored, u.locals[f].record) && u.docs == s.docs && u.log == s.log
      && (u.locals[f].pc == AtAdvance || u.locals[f].pc == AtReturn || u.locals[f].pc == Queued(choice))
  {
    AgreeMeans(s, f);
    var u1 := RunStep(s, f, choice);
    var u2 := RunStep(u1, f, choice);
    var u3 := RunStep(u2, f, choice);
    hide RunStep;
    StepsOn(s, f, choice);
    StepsOn(u1, f, choice);
    StepsOn(u2, f, choice);
    StepsDone(u1, f, choice);
    StepsDone(u2, f, choice);
    StepsDone(u3, f, choice);
    UpdateSteps(s, f, choice, u1, u2, u3);
  }

  lemma StepsOn(s: System, f: FlusherId, choice: Choice)
    requires f in s.locals
    ensures f in RunStep(s, f, choice).locals
    ensures forall n: nat :: n > 0 ==> Steps(s, f, choice, n) == Steps(RunStep(s, f, choice), f, choice, n - 1)
  {
  }

  lemma StepsDone(s: System, f: FlusherId, choice: Choice)
    requires f in s.locals
    ensures Steps(s, f, choice, 0) == s
  {
  }

  lemma UpdateSteps(s: System, f: FlusherId, choice: Choice, u1: System, u2: System, u3: System)
    requires f in s.locals && Behind(s.locals[f].record, s.stored) && Stands(s.locals[f], s.stored)
    requires u1 == RunStep(s, f, choice) && f in u1.locals && u2 == RunStep(u1, f, choice) && f in u2.locals && u3 == RunStep(u2, f, choice)
    requires s.locals[f].pc.AtSaveNonce? || s.locals[f].pc.AtSetApplying? || s.locals[f].pc.AtSetAborting?
    ensures var l, n := s.locals[f], Length(s.locals[f].pc, s.stored);
      var u := if n == 1 then u1 else if n == 2 then u2 else u3;
      && 1 <= n <= 3 && f in u.locals && Does(s.stored, l.record, l.pc, u.stored, u.locals[f].record) && u.docs == s.docs && u.log == s.log
      && (u.locals[f].pc == AtAdvance || u.locals[f].pc == AtReturn || u.locals[f].pc == Queued(choice))
  {
  }

  // And so for the operations: from the i-th on, then the mark.
  lemma {:induction false} StepsApply(s: System, f: FlusherId, choice: Choice, i: nat)
    requires f in s.locals && s.locals[f].pc == AtOp(i) && i <= |s.ops| && s.stored.state == Applying
    ensures var l := s.locals[f]; var u, v := Steps(s, f, choice, |s.ops| - i + 2), ApplyFrom(s, l.record, i);
      && u.docs == v.docs && u.log == v.log && u.stored == s.stored.(state := Applied)
      && u.locals[f] == Local(l.record.(state := Applied), AtReturn)
    decreases |s.ops| - i
  {
    var record, n := s.locals[f].record, |s.ops| - i + 2;
    var u := RunStep(s, f, choice);
    StepsOn(s, f, choice);
    if i == |s.ops| {
      StepsOn(u, f, choice);
      StepsDone(RunStep(u, f, choice), f, choice);
    } else {
      var w := ApplyOp(s, i, record);
      assert u == Put(w, f, record, AtOp(i + 1)) && w.ops == s.ops && w.stored == s.stored;
      hide RunStep, ApplyOp;
      StepsApply(u, f, choice, i + 1);
      SameApplied(u, w, record, i + 1);
    }
  }

  // Applying looks only at the operations and the documents.
  lemma {:induction false} SameApplied(s: System, u: System, record: Record, i: nat)
    requires s.ops == u.ops && s.docs == u.docs && s.log == u.log && i <= |s.ops|
    ensures ApplyFrom(s, record, i).docs == ApplyFrom(u, record, i).docs && ApplyFrom(s, record, i).log == ApplyFrom(u, record, i).log
    decreases |s.ops| - i
  {
    if i < |s.ops| {
      SameApplied(ApplyOp(s, i, record), ApplyOp(u, i, record), record, i + 1);
    }
  }

  // One flusher, with its copy of the transaction, the stored record and the
  // documents.
  class Flusher {
    const ops: seq<Op>
    var stored: Record
    var t: Record
    var docs: map<DocKey, Doc>
    ghost var log: seq<nat>

    constructor (ops: seq<Op>, stored: Record, docs: map<DocKey, Doc>)
      ensures this.ops == ops && this.stored == stored && t == stored && this.docs == docs && log == []
    {
      this.ops, this.stored, t, this.docs, log := ops, stored, stored, docs, [];
    }

    ghost predicate Valid()
      reads this
    {
      Behind(t, stored) && (Applies(stored.state) ==> |stored.revnos| == |ops|)
    }

    method Reload()
      modifies this`t
      ensures t == stored
    {
      t := stored;
    }

    method SaveNonce(nonce: Nonce)
      requires Valid() && t.state == Preparing
      modifies this`t, this`stored
      ensures Valid() && Does(old(stored), old(t), AtSaveNonce(nonce), stored, t) && t.state != Preparing
      ensures stored == if old(stored).state == Preparing then Record(Prepared, nonce, old(stored).revnos) else old(stored)
    {
      if stored.state == Preparing {
        stored := stored.(state := Prepared, nonce := nonce);
        t := t.(state := Prepared, nonce := nonce);
      } else {
        Reload();
      }
    }

    method Checkpoint(revnos: seq<int>)
      requires Valid() && t.state == Prepared && |revnos| == |ops|
      modifies this`t, this`stored
      ensures Valid() && Does(old(stored), old(t), AtSetApplying(revnos), stored, t) && t.state != Preparing && t.state != Prepared
      ensures stored == if old(stored).state == Prepared then Record(Applying, old(stored).nonce, revnos) else old(stored)
    {
      if stored.state == Prepared {
        stored := stored.(state := Applying, revnos := revnos);
        t := t.(state := Applying, revnos := revnos);
      } else {
        Reload();
      }
    }

    method AbortOrReload()
      requires Valid() && (t.state == Prepared || t.state == Aborting)
      modifies this`t, this`stored
      ensures Valid() && t.state != Preparing && t.state != Prepared && t.state != Aborting
      ensures old(t.state) == Prepared ==> Does(old(stored), old(t), AtSetAborting, stored, t)
      ensures old(t.state) == Aborting ==> stored == old(stored).(state := Aborted) && t.state == Aborted
      ensures old(t.state) == Prepared && old(stored).state != Prepared && old(stored).state != Aborting ==> stored == old(stored)
      ensures old(stored).state == Prepared || old(stored).state == Aborting ==> stored == old(stored).(state := Aborted)
    {
      if t.state == Prepared {
        if stored.state == Prepared {
          stored := stored.(state := Aborting);
          t := t.(state := Aborting);
        } else {
          Reload();
          if t.state != Aborting {
            return;
          }
        }
      }
      stored := stored.(state := Aborted);
      t := t.(state := Aborted);
    }

    method Apply()
      requires Valid() && t.state == Applying
      modifies this`t, this`stored, this`docs, this`log
      ensures Valid() && t == old(t).(state := Applied) && stored == old(stored).(state := Applied)
      ensures var u := ApplyFrom(System(ops, old(t), map[], old(docs), old(log)), old(t), 0); docs == u.docs && log == u.log
    {
      ghost var record, d, l := t, docs, log;
      for i := 0 to |ops|
        invariant t == record && stored == old(stored)
        invariant ApplyFrom(System(ops, record, map[], docs, log), record, i) == ApplyFrom(System(ops, record, map[], d, l), record, 0)
      {
        var op, revno := ops[i], t.revnos[i];
        ghost var before := System(ops, record, map[], docs, log);
        if op.kind == Update && revno >= 0 {
          if op.key in docs && docs[op.key].revno == revno && t.nonce in docs[op.key].queue {
            docs := docs[op.key := docs[op.key].(revno := revno + 1)];
            log := log + [i];
          }
        }
        assert System(ops, record, map[], docs, log) == ApplyOp(before, i, record);
      }
      t := t.(state := Applied);
      if stored.state == Applying {
        stored := stored.(state := Applied);
      }
    }

    // The loop on the state: left alone a flusher brings the transaction to its
    // end, whatever is stored and however old its copy is. Only a copy that is
    // done already leaves the record as it is.
    method Advance(nonce: Nonce, revnos: seq<int>, holds: bool)
      requires Valid() && |revnos| == |ops|
      modifies this
      ensures Valid() && Follows(old(stored), stored) && (t.state == Applied || t.state == Aborted)
      ensures t.state == Applied <==> Applies(old(stored.state)) || (!Aborts(old(stored.state)) && holds)
      ensures if old(t.state) == Applied || old(t.state) == Aborted then stored == old(stored) else stored.state == t.state
    {
      ghost var first := stored;
      while true
        invariant Valid() && Follows(first, stored)
        invariant if old(t.state) == Applied || old(t.state) == Aborted then stored == first && t == old(t)
                  else t.state == Applied || t.state == Aborted ==> stored.state == t.state
        invariant Applies(stored.state) ==> Applies(first.state) || (!Aborts(first.state) && holds)
        invariant Aborts(stored.state) ==> Aborts(first.state) || (!Applies(first.state) && !holds)
        decreases match t.state case Preparing => 3 case Prepared => 2 case Aborting => 1 case Applying => 1 case _ => 0
      {
        if t.state == Preparing {
          SaveNonce(nonce);
        } else if t.state == Prepared {
          if holds {
            Checkpoint(revnos);
          } else {
            AbortOrReload();
          }
        } else if t.state == Applying {
          Apply();
          return;
        } else if t.state == Aborting {
          AbortOrReload();
          return;
        } else {
          // A copy that is done, though the mark may be missing.
          break;
        }
      }
    }
  }
}
