/** What the version fence guarantees however often things are delivered, and which deliveries do no harm. */
module RedeliveryTheorems {
  import opened SequenceMaps
  import opened ProcessModel
  import opened Transactions
  import opened Invariants
  import opened StepLemmas
  import opened Evolution
  import opened Sessions
  import opened SessionLemmas
  import opened RunTheorems
  import opened Redeliveries

  // ---------- whole runs of deliveries ----------

  lemma {:induction false} AlwaysHeld(helds: seq<Held>, ds: seq<Delivery>, n: nat)
    requires IsDeliveryRun(helds, ds) && n <= |ds|
    ensures HeldInv(helds[n])
  {
    hide HeldInv, AfterDelivery, MayDeliver;
    if n == 0 {
      StartIsHeld(helds[0]);
    } else {
      AlwaysHeld(helds, ds, n - 1);
      DeliveryKeeps(helds[n - 1], ds[n - 1]);
    }
  }

  lemma StartIsHeld(h: Held)
    requires exists next, start, timeout :: h.s == Start(next, start, timeout)
    requires h.tasks == h.s.e.immediate
    ensures HeldInv(h)
  {
    var next, start, timeout :| h.s == Start(next, start, timeout);
    StartExecutionHolds(next, start, timeout);
    hide StartExecution;
    assert Shape(h.s.e);
  }

  /** Over any stretch: rows change with their versions, reads stay, and a task's key keeps its meaning. */
  ghost predicate HeldEvolves(h: Held, h': Held) {
    && Evolves(h.s.e, h'.s.e)
    && h.s.preps <= h'.s.preps
    && (forall t :: t in h.tasks ==> t in h'.tasks && h'.tasks[t] == h.tasks[t])
  }

  lemma DeliveryHeldEvolves(h: Held, d: Delivery)
    requires MayDeliver(h, d) && HeldInv(h)
    ensures HeldEvolves(h, AfterDelivery(h, d))
  {
    DeliveryEvolves(h, d);
    ReadsStay(h, d);
    hide SessionAfter, MayDeliver, SequencesExact;
  }

  lemma ReadsStay(h: Held, d: Delivery)
    requires MayDeliver(h, d)
    ensures h.s.preps <= SessionAfter(h, d).preps
  {
    hide Effect, Enabled, WaitUntilTx, QueueTx, CommandTimerTx, TimeoutTx, ConvertTx;
  }

  lemma HeldEvolvesTwice(h: Held, h1: Held, h2: Held)
    requires HeldEvolves(h, h1) && HeldEvolves(h1, h2)
    ensures HeldEvolves(h, h2)
  {
    EvolvesTwice(h.s.e, h1.s.e, h2.s.e);
    hide Evolves;
  }

  lemma {:induction false} HeldAlong(helds: seq<Held>, ds: seq<Delivery>, i: nat, j: nat)
    requires IsDeliveryRun(helds, ds) && i <= j <= |ds|
    ensures HeldEvolves(helds[i], helds[j])
    decreases j
  {
    hide HeldInv, AfterDelivery, MayDeliver;
    if i < j {
      HeldAlong(helds, ds, i, j - 1);
      AlwaysHeld(helds, ds, j - 1);
      DeliveryHeldEvolves(helds[j - 1], ds[j - 1]);
      hide HeldEvolves;
      HeldEvolvesTwice(helds[i], helds[j - 1], helds[j]);
    }
  }

  // ---------- the fence ----------

  /** Whether the step's check passes: the version is the row's, and a state that is to end is pending. */
  ghost predicate FencePasses(e: Execution, step: Step)
    requires Fenced(step)
  {
    && step.p.sid in e.states && e.states[step.p.sid].version == step.p.version
    && (step.CompleteExecute? || step.Recover? ==> IsPending(e.process.sequenceMaps, step.p.sid))
  }

  lemma FencedCommitsIff(s: Session, step: Step)
    requires SequencesExact(s.e) && Enabled(s, step) && Fenced(step)
    ensures Commits(s, step) <==> FencePasses(s.e, step)
    ensures Commits(s, step) ==> Moved(s.e, Effect(s, step).value, step.p.sid)
  {
    hide SequencesExact, Moved;
    match step
    case CompleteExecute(p, d, publish) =>
      CompleteExecuteCommitsIff(s.e, p.task, p.sid, p.version, d, publish);
      if Commits(s, step) { CompleteExecuteMoves(s.e, p.task, p.sid, p.version, d, publish); }
    case Recover(p, failure, destination) =>
      RecoverCommitsIff(s.e, p.sid, p.version, failure, destination);
      if Commits(s, step) { RecoverMoves(s.e, p.sid, p.version, failure, destination); }
    case Backoff(p, failure, fireTime) => BackoffCommitsIff(s.e, p, failure, fireTime);
    case WaitUntil(p, request, order, now, publish) =>
      if Commits(s, step) { WaitUntilMoves(s.e, p.task, p.sid, p.version, request, order, now, publish); }
  }

  lemma BackoffCommitsIff(e: Execution, p: Prepared, failure: Failure, fireTime: int)
    ensures var r := BackoffTx(e, p.task, p.sid, p.kind, p.status, p.version, failure, fireTime);
      && (r.Some? <==> p.sid in e.states && e.states[p.sid].version == p.version)
      && (r.Some? ==> Moved(e, r.value, p.sid))
  {
  }

  /**
   However often tasks and timers are delivered: at every point a fenced transaction commits exactly when its
   read has the row's version and, to end the state, the state is pending.  Whether its task is settled, in
   the table or long gone plays no part.
   */
  lemma FenceDecides(helds: seq<Held>, ds: seq<Delivery>, n: nat, step: Step)
    requires IsDeliveryRun(helds, ds) && n <= |ds| && Enabled(helds[n].s, step) && Fenced(step)
    ensures Commits(helds[n].s, step) <==> FencePasses(helds[n].s.e, step)
  {
    hide FencePasses, Commits, Enabled;
    AlwaysHeld(helds, ds, n);
    FencedCommitsIff(helds[n].s, step);
  }

  /** A version at which a fenced transaction committed is refused for ever, in these runs too. */
  lemma VersionIsSpentForEver(helds: seq<Held>, ds: seq<Delivery>, i: nat, j: nat)
    requires IsDeliveryRun(helds, ds) && i < j <= |ds|
    requires ds[i].Once? && Fenced(ds[i].step) && Commits(helds[i].s, ds[i].step)
    ensures Refused(helds[j].s.e, ds[i].step.p.sid, ds[i].step.p.version)
  {
    AlwaysHeld(helds, ds, i);
    FencedCommitsIff(helds[i].s, ds[i].step);
    HeldAlong(helds, ds, i + 1, j);
    hide Effect, Refused, HeldInv;
    var sid := ds[i].step.p.sid;
    assert RowEvolves(helds[i + 1].s.e.states[sid], helds[j].s.e.states[sid]);
    OlderIsRefused(helds[j].s.e, sid, ds[i].step.p.version);
  }

  /** The delivery's transaction for a worker task committed, fenced or not. */
  ghost predicate CommitsFor(h: Held, d: Delivery, p: Prepared)
    requires MayDeliver(h, d)
  {
    && Outcome(h, d).Some?
    && (|| (d.Once? && ForTask(d.step) && d.step.p == p)
        || (d.RespondAgain? && d.p == p))
  }

  lemma CommitMovesOn(h: Held, d: Delivery, p: Prepared)
    requires MayDeliver(h, d) && HeldInv(h) && CommitsFor(h, d, p)
    ensures Moved(h.s.e, AfterDelivery(h, d).s.e, p.sid) && AfterDelivery(h, d).s.preps == h.s.preps
    ensures p in h.s.preps
  {
    if d.Once? && Fenced(d.step) {
      FencedCommitsIff(h.s, d.step);
      hide Effect, HeldInv, Fenced;
      assert h.s.preps + {} == h.s.preps;
    } else {
      var (request, order, now, publish) :=
        if d.Once? then (d.step.request, d.step.order, d.step.now, d.step.publish)
        else (d.request, d.order, d.now, d.publish);
      WaitUntilMoves(h.s.e, p.task, p.sid, p.version, request, order, now, publish);
      hide WaitUntilTx;
      assert h.s.preps + {} == h.s.preps;
    }
  }

  /**
   After a commit for a task, a fenced transaction for the same task commits again exactly when its fence
   passes; and it can pass only for a read that was made after that commit.
   */
  lemma CommitsAgainOnlyIfReadAgain(
    helds: seq<Held>, ds: seq<Delivery>, i: nat, j: nat, p: Prepared, step: Step)
    requires IsDeliveryRun(helds, ds) && i < j <= |ds| && CommitsFor(helds[i], ds[i], p)
    requires Enabled(helds[j].s, step) && Fenced(step) && step.p.task == p.task
    ensures Commits(helds[j].s, step) <==> FencePasses(helds[j].s.e, step)
    ensures Commits(helds[j].s, step) ==> step.p !in helds[i + 1].s.preps
  {
    hide MayDeliver, AfterDelivery, Commits, CommitsFor, Enabled, HeldInv, HeldEvolves, FencePasses, Moved;
    FenceDecides(helds, ds, j, step);
    AlwaysHeld(helds, ds, i);
    AlwaysHeld(helds, ds, j);
    EnabledIsRead(helds[j].s, step);
    CommitMovesOn(helds[i], ds[i], p);
    HeldAlong(helds, ds, i, i + 1);
    HeldAlong(helds, ds, i + 1, j);
    if step.p in helds[i + 1].s.preps {
      OldReadIsSpent(helds[i], helds[i + 1], helds[j], p, step.p);
      assert !FencePasses(helds[j].s.e, step) by { SpentDoesNotPass(helds[j].s.e, step); }
    }
  }

  lemma SpentDoesNotPass(e: Execution, step: Step)
    requires Fenced(step) && step.p.sid in e.states && step.p.version < e.states[step.p.sid].version
    ensures !FencePasses(e, step)
  {
  }

  /** What was read before the row moved on is behind it for ever. */
  lemma OldReadIsSpent(h: Held, h1: Held, h2: Held, p: Prepared, q: Prepared)
    requires HeldInv(h) && HeldEvolves(h, h1) && HeldEvolves(h1, h2) && HeldInv(h2) && Moved(h.s.e, h1.s.e, p.sid)
    requires p in h.s.preps && q in h.s.preps && q in h2.s.preps && p.task == q.task
    ensures q.sid in h2.s.e.states && q.version < h2.s.e.states[q.sid].version
  {
    hide SequencesExact;
    assert HeldRead(h, p) && HeldRead(h, q);
    assert RowEvolves(h1.s.e.states[p.sid], h2.s.e.states[p.sid]);
  }

  lemma EnabledIsRead(s: Session, step: Step)
    requires Enabled(s, step) && Fenced(step)
    ensures step.p in s.preps
  {
  }

  /** Reading again is all it takes: a read made now, of a pending state that executes, is taken at once. */
  lemma ReadAgainCommits(
    helds: seq<Held>, ds: seq<Delivery>, n: nat, t: int, d: StateDecision, publish: seq<PublishedMessage>)
    requires IsDeliveryRun(helds, ds) && n <= |ds| && MayDeliver(helds[n], PrepareAgain(t))
    requires helds[n].s.e.states[helds[n].tasks[t].sid].status.ExecuteRunning?
    ensures var h, step :=
        AfterDelivery(helds[n], PrepareAgain(t)), CompleteExecute(ReadAgain(helds[n], t), d, publish);
      && Enabled(h.s, step)
      && (Commits(h.s, step) <==> IsPending(h.s.e.process.sequenceMaps, helds[n].tasks[t].sid))
  {
    AlwaysHeld(helds, ds, n);
    var h, step := AfterDelivery(helds[n], PrepareAgain(t)), CompleteExecute(ReadAgain(helds[n], t), d, publish);
    hide SequencesExact, HeldRead, CompleteExecuteTx;
    FencedCommitsIff(h.s, step);
  }
}
