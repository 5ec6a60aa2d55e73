/** A request to complete gracefully: which steps make it, that it stays, and what it comes to. */
module GracefulTheorems {
  import opened Wrappers
  import opened StateExecutionIds
  import opened SequenceMaps
  import opened ProcessModel
  import opened Transactions
  import opened Invariants
  import opened Sessions
  import opened SessionLemmas
  import opened RunTheorems
  import opened ClosingTheorems
  import opened StartEffects
  import opened DecisionEffects
  import opened StepEffects

  predicate Decides(step: Step) {
    step.CompleteExecute? || step.Rpc?
  }

  function Ended(step: Step): Option<StateExecutionId> {
    if step.CompleteExecute? then Some(step.p.sid) else None
  }

  /** The step's decision is taken: of a state whose commit succeeds, or of a call to a running process. */
  ghost predicate TakesDecision(s: Session, step: Step)
    requires Enabled(s, step)
  {
    Decides(step) && Commits(s, step) && (step.Rpc? ==> s.e.process.status.Running?)
  }

  ghost predicate AsksGracefully(s: Session, step: Step)
    requires Enabled(s, step)
  {
    TakesDecision(s, step) && step.decision.close == Some(GracefulComplete)
  }

  lemma DecisionsTakeEffect(states: seq<Session>, steps: seq<Step>, n: nat)
    requires IsRun(states, steps) && n < |steps| && TakesDecision(states[n], steps[n])
    ensures ProcessDecided(states[n].e, states[n + 1].e, Ended(steps[n]), steps[n].decision)
  {
    hide Enabled, Next, Effect, ProcessDecided, RowsDecided, EndedAs, TasksDecided;
    if steps[n].CompleteExecute? {
      CompletingTakesEffect(states, steps, n);
    } else {
      CallingTakesEffect(states, steps, n);
    }
  }

  /** The steps without a decision leave the request as it is. */
  lemma OthersLeaveTheRequest(states: seq<Session>, steps: seq<Step>, n: nat)
    requires IsRun(states, steps) && n < |steps| && !TakesDecision(states[n], steps[n])
    ensures states[n + 1].e.process.gracefulCompleteRequested == states[n].e.process.gracefulCompleteRequested
  {
    hide RowsAborted, Recovered, CompleteExecuteTx, RpcTx, RecoverTx, StopTx, TerminateTx, TimeoutTx, OnlyQueues;
    var s, step := states[n], steps[n];
    if !Commits(s, step) {
    } else if !TouchesProcess(step) {
      OthersLeaveProcess(s, step);
      QueuesKeepTheRequest(s.e, states[n + 1].e);
    } else if step.Recover? {
      RecoveringTakesEffect(states, steps, n);
      RecoveredKeepsTheRequest(s.e, states[n + 1].e, step.p.sid, step.failure, step.destination);
    } else if step.Rpc? {
      CallingTakesEffect(states, steps, n);
    } else if step.Stop? {
      StoppingTakesEffect(states, steps, n);
    } else if step.FireTimeout? {
      TimingOutTakesEffect(states, steps, n);
    } else {
      TerminatingTakesEffect(states, steps, n);
    }
  }

  lemma QueuesKeepTheRequest(e: Execution, e': Execution)
    requires OnlyQueues(e, e')
    ensures e'.process.gracefulCompleteRequested == e.process.gracefulCompleteRequested
    ensures e'.process.sequenceMaps == e.process.sequenceMaps && e'.process.status == e.process.status
  {
  }

  lemma RecoveredKeepsTheRequest(
    e: Execution, e': Execution, source: StateExecutionId, failure: Failure, destination: NextState)
    requires Recovered(e, e', source, failure, destination)
    ensures e'.process.gracefulCompleteRequested == e.process.gracefulCompleteRequested
    ensures exists sid :: IsPending(e'.process.sequenceMaps, sid)
  {
    var sid := StateExecutionId(destination.stateId,
                                LastSequence(e.process.sequenceMaps, destination.stateId) + 1);
    assert IsPending(e'.process.sequenceMaps, sid);
  }

  /** The request is set by exactly the decisions that ask for it, and never cleared. */
  lemma RequestIsSetIff(states: seq<Session>, steps: seq<Step>, n: nat)
    requires IsRun(states, steps) && n < |steps|
    ensures states[n + 1].e.process.gracefulCompleteRequested <==>
              states[n].e.process.gracefulCompleteRequested || AsksGracefully(states[n], steps[n])
  {
    hide Enabled, Next, Effect;
    if TakesDecision(states[n], steps[n]) {
      DecisionsTakeEffect(states, steps, n);
    } else {
      OthersLeaveTheRequest(states, steps, n);
    }
  }

  lemma {:induction false} RequestStays(states: seq<Session>, steps: seq<Step>, i: nat, j: nat)
    requires IsRun(states, steps) && i <= j <= |steps| && states[i].e.process.gracefulCompleteRequested
    ensures states[j].e.process.gracefulCompleteRequested
    decreases j
  {
    hide Enabled, Next;
    if i < j {
      RequestStays(states, steps, i, j - 1);
      RequestIsSetIff(states, steps, j - 1);
    }
  }

  ghost predicate NothingPends(e: Execution) {
    forall sid :: !IsPending(e.process.sequenceMaps, sid)
  }

  /** The last pending states did not complete, but were stopped, timed out, or failed by force. */
  ghost predicate EndsOtherwise(s: Session, step: Step)
    requires Enabled(s, step)
  {
    || (step.Stop? && !step.status.ProcessCompleted?)
    || step.FireTimeout?
    || (TakesDecision(s, step) && step.decision.close == Some(ForceFail) &&
        !NothingLeft(s.e, Ended(step), step.decision))
  }

  /** A decision after which nothing pends closes the process as completed, unless it fails it by force. */
  lemma LastDecisionCompletes(e: Execution, e': Execution, ended: Option<StateExecutionId>, d: StateDecision)
    requires ProcessDecided(e, e', ended, d) && NothingPends(e')
    requires e.process.gracefulCompleteRequested || d.close == Some(GracefulComplete)
    ensures e'.process.status.ProcessCompleted? <==> !(d.close == Some(ForceFail) && !NothingLeft(e, ended, d))
  {
    hide CountersGrow, IdAt, IsPending;
    var maps := e.process.sequenceMaps;
    assert d.nextStates != [] ==> IsNew(maps, d.nextStates, IdAt(maps, d.nextStates, 0));
  }

  /** Of a running process with something pending, the other steps take everything away only by stopping it. */
  lemma OthersLeaveSomething(states: seq<Session>, steps: seq<Step>, n: nat)
    requires IsRun(states, steps) && n < |steps| && !TakesDecision(states[n], steps[n])
    requires states[n].e.process.status.Running? && !NothingPends(states[n].e) && NothingPends(states[n + 1].e)
    ensures steps[n].FireTimeout? || steps[n].Stop?
    ensures states[n + 1].e.process.status == if steps[n].Stop? then steps[n].status else ProcessTimeout
  {
    hide RowsAborted, Recovered, CompleteExecuteTx, RpcTx, RecoverTx, StopTx, TerminateTx, TimeoutTx, OnlyQueues;
    var s, step, e' := states[n], steps[n], states[n + 1].e;
    if !Commits(s, step) {
      assert false;
    } else if !TouchesProcess(step) {
      OthersLeaveProcess(s, step);
      QueuesKeepTheRequest(s.e, e');
    } else if step.Recover? {
      RecoveringTakesEffect(states, steps, n);
      RecoveredKeepsTheRequest(s.e, e', step.p.sid, step.failure, step.destination);
    } else if step.Stop? {
      StoppingTakesEffect(states, steps, n);
    } else if step.FireTimeout? {
      TimingOutTakesEffect(states, steps, n);
    } else if step.TerminateIfRunning? {
      TerminatingTakesEffect(states, steps, n);
    }
  }

  lemma SomethingPendsMeanwhile(s: Session)
    requires SessionInv(s) && s.e.process.status.Running? && s.e.process.gracefulCompleteRequested
    ensures !NothingPends(s.e)
  {
    assert SequencesExact(s.e) && GracefulHasPending(s.e);
    NonePendingIsExact(s.e.process.sequenceMaps);
  }

  /**
   A graceful request is honoured.  It is remembered while the process runs, which then always has something
   pending; and at the first point where nothing is pending any more the process is completed, unless the very
   step that took the last pending states away stopped it, timed it out or failed it by force.
   */
  lemma GracefulRequestIsHonoured(states: seq<Session>, steps: seq<Step>, i: nat, j: nat)
    requires IsRun(states, steps) && i < j <= |steps| && AsksGracefully(states[i], steps[i])
    requires forall k :: i < k < j ==> states[k].e.process.status.Running?
    ensures forall k :: i < k < j ==> !NothingPends(states[k].e)
    ensures NothingPends(states[j].e) ==>
              (states[j].e.process.status.ProcessCompleted? <==> !EndsOtherwise(states[j - 1], steps[j - 1]))
  {
    hide Enabled, Next, Effect, Commits, SessionInv, NothingPends, NothingLeft;
    forall k | i < k < j ensures states[k].e.process.gracefulCompleteRequested && !NothingPends(states[k].e) {
      RequestIsSetIff(states, steps, i);
      RequestStays(states, steps, i + 1, k);
      AlwaysInv(states, steps, k);
      SomethingPendsMeanwhile(states[k]);
    }
    if NothingPends(states[j].e) {
      if TakesDecision(states[j - 1], steps[j - 1]) {
        DecisionsTakeEffect(states, steps, j - 1);
        LastDecisionCompletes(states[j - 1].e, states[j].e, Ended(steps[j - 1]), steps[j - 1].decision);
      } else {
        OthersLeaveSomething(states, steps, j - 1);
      }
    }
  }
}
