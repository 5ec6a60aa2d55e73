/** Which deliveries keep the invariants, and that the others break them. */
module HarmlessDeliveries {
  import opened Collections
  import opened StateExecutionIds
  import opened ProcessModel
  import opened Transactions
  import opened Invariants
  import opened PublishingLemmas
  import opened ClosingLemmas
  import opened DrivingLemmas
  import opened WaitingLemmas
  import opened UpdatingLemmas
  import opened QueueLemmas
  import opened TimerCommandLemmas
  import opened StepLemmas
  import opened Evolution
  import opened Sessions
  import opened SessionLemmas
  import opened RunTheorems
  import opened Leftovers
  import opened Redeliveries
  import opened RedeliveryTheorems

  /** A timer that left the table has done what it was for. */
  ghost predicate HasDone(e: Execution, timer: TimerTask) {
    match timer
    case TimeoutTimer(_) => !e.process.status.Running?
    case BackoffTimer(_, _, _) => true
    case CommandTimer(_, sid, i) =>
      sid in e.states && i in e.states[sid].results.timers && e.states[sid].results.timers[i]
  }

  ghost predicate TimersHeld(h: Held) {
    && (forall t :: t in h.s.e.timers ==> t in h.timers && h.timers[t] == h.s.e.timers[t])
    && (forall t :: t in h.timers ==> t < h.s.e.next)
    && (forall t :: t in h.timers && t !in h.s.e.timers ==> HasDone(h.s.e, h.timers[t]))
  }

  ghost predicate AllPublished(e: Execution, ms: seq<QueuedMessage>) {
    forall n :: 0 <= n < |ms| ==> ms[n].dedupId in e.messages && e.messages[ms[n].dedupId].queue == ms[n].queue
  }

  ghost predicate SettledIsOld(h: Held) {
    forall t :: t in h.s.settled ==> t < h.s.e.next
  }

  /** The invariants, and what was delivered is accounted for. */
  ghost predicate Sound(h: Held) {
    && HeldInv(h) && Inv(h.s.e, h.s.settled) && SettledIsOld(h) && TimersHeld(h)
    && (forall t :: t in h.tasks && h.tasks[t].QueueTask? ==> AllPublished(h.s.e, h.tasks[t].messages))
  }

  function KindOf(status: StateStatus): WorkerKind {
    if status.WaitUntilRunning? then WaitUntilKind else ExecuteKind
  }

  /** The read's task is in the table, has had no commit, and is for the API that the read calls. */
  ghost predicate Live(h: Held, p: Prepared) {
    && p.task in h.s.e.immediate && p.task !in h.s.settled
    && h.s.e.immediate[p.task] == WorkerTask(KindOf(p.status), p.sid)
  }

  /** A commit for a live task, a queue task or a backoff timer that is still in the table, and everything else. */
  ghost predicate Harmless(h: Held, d: Delivery)
    requires MayDeliver(h, d)
  {
    match d
    case Once(step) => ForTask(step) && Commits(h.s, step) ==> Live(h, step.p)
    case RespondAgain(p, _, _, _, _) => Live(h, p)
    case QueueAgain(t, _, _) => t in h.s.e.immediate
    case FireBackoffAgain(t) => t in h.s.e.timers
    case PrepareAgain(_) => true
    case FireCommandAgain(_) => true
    case FireTimeoutAgain(_) => true
  }

  // ---------- the invariants of the tables ----------

  lemma FencedAtItsVersion(h: Held, p: Prepared)
    requires Sound(h) && CalledAny(h.s, p) && Live(h, p) && h.s.e.states[p.sid].version == p.version
    ensures Working(h.s.e, h.s.settled, p.task, p.sid, KindOf(p.status))
    ensures p.kind == KindOf(p.status) && p.status == StatusOf(KindOf(p.status))
  {
    hide Inv, TimersHeld, SequencesExact;
    assert HeldRead(h, p);
  }

  lemma LiveCommitKeeps(h: Held, step: Step)
    requires Sound(h) && Enabled(h.s, step) && ForTask(step) && Commits(h.s, step) && Live(h, step.p)
    ensures Inv(Effect(h.s, step).value, h.s.settled + {step.p.task})
  {
    var e, settled := h.s.e, h.s.settled;
    assert HeldRead(h, step.p) && SequencesExact(e) && e.next !in settled;
    hide Inv, TimersHeld, CompleteExecuteTx, RecoverTx, BackoffTx, WaitUntilTx, HeldInv;
    if Fenced(step) {
      FencedCommitsIff(h.s, step);
      hide SequencesExact;
      FencedAtItsVersion(h, step.p);
      match step
      case CompleteExecute(p, d, publish) =>
        CompleteExecuteKeeps(e, p.task, p.sid, p.version, d, publish, settled, p.kind);
      case Recover(p, failure, destination) =>
        RecoverKeeps(e, p.task, p.sid, p.version, failure, destination, settled, p.kind);
      case Backoff(p, failure, fireTime) =>
        BackoffKeeps(e, p.task, p.sid, p.kind, p.version, failure, fireTime, settled);
      case WaitUntil(p, request, order, now, publish) =>
        WaitUntilKeeps(e, p.task, p.sid, p.version, request, order, now, publish, settled);
    } else {
      hide SequencesExact;
      var p := step.p;
      WaitUntilKeeps(e, p.task, p.sid, p.version, step.request, step.order, step.now, step.publish, settled);
    }
  }

  lemma OtherStepKeeps(h: Held, step: Step)
    requires Sound(h) && Enabled(h.s, step) && !ForTask(step) && Commits(h.s, step)
    ensures Inv(Effect(h.s, step).value, h.s.settled)
  {
    var e, settled := h.s.e, h.s.settled;
    assert e.next !in settled;
    hide Inv, TimersHeld, HeldInv, QueueTx, RpcTx, StopTx, TerminateTx, TimeoutTx, CommandTimerTx;
    match step
    case Prepare(_) =>
    case QueueMessages(t, picks, sids) => QueueTxKeeps(e, settled, t, e.immediate[t].messages, picks, sids);
    case RecordVisibility(t) => DeletingVisibilityKeeps(e, t, settled);
    case FireCommand(t) =>
      assert Resolves(e, e.timers[t].sid, e.timers[t].index, t);
      CommandTimerKeeps(e, t, e.timers[t].sid, e.timers[t].index, settled);
    case FireBackoff(t) => ConvertKeeps(e, t, e.timers[t].sid, e.timers[t].kind, settled);
    case FireTimeout(t) => TimeoutKeeps(e, t, settled);
    case Rpc(d, publish) => RpcKeeps(e, d, publish, settled);
    case PublishMessages(publish) => PublishTxKeeps(e, publish, settled);
    case Stop(status) => StopKeeps(e, status, settled);
    case TerminateIfRunning => TerminateKeeps(e, settled);
    case OthersTookKeys(next) => TakingKeysKeeps(e, next, settled);
  }

  // ---------- a command timer that fires again ----------

  lemma RefiringUpdates(e: Execution, timer: int, sid: StateExecutionId, index: int)
    requires timer !in e.timers && sid in e.states
    requires index in e.states[sid].results.timers && e.states[sid].results.timers[index]
    ensures var row := e.states[sid];
      RowUpdated(e, DeleteTimer(WithResults(e, sid, TimerFired(row, index)), timer), sid, row.results,
                 Completed(row.request, row.results), {})
  {
    var row := e.states[sid];
    SameMap(row.results.timers[index := true], row.results.timers);
    WithResultsUpdates(e, sid, row.results);
    hide Completed, WithResults;
    SameMap(WithResults(e, sid, row.results).timers - {timer}, e.timers);
  }

  lemma RefiredWaits(e: Execution, e': Execution, sid: StateExecutionId, index: int, completed: bool)
    requires sid in e.states && index in e.states[sid].results.timers && e.states[sid].status.WaitUntilWaiting?
    requires RowUpdated(e, e', sid, e.states[sid].results, completed, {})
    requires completed <==> Completed(e.states[sid].request, e.states[sid].results)
    requires Waits(e)
    ensures Waits(e')
  {
    NothingAside(e);
    NothingAside(e');
    if e.process.status.Running? {
      assert WaitsForTheRest(e, sid) && AsksForSomething(e.states[sid].request);
      assert forall i, t :: Resolves(e', sid, i, t) <==> Resolves(e, sid, i, t);
      StillTimed(e, e', sid);
    }
    hide Completed;
    UpdatedWaits(e, e', sid, e.states[sid].results, completed, {}, map[], map[]);
  }

  lemma RefiredKeeps(
    e: Execution, e': Execution, sid: StateExecutionId, index: int, completed: bool, settled: set<int>)
    requires Inv(e, settled) && sid in e.states && index in e.states[sid].results.timers && e.next !in settled
    requires e.states[sid].status.WaitUntilWaiting?
    requires RowUpdated(e, e', sid, e.states[sid].results, completed, {})
    requires completed <==> Completed(e.states[sid].request, e.states[sid].results)
    ensures Inv(e', settled)
  {
    var results := e.states[sid].results;
    UpdatedShape(e, e', sid, results, completed, {});
    UpdatedRest(e, e', sid, results, completed, {}, settled);
    assert DrivenOnce(e', settled) by { UpdatedDrivenOnce(e, e', sid, results, completed, {}, settled); }
    assert WaitsOnce(e', settled) by {
      ResultsMeanNotDriven(e, settled, sid, index);
      UpdatedWaitsOnce(e, e', sid, results, completed, {}, settled);
    }
    assert Waits(e') by { RefiredWaits(e, e', sid, index, completed); }
    assert RegisteredMatch(e') by { UpdatedRegistered(e, e', sid, results, completed, {}); }
    assert MessagesOnce(e') && Faithful(e') by { FiredMessages(e, e', sid, results, completed, {}); }
  }

  lemma ResultsMeanNotDriven(e: Execution, settled: set<int>, sid: StateExecutionId, index: int)
    requires WaitsOnce(e, settled) && sid in e.states && index in e.states[sid].results.timers
    ensures !Driven(e, settled, sid, WaitUntilKind)
  {
    forall t ensures !Drives(e, settled, sid, t, WaitUntilKind) {
      assert Drives(e, settled, sid, t, WaitUntilKind) ==> NotWaitedYet(e, sid);
    }
  }

  /** A command timer that has done its work may fire as often as it likes. */
  lemma RefiringKeeps(e: Execution, timer: int, sid: StateExecutionId, index: int, settled: set<int>)
    requires Inv(e, settled) && timer !in e.timers && sid in e.states && e.next !in settled
    requires index in e.states[sid].results.timers && e.states[sid].results.timers[index]
    ensures var r := CommandTimerTx(e, timer, sid, index); r.Some? && Inv(r.value, settled)
  {
    if e.states[sid].status.WaitUntilWaiting? {
      hide Inv, Completed, WithResults;
      RefiringUpdates(e, timer, sid, index);
      RefiredKeeps(e, CommandTimerTx(e, timer, sid, index).value, sid, index,
                   Completed(e.states[sid].request, e.states[sid].results), settled);
    }
  }

  // ---------- each delivery ----------

  lemma TimingOutAgainIsNothing(e: Execution, timer: int)
    requires timer !in e.timers && !e.process.status.Running?
    ensures TimeoutTx(e, timer) == e
  {
    SameMap(e.timers - {timer}, e.timers);
  }

  lemma FiringAgainKeeps(h: Held, d: Delivery)
    requires Sound(h) && MayDeliver(h, d) && (d.FireCommandAgain? || d.FireTimeoutAgain?)
    ensures Outcome(h, d).Some? && Inv(Outcome(h, d).value, h.s.settled)
  {
    var e, settled, t := h.s.e, h.s.settled, d.timer;
    assert e.next !in settled;
    hide Inv, CommandTimerTx, TimeoutTx;
    if t in e.timers && d.FireCommandAgain? {
      assert Resolves(e, e.timers[t].sid, e.timers[t].index, t);
      CommandTimerKeeps(e, t, e.timers[t].sid, e.timers[t].index, settled);
    } else if t in e.timers {
      TimeoutKeeps(e, t, settled);
    } else if d.FireCommandAgain? {
      RefiringKeeps(e, t, h.timers[t].sid, h.timers[t].index, settled);
    } else {
      TimingOutAgainIsNothing(e, t);
    }
  }

  lemma RedeliveryKeeps(h: Held, d: Delivery)
    requires Sound(h) && MayDeliver(h, d) && Harmless(h, d) && !d.Once?
    ensures Inv(SessionAfter(h, d).e, SessionAfter(h, d).settled)
  {
    hide Inv, SequencesExact, WaitUntilTx, QueueTx, CommandTimerTx, TimeoutTx, ConvertTx, AllPublished;
    var e, settled := h.s.e, h.s.settled;
    assert e.next !in settled;
    match d
    case PrepareAgain(_) =>
    case RespondAgain(p, request, order, now, publish) =>
      assert HeldRead(h, p);
      WaitUntilKeeps(e, p.task, p.sid, p.version, request, order, now, publish, settled);
    case QueueAgain(t, picks, sids) => QueueTxKeeps(e, settled, t, h.tasks[t].messages, picks, sids);
    case FireBackoffAgain(t) => ConvertKeeps(e, t, h.timers[t].sid, h.timers[t].kind, settled);
    case FireCommandAgain(_) => FiringAgainKeeps(h, d);
    case FireTimeoutAgain(_) => FiringAgainKeeps(h, d);
  }

  lemma OnceKeeps(h: Held, step: Step)
    requires Sound(h) && MayDeliver(h, Once(step)) && Harmless(h, Once(step))
    ensures Inv(Next(h.s, step).e, Next(h.s, step).settled)
  {
    hide Inv, Effect, Enabled, HeldInv, TimersHeld, SettledIsOld;
    if Commits(h.s, step) {
      if ForTask(step) {
        LiveCommitKeeps(h, step);
      } else {
        OtherStepKeeps(h, step);
        assert h.s.settled + {} == h.s.settled;
      }
    }
  }

  // ---------- the timers that were delivered ----------

  function RemovedBy(h: Held, d: Delivery): set<int> {
    match d
    case Once(step) => Removed(h.s, step)
    case FireCommandAgain(t) =>
      if t in h.timers && h.timers[t].CommandTimer? && h.timers[t].sid in h.s.e.states &&
         h.s.e.states[h.timers[t].sid].status.WaitUntilWaiting? then {t} else {}
    case FireBackoffAgain(t) => {t}
    case FireTimeoutAgain(t) => {t}
    case _ => {}
  }

  function StartedToWait(d: Delivery): set<StateExecutionId> {
    match d
    case Once(step) => StartsToWait(step)
    case RespondAgain(p, _, _, _, _) => {p.sid}
    case _ => {}
  }

  lemma DeliveryTracks(h: Held, d: Delivery)
    requires MayDeliver(h, d) && Outcome(h, d).Some?
    ensures Tracks(h.s.e, Outcome(h, d).value, RemovedBy(h, d), StartedToWait(d))
  {
    hide Tracks, Effect, Enabled, WaitUntilTx, QueueTx, CommandTimerTx, TimeoutTx, ConvertTx, Removed, StartsToWait;
    var e := h.s.e;
    match d
    case Once(step) => StepTracks(h.s, step);
    case PrepareAgain(_) => SameTimersTrack(e, e);
    case RespondAgain(p, request, order, now, publish) =>
      WaitUntilTracks(e, p.task, p.sid, p.version, request, order, now, publish);
    case QueueAgain(t, picks, sids) => QueueTracks(e, t, h.tasks[t].messages, picks, sids);
    case FireCommandAgain(t) => CommandTimerTracks(e, t, h.timers[t].sid, h.timers[t].index);
    case FireBackoffAgain(t) => ConvertTracks(e, t, h.timers[t].sid, h.timers[t].kind);
    case FireTimeoutAgain(t) => StoppingTracks(e, ProcessTimeout, t);
  }

  lemma RemovedHasDone(h: Held, d: Delivery, t: int)
    requires MayDeliver(h, d) && Outcome(h, d).Some? && TimersHeld(h)
    requires t in RemovedBy(h, d) && t in h.s.e.timers
    ensures HasDone(Outcome(h, d).value, h.timers[t])
  {
    hide CommandTimerTx, TimeoutTx, ConvertTx, QueueTx, WaitUntilTx;
    match d
    case Once(step) =>
      if step.FireCommand? {
        CommandTimerTracks(h.s.e, t, h.timers[t].sid, h.timers[t].index);
      } else if step.FireTimeout? {
        StoppingTracks(h.s.e, ProcessTimeout, t);
      }
    case FireCommandAgain(_) => CommandTimerTracks(h.s.e, t, h.timers[t].sid, h.timers[t].index);
    case FireTimeoutAgain(_) => StoppingTracks(h.s.e, ProcessTimeout, t);
    case _ =>
  }

  lemma StillDone(e: Execution, e': Execution, gone: set<int>, waits: set<StateExecutionId>, timer: TimerTask)
    requires Tracks(e, e', gone, waits) && Evolves(e, e') && HasDone(e, timer)
    ensures HasDone(e', timer)
  {
  }

  /** `e'` is what the delivery leaves, or the same rows if it failed. */
  ghost predicate TimersFollow(h: Held, e': Execution, gone: set<int>, waits: set<StateExecutionId>) {
    && Tracks(h.s.e, e', gone, waits) && Evolves(h.s.e, e')
    && (forall t :: t in gone && t in h.s.e.timers && t in h.timers ==> HasDone(e', h.timers[t]))
  }

  lemma DeliveryFollows(h: Held, d: Delivery)
    requires MayDeliver(h, d) && TimersHeld(h)
    ensures exists gone, waits :: TimersFollow(h, SessionAfter(h, d).e, gone, waits)
  {
    DeliveryEvolves(h, d);
    if Outcome(h, d).Some? {
      DeliveryTracks(h, d);
      forall t | t in RemovedBy(h, d) && t in h.s.e.timers ensures HasDone(Outcome(h, d).value, h.timers[t]) {
        RemovedHasDone(h, d, t);
      }
      OutcomeIsLeft(h, d);
      hide Outcome, SessionAfter, Tracks, Evolves, HasDone, RemovedBy, StartedToWait, TimersHeld;
      assert TimersFollow(h, SessionAfter(h, d).e, RemovedBy(h, d), StartedToWait(d));
    } else {
      SameTimersTrack(h.s.e, h.s.e);
      assert TimersFollow(h, SessionAfter(h, d).e, {}, {});
    }
  }

  lemma OutcomeIsLeft(h: Held, d: Delivery)
    requires MayDeliver(h, d) && Outcome(h, d).Some?
    ensures SessionAfter(h, d).e == Outcome(h, d).value
  {
  }

  lemma FollowingKeeps(h: Held, h': Held, gone: set<int>, waits: set<StateExecutionId>)
    requires TimersHeld(h) && TimersFollow(h, h'.s.e, gone, waits) && h'.timers == h.timers + h'.s.e.timers
    ensures TimersHeld(h')
  {
    var e, e' := h.s.e, h'.s.e;
    forall t | t in h'.timers && t !in e'.timers ensures HasDone(e', h'.timers[t]) {
      if t !in e.timers {
        StillDone(e, e', gone, waits, h.timers[t]);
      }
    }
  }

  lemma DeliveryKeepsTimers(h: Held, d: Delivery)
    requires MayDeliver(h, d) && TimersHeld(h)
    ensures TimersHeld(AfterDelivery(h, d))
  {
    hide SessionAfter, TimersHeld, TimersFollow, MayDeliver;
    DeliveryFollows(h, d);
    var gone, waits :| TimersFollow(h, SessionAfter(h, d).e, gone, waits);
    FollowingKeeps(h, AfterDelivery(h, d), gone, waits);
  }

  // ---------- whole runs ----------

  lemma DeliveryKeepsPublished(h: Held, d: Delivery, t: int)
    requires MayDeliver(h, d) && Sound(h) && Faithful(SessionAfter(h, d).e)
    requires t in AfterDelivery(h, d).tasks && AfterDelivery(h, d).tasks[t].QueueTask?
    ensures AllPublished(SessionAfter(h, d).e, AfterDelivery(h, d).tasks[t].messages)
  {
    DeliveryEvolves(h, d);
    hide SessionAfter, MayDeliver, Inv, HeldInv, TimersHeld;
    var e' := SessionAfter(h, d).e;
    if t in e'.immediate {
      var ms := e'.immediate[t].messages;
      forall n | 0 <= n < |ms| ensures ms[n].dedupId in e'.messages && e'.messages[ms[n].dedupId].queue == ms[n].queue {
        assert e'.immediate[t].messages[n] == ms[n];
      }
    }
  }

  lemma DeliveryKeepsSettledOld(h: Held, d: Delivery)
    requires MayDeliver(h, d) && HeldInv(h) && SettledIsOld(h)
    ensures SettledIsOld(AfterDelivery(h, d))
  {
    DeliveryEvolves(h, d);
    forall t | t in SessionAfter(h, d).settled ensures t < h.s.e.next {
      SettledNow(h, d, t);
    }
  }

  lemma SettledNow(h: Held, d: Delivery, t: int)
    requires MayDeliver(h, d) && HeldInv(h) && SettledIsOld(h) && t in SessionAfter(h, d).settled
    ensures t < h.s.e.next
  {
    hide Effect, SequencesExact, WaitUntilTx, QueueTx, CommandTimerTx, TimeoutTx, ConvertTx;
    if t !in h.s.settled {
      if d.Once? {
        assert HeldRead(h, d.step.p);
      } else {
        assert HeldRead(h, d.p);
      }
    }
  }

  /** A harmless delivery keeps everything. */
  lemma HarmlessKeeps(h: Held, d: Delivery)
    requires Sound(h) && MayDeliver(h, d) && Harmless(h, d)
    ensures Sound(AfterDelivery(h, d))
  {
    DeliveryKeeps(h, d);
    assert Inv(SessionAfter(h, d).e, SessionAfter(h, d).settled) by {
      if d.Once? { OnceKeeps(h, d.step); } else { RedeliveryKeeps(h, d); }
    }
    DeliveryKeepsSettledOld(h, d);
    DeliveryKeepsTimers(h, d);
    InvIsFaithful(SessionAfter(h, d).e, SessionAfter(h, d).settled);
    hide Inv, HeldInv, SettledIsOld, TimersHeld, AllPublished;
    var h' := AfterDelivery(h, d);
    forall t | t in h'.tasks && h'.tasks[t].QueueTask? ensures AllPublished(h'.s.e, h'.tasks[t].messages) {
      DeliveryKeepsPublished(h, d, t);
    }
  }

  lemma InvIsFaithful(e: Execution, settled: set<int>)
    requires Inv(e, settled)
    ensures Faithful(e) && Keyed(e)
  {
  }

  lemma StartIsSound(h: Held)
    requires exists next, start, timeout :: h.s == Start(next, start, timeout)
    requires h.tasks == h.s.e.immediate && h.timers == h.s.e.timers
    ensures Sound(h)
  {
    StartIsHeld(h);
    var next, start, timeout :| h.s == Start(next, start, timeout);
    StartExecutionHolds(next, start, timeout);
    hide Inv, HeldInv, StartExecution;
    StoredIsSound(h);
  }

  lemma StoredIsSound(h: Held)
    requires HeldInv(h) && Inv(h.s.e, h.s.settled) && h.s.settled == {}
    requires h.tasks == h.s.e.immediate && h.timers == h.s.e.timers
    ensures Sound(h)
  {
    InvIsFaithful(h.s.e, {});
    hide Inv, HeldInv;
    forall t | t in h.tasks && h.tasks[t].QueueTask? ensures AllPublished(h.s.e, h.tasks[t].messages) {
      var ms := h.tasks[t].messages;
      assert forall n :: 0 <= n < |ms| ==> h.s.e.immediate[t].messages[n] == ms[n];
    }
  }

  ghost predicate HarmlessUpTo(helds: seq<Held>, ds: seq<Delivery>, n: nat)
    requires IsDeliveryRun(helds, ds) && n <= |ds|
  {
    forall k :: 0 <= k < n ==> Harmless(helds[k], ds[k])
  }

  /**
   The invariants hold in every run in which tasks and timers may be delivered any number of times, for as
   long as no delivery does harm.
   */
  lemma {:induction false} SoundWhileHarmless(helds: seq<Held>, ds: seq<Delivery>, n: nat)
    requires IsDeliveryRun(helds, ds) && n <= |ds| && HarmlessUpTo(helds, ds, n)
    ensures Sound(helds[n])
  {
    hide Sound, Harmless, AfterDelivery, MayDeliver;
    if n == 0 {
      StartIsSound(helds[0]);
    } else {
      SoundWhileHarmless(helds, ds, n - 1);
      HarmlessKeeps(helds[n - 1], ds[n - 1]);
    }
  }

  /**
   In plain terms: every message is in one place, on its own queue, and while the process runs every running
   state is driven exactly once, pending is active, and waiting rows agree with their timers and commands.
   */
  lemma InOrderWhileHarmless(helds: seq<Held>, ds: seq<Delivery>, n: nat)
    requires IsDeliveryRun(helds, ds) && n <= |ds| && HarmlessUpTo(helds, ds, n)
    ensures var e, settled := helds[n].s.e, helds[n].s.settled;
      && ExactlyOnce(LedgerOf(e), e.messages.Keys) && Faithful(e)
      && DrivenOnce(e, settled) && PendingMatches(e) && Waits(e)
  {
    SoundWhileHarmless(helds, ds, n);
  }

  // ---------- the runs without redeliveries ----------

  lemma OrdinaryCommitIsLive(h: Held, step: Step)
    requires SessionInv(h.s) && Enabled(h.s, step) && ForTask(step) && Commits(h.s, step)
    ensures Live(h, step.p)
  {
    hide Inv, Effect;
    assert PreparedRead(h.s.e, h.s.settled, step.p);
    if Fenced(step) {
      TaskCommitMovesOn(h.s, step);
      LiveTaskWorks(h.s, step.p);
    }
  }

  lemma OrdinaryStepIsHarmless(h: Held, step: Step)
    requires SessionInv(h.s) && Enabled(h.s, step)
    ensures MayDeliver(h, Once(step)) && Harmless(h, Once(step)) && SessionAfter(h, Once(step)) == Next(h.s, step)
  {
    hide SessionInv, Live, Effect;
    if ForTask(step) && Commits(h.s, step) {
      hide Enabled;
      OrdinaryCommitIsLive(h, step);
    }
  }

  lemma {:induction false} OrdinaryDeliveries(states: seq<Session>, steps: seq<Step>, n: nat) returns (helds: seq<Held>)
    requires IsRun(states, steps) && n <= |steps|
    ensures |helds| == n + 1 && helds[0].tasks == states[0].e.immediate && helds[0].timers == states[0].e.timers
    ensures forall k :: 0 <= k <= n ==> helds[k].s == states[k]
    ensures forall k :: 0 <= k < n ==>
              && MayDeliver(helds[k], Once(steps[k])) && helds[k + 1] == AfterDelivery(helds[k], Once(steps[k]))
              && Harmless(helds[k], Once(steps[k]))
  {
    hide MayDeliver, Harmless, SessionAfter, SessionInv, Enabled, Next;
    if n == 0 {
      helds := [Held(states[0], states[0].e.immediate, states[0].e.timers)];
    } else {
      var before := OrdinaryDeliveries(states, steps, n - 1);
      AlwaysInv(states, steps, n - 1);
      OrdinaryStepIsHarmless(before[n - 1], steps[n - 1]);
      helds := before + [AfterDelivery(before[n - 1], Once(steps[n - 1]))];
    }
  }

  /** A run in which everything is delivered from the tables is a run of deliveries, all of them harmless. */
  lemma OrdinaryRunsAreHarmless(states: seq<Session>, steps: seq<Step>) returns (helds: seq<Held>, ds: seq<Delivery>)
    requires IsRun(states, steps)
    ensures IsDeliveryRun(helds, ds) && HarmlessUpTo(helds, ds, |ds|)
    ensures |ds| == |steps| && forall n :: 0 <= n <= |ds| ==> helds[n].s == states[n]
  {
    hide MayDeliver, Harmless, AfterDelivery, Start;
    helds := OrdinaryDeliveries(states, steps, |steps|);
    ds := seq(|steps|, n requires 0 <= n < |steps| => Once(steps[n]));
  }
}
