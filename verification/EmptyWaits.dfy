/** A wait-until response of another type than EMPTY_COMMAND that carries no command at all. */
module EmptyWaits {
  import opened Wrappers
  import opened LocalQueues
  import opened ProcessModel
  import opened Transactions
  import opened Sessions
  import opened RunTheorems
  import opened StaleWaits

  const NOTHING_REQUEST := CommandRequest(AllOfCompletion, [], [])
  const EMPTY_WAIT := WaitUntil(READ0, NOTHING_REQUEST, [], CLOCK, [])

  lemma EmptyWaitWaits()
    ensures Enabled(S1, EMPTY_WAIT) && Commits(S1, EMPTY_WAIT)
    ensures var e' := Effect(S1, EMPTY_WAIT).value;
      && e'.process.status.Running? && A1 in e'.states
      && e'.states[A1].status.WaitUntilWaiting? && e'.states[A1].request == NOTHING_REQUEST
  {
    var none: map<int, seq<DedupId>> := map[];
    assert RegisterCommands(NO_QUEUES, A1, NOTHING_REQUEST, []) == (NO_QUEUES, none);
    var updated := RowWaits(E0, A1, NOTHING_REQUEST, NO_QUEUES, AddConsumed(map[], NO_RESULTS, none));
    assert InsertCommandTimers(updated, A1, [], CLOCK) == updated;
  }

  /**
   Such a state waits for ever: its wait is complete by the program's own test, which is not made when
   there are no queue commands, and nothing in the tables or the queues will make it again.
   */
  lemma EmptyWaitIsStranded() returns (states: seq<Session>, steps: seq<Step>)
    ensures IsRun(states, steps) && |steps| == 2
    ensures var e := states[2].e;
      && e.process.status.Running? && A1 in e.states && e.states[A1].status.WaitUntilWaiting?
      && Completed(e.states[A1].request, NO_RESULTS) && !CanBeWoken(e, A1)
      && (forall t, kind :: !Driver(states[2], A1, t, kind))
  {
    TerminatedStarts();
    TerminatedBegins();
    EmptyWaitWaits();
    hide Enabled, Effect, StartExecution;
    steps := [Prepare(0), EMPTY_WAIT];
    states := [S0, S1, Next(S1, EMPTY_WAIT)];
    assert states[0] == Start(0, Some(NextState("a", false)), None);
    assert Goes(S0, Prepare(0), S1);
    assert IsRun(states, steps);
    OrphanedIffAsksForNothing(states, steps, 2, A1);
    DrivenExactlyOnce(states, steps, 2);
  }
}
