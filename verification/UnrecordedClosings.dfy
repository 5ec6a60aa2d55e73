/** A process that a remote procedure call closes, and that nothing records as closed. */
module UnrecordedClosings {
  import opened Wrappers
  import opened ProcessModel
  import opened Transactions
  import opened Sessions

  const CLOSING := Rpc(StateDecision([], Some(ForceComplete)), [])

  lemma CallCloses(s: Session)
    requires s == Start(0, None, None)
    ensures s.e.process.status.Running? && Enabled(s, CLOSING)
    ensures Next(s, CLOSING).e.process.status.ProcessCompleted?
    ensures Next(s, CLOSING).e.immediate == map[0 := VisibilityTask(Running)]
  {
    var decided := HandleStateDecision(s.e, CLOSING.decision).value;
    assert Publish(decided, []) == decided;
  }

  /** The process is completed, and the only visibility task there is records that it runs. */
  lemma CallClosesUnrecorded() returns (states: seq<Session>, steps: seq<Step>)
    ensures IsRun(states, steps) && |steps| == 1 && steps[0].Rpc?
    ensures states[0].e.process.status.Running? && states[1].e.process.status.ProcessCompleted?
    ensures forall t :: t in states[1].e.immediate ==> states[1].e.immediate[t] == VisibilityTask(Running)
  {
    var s := Start(0, None, None);
    CallCloses(s);
    hide Enabled, Next, StartExecution;
    steps := [CLOSING];
    states := [s, Next(s, CLOSING)];
  }
}
