/** Two holders of one prepared read, who both ask for its transaction. */
module SecondHolders {
  import opened Wrappers
  import opened ProcessModel
  import opened Transactions
  import opened Sessions
  import opened RunTheorems
  import opened StaleWaits

  const RESPONSE := WaitUntil(READ0, EMPTY_REQUEST, [], CLOCK, [])

  lemma ResponseCommits()
    ensures Enabled(S1, RESPONSE) && Commits(S1, RESPONSE)
    ensures Next(S1, RESPONSE).e.process.status.Running? && Next(S1, RESPONSE).preps == S1.preps
  {
    assert Publish(CompleteWaitUntil(E0, A1, 1).value, []) == CompleteWaitUntil(E0, A1, 1).value;
    assert {READ0} + {} == {READ0};
  }

  /** Both respond without commands, on a running process: the fence takes the first response and refuses the second. */
  lemma SecondHolderIsRefused() returns (states: seq<Session>, steps: seq<Step>)
    ensures IsRun(states, steps) && |steps| == 3 && steps[1] == steps[2] && Fenced(steps[1])
    ensures states[1].e.process.status.Running? && states[2].e.process.status.Running?
    ensures Commits(states[1], steps[1]) && !Commits(states[2], steps[2])
    ensures states[1].e != states[2].e && states[3] == states[2]
  {
    TerminatedStarts();
    TerminatedBegins();
    ResponseCommits();
    var s2 := Next(S1, RESPONSE);
    steps := [Prepare(0), RESPONSE, RESPONSE];
    states := [S0, S1, s2, Next(s2, RESPONSE)];
    assert states[0] == Start(0, Some(NextState("a", false)), None);
    assert Goes(S0, Prepare(0), S1);
    hide Effect, StartExecution;
    assert IsRun(states, steps);
    AtMostOneCommits(states, steps, 1, 2);
  }
}
