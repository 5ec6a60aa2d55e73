/** The rows of one process execution as a database transaction sees and changes them. */
module Tables {
  import opened Wrappers
  import opened StateExecutionIds
  import opened LocalQueues
  import opened ProcessModel

  class Transaction {
    var process: ProcessRow
    var states: map<StateExecutionId, StateRow>
    var immediate: map<int, ImmediateTask>
    var timers: map<int, TimerTask>
    var messages: map<DedupId, MessageRow>
    var next: int

    function Rows(): Execution
      reads this
    {
      Execution(process, states, immediate, timers, messages, next)
    }

    constructor (e: Execution)
      ensures Rows() == e
    {
      process, states, immediate, timers, messages, next :=
        e.process, e.states, e.immediate, e.timers, e.messages, e.next;
    }

    /** Undoes everything since the transaction started from `before`. */
    method Rollback(before: Execution)
      modifies this
      ensures Rows() == before
    {
      process, states, immediate, timers, messages, next :=
        before.process, before.states, before.immediate, before.timers, before.messages, before.next;
    }

    method UpdateProcessExecution(row: ProcessRow)
      modifies this`process
      ensures process == row
    {
      process := row;
    }

    /** Fails when the primary key is taken. */
    method InsertAsyncStateExecution(sid: StateExecutionId, row: StateRow) returns (ok: bool)
      modifies this`states
      ensures ok <==> sid !in old(states)
      ensures Rows() == if ok then SetRow(old(Rows()), sid, row) else old(Rows())
    {
      if sid in states {
        return false;
      }
      states := states[sid := row];
      return true;
    }

    /** Writes the whole row, if its version is still the one that was read. */
    method UpdateAsyncStateExecution(sid: StateExecutionId, row: StateRow) returns (ok: bool)
      modifies this`states
      ensures ok <==> sid in old(states) && old(states)[sid].version == row.version
      ensures Rows() == if ok then SetRow(old(Rows()), sid, row.(version := row.version + 1)) else old(Rows())
    {
      if sid !in states || states[sid].version != row.version {
        return false;
      }
      states := states[sid := row.(version := row.version + 1)];
      return true;
    }

    /** Writes status and failure only, if the version is still the one that was read. */
    method UpdateAsyncStateExecutionWithoutCommands(
      sid: StateExecutionId, previousVersion: int, status: StateStatus, failure: Option<Failure>) returns (ok: bool)
      modifies this`states
      ensures ok <==> UpdateWithoutCommands(old(Rows()), sid, previousVersion, status, failure).Some?
      ensures Rows() == if ok then UpdateWithoutCommands(old(Rows()), sid, previousVersion, status, failure).value
                        else old(Rows())
    {
      if sid !in states || states[sid].version != previousVersion {
        return false;
      }
      states :=
        states[sid := states[sid].(status := status, version := previousVersion + 1, lastFailure := failure)];
      return true;
    }

    /** The rows still active become aborted at their next version; every other row, and every key, stays. */
    method BatchUpdateAsyncStateExecutionsToAbortRunning()
      modifies this`states
      ensures states.Keys == old(states).Keys
      ensures forall sid :: sid in states ==>
                var row := old(states)[sid];
                && (row.status in {WaitUntilRunning, WaitUntilWaiting, ExecuteRunning} ==>
                      states[sid] == row.(status := StateAborted, version := row.version + 1))
                && (row.status !in {WaitUntilRunning, WaitUntilWaiting, ExecuteRunning} ==> states[sid] == row)
      ensures states == AbortRunning(old(states))
    {
      states := AbortRunning(states);
    }

    method InsertImmediateTask(task: ImmediateTask)
      modifies this`immediate, this`next
      ensures Rows() == InsertImmediate(old(Rows()), task)
    {
      immediate, next := immediate[next := task], next + 1;
    }

    method InsertTimerTask(task: TimerTask)
      modifies this`timers, this`next
      ensures Rows() == InsertTimer(old(Rows()), task)
    {
      timers, next := timers[next := task], next + 1;
    }

    method DeleteImmediateTask(task: int)
      modifies this`immediate
      ensures Rows() == DeleteImmediate(old(Rows()), task)
    {
      immediate := immediate - {task};
    }

    method DeleteTimerTask(timer: int)
      modifies this`timers
      ensures Rows() == DeleteTimer(old(Rows()), timer)
    {
      timers := timers - {timer};
    }

    /** Inserts nothing when the dedup id is there already. */
    method InsertLocalQueueMessage(m: PublishedMessage) returns (inserted: bool)
      modifies this`messages
      ensures inserted <==> m.dedupId !in old(messages)
      ensures messages == if inserted then old(messages)[m.dedupId := MessageRow(m.queue, m.payload)] else old(messages)
    {
      if m.dedupId in messages {
        return false;
      }
      messages := messages[m.dedupId := MessageRow(m.queue, m.payload)];
      return true;
    }
  }
}
