/**
 The matching of first-in-first-out messages to the counted commands that waiting state
 executions have registered: the value the process row stores, and what each operation on it
 does.  The program iterates Go maps, whose order is arbitrary; here every such order is an
 argument, so a statement for all arguments is a statement for every order.
 */
module LocalQueues {
  import opened Collections
  import opened StateExecutionIds

  type QueueName = string
  type DedupId = string

  /** A request for `count` messages of one queue; a count of 0 stands for an absent count. */
  datatype Command = Command(queue: QueueName, count: nat)

  datatype WaitingType = EmptyCommand | AnyOfCompletion | AllOfCompletion

  type Commands = map<StateExecutionId, map<int, Command>>
  type Unconsumed = map<QueueName, seq<DedupId>>

  datatype Queues = Queues(commands: Commands, unconsumed: Unconsumed)

  const NO_QUEUES := Queues(map[], map[])

  function Waiting(u: Unconsumed, q: QueueName): seq<DedupId> {
    if q in u then u[q] else []
  }

  /** A queue that runs empty loses its entry. */
  function SetQueue(u: Unconsumed, q: QueueName, ids: seq<DedupId>): Unconsumed {
    if ids == [] then u - {q} else u[q := ids]
  }

  function CommandsOf(s: Queues, sid: StateExecutionId): map<int, Command> {
    if sid in s.commands then s.commands[sid] else map[]
  }

  /** State `sid` has registered command `i`, which asks for messages of `q`. */
  predicate Registered(s: Queues, sid: StateExecutionId, i: int) {
    sid in s.commands && i in s.commands[sid]
  }

  // ---------- registering ----------

  function Normalize(c: Command): Command {
    if c.count == 0 then c.(count := 1) else c
  }

  function AddCommands(s: Queues, sid: StateExecutionId, cs: seq<Command>): Queues {
    s.(commands := s.commands[sid := CommandsOf(s, sid) + (map i | 0 <= i < |cs| :: Normalize(cs[i]))])
  }

  function Cleanup(s: Queues, sid: StateExecutionId): Queues {
    s.(commands := s.commands - {sid})
  }

  // ---------- one message arrives ----------

  function Append(s: Queues, q: QueueName, id: DedupId): Queues {
    s.(unconsumed := s.unconsumed[q := Waiting(s.unconsumed, q) + [id]])
  }

  /** The command asks for no more messages than its queue holds. */
  predicate Fits(s: Queues, sid: StateExecutionId, i: int) {
    Registered(s, sid, i) &&
    s.commands[sid][i].count <= |Waiting(s.unconsumed, s.commands[sid][i].queue)|
  }

  function Consume(s: Queues, sid: StateExecutionId, i: int): (Queues, seq<DedupId>)
    requires Fits(s, sid, i)
  {
    var c := s.commands[sid][i];
    var ids := Waiting(s.unconsumed, c.queue);
    var rest := s.commands[sid] - {i};
    (Queues(if rest == map[] then s.commands - {sid} else s.commands[sid := rest],
            SetQueue(s.unconsumed, c.queue, ids[c.count..])),
     ids[..c.count])
  }

  /** Which command takes the messages: the first that fits, in whatever order the maps are iterated. */
  datatype Pick = Nobody | Picked(sid: StateExecutionId, index: int)

  ghost predicate ValidPick(s: Queues, q: QueueName, pick: Pick) {
    match pick
    case Nobody => forall sid, i :: Fits(s, sid, i) ==> s.commands[sid][i].queue != q
    case Picked(sid, i) => Fits(s, sid, i) && s.commands[sid][i].queue == q
  }

  function AddMessage(s: Queues, q: QueueName, id: DedupId, pick: Pick): (Queues, seq<DedupId>) {
    var appended := Append(s, q, id);
    if pick.Picked? && Fits(appended, pick.sid, pick.index) then Consume(appended, pick.sid, pick.index)
    else (appended, [])
  }

  // ---------- a state that has just registered consumes what is already there ----------

  datatype Progress = Progress(
    unconsumed: Unconsumed,
    remaining: map<int, Command>,
    consumed: map<int, seq<DedupId>>,
    stopped: bool)

  /** The visited command is left for later. */
  predicate Skipped(p: Progress, c: Command) {
    p.stopped || c.queue !in p.unconsumed || c.count > |p.unconsumed[c.queue]|
  }

  function Visit(p: Progress, i: int, c: Command, w: WaitingType): Progress {
    if Skipped(p, c) then
      p.(remaining := p.remaining[i := c])
    else
      var ids := p.unconsumed[c.queue];
      Progress(SetQueue(p.unconsumed, c.queue, ids[c.count..]),
               p.remaining, p.consumed[i := ids[..c.count]], w == AnyOfCompletion)
  }

  function VisitAll(cmds: map<int, Command>, u: Unconsumed, w: WaitingType, order: seq<int>): Progress
    requires forall i :: i in order ==> i in cmds
  {
    if order == [] then Progress(u, map[], map[], false)
    else
      var last := order[|order| - 1];
      Visit(VisitAll(cmds, u, w, order[..|order| - 1]), last, cmds[last], w)
  }

  ghost predicate IsOrder<T(!new)>(order: seq<T>, keys: set<T>) {
    (forall k :: k in order <==> k in keys) &&
    (forall i, j :: 0 <= i < j < |order| ==> order[i] != order[j])
  }

  /** The commands the loop left over are stored back, unless it consumed nothing. */
  function StoreBack(s: Queues, sid: StateExecutionId, w: WaitingType, p: Progress): Queues {
    if |p.remaining| == |CommandsOf(s, sid)| then s.(unconsumed := p.unconsumed)
    else if p.remaining == map[] || w == AnyOfCompletion then Queues(s.commands - {sid}, p.unconsumed)
    else Queues(s.commands[sid := p.remaining], p.unconsumed)
  }

  function TryConsume(s: Queues, sid: StateExecutionId, w: WaitingType, order: seq<int>)
    : (Queues, map<int, seq<DedupId>>)
    requires IsOrder(order, CommandsOf(s, sid).Keys)
  {
    var p := VisitAll(CommandsOf(s, sid), s.unconsumed, w, order);
    (StoreBack(s, sid, w, p), p.consumed)
  }

  // ---------- the operations in place ----------

  lemma OrderGrows<T(!new)>(order: seq<T>, keys: set<T>, k: T)
    requires IsOrder(order, keys) && k !in keys
    ensures IsOrder(order + [k], keys + {k})
  {
    assert forall x :: x in order + [k] <==> x in order || x == k;
  }

  lemma VisitAllGrows(cmds: map<int, Command>, u: Unconsumed, w: WaitingType, order: seq<int>, i: int)
    requires i in cmds && forall k :: k in order ==> k in cmds
    ensures forall k :: k in order + [i] ==> k in cmds
    ensures VisitAll(cmds, u, w, order + [i]) == Visit(VisitAll(cmds, u, w, order), i, cmds[i], w)
  {
    assert (order + [i])[..|order|] == order;
  }

  class StateExecutionLocalQueues {
    var stateToLocalQueueCommandsMap: Commands
    var unconsumedLocalQueueMessages: Unconsumed

    function State(): Queues
      reads this
    {
      Queues(stateToLocalQueueCommandsMap, unconsumedLocalQueueMessages)
    }

    constructor (queues: Queues)
      ensures State() == queues
    {
      stateToLocalQueueCommandsMap := queues.commands;
      unconsumedLocalQueueMessages := queues.unconsumed;
    }

    method AddNewLocalQueueCommands(sid: StateExecutionId, cs: seq<Command>)
      modifies this
      ensures State() == AddCommands(old(State()), sid, cs)
    {
      ghost var was := CommandsOf(State(), sid);
      if sid !in stateToLocalQueueCommandsMap {
        stateToLocalQueueCommandsMap := stateToLocalQueueCommandsMap[sid := map[]];
      }
      for idx := 0 to |cs|
        invariant unconsumedLocalQueueMessages == old(unconsumedLocalQueueMessages)
        invariant sid in stateToLocalQueueCommandsMap
        invariant stateToLocalQueueCommandsMap[sid] == was + (map i | 0 <= i < idx :: Normalize(cs[i]))
        invariant stateToLocalQueueCommandsMap - {sid} == old(stateToLocalQueueCommandsMap) - {sid}
      {
        var command := cs[idx];
        if command.count == 0 {
          command := command.(count := 1);
        }
        stateToLocalQueueCommandsMap :=
          stateToLocalQueueCommandsMap[sid := stateToLocalQueueCommandsMap[sid][idx := command]];
        assert command == Normalize(cs[idx]);
      }
      assert stateToLocalQueueCommandsMap
          == (stateToLocalQueueCommandsMap - {sid})[sid := stateToLocalQueueCommandsMap[sid]];
      assert AddCommands(old(State()), sid, cs).commands
          == (old(stateToLocalQueueCommandsMap) - {sid})[sid := stateToLocalQueueCommandsMap[sid]];
    }

    /** Cuts the first `count` messages off a queue, and drops the queue's entry when none are left. */
    method TakeFrom(q: QueueName, count: nat) returns (ids: seq<DedupId>)
      requires q in unconsumedLocalQueueMessages && count <= |unconsumedLocalQueueMessages[q]|
      modifies this`unconsumedLocalQueueMessages
      ensures ids == old(unconsumedLocalQueueMessages)[q][..count]
      ensures unconsumedLocalQueueMessages
           == SetQueue(old(unconsumedLocalQueueMessages), q, old(unconsumedLocalQueueMessages)[q][count..])
    {
      ids := unconsumedLocalQueueMessages[q][..count];
      unconsumedLocalQueueMessages :=
        unconsumedLocalQueueMessages[q := unconsumedLocalQueueMessages[q][count..]];
      if |unconsumedLocalQueueMessages[q]| == 0 {
        unconsumedLocalQueueMessages := unconsumedLocalQueueMessages - {q};
      }
    }

    /** Removes one command, and the state's entry when it was the last one. */
    method RemoveCommand(sid: StateExecutionId, i: int)
      requires Registered(State(), sid, i)
      modifies this`stateToLocalQueueCommandsMap
      ensures var rest := old(stateToLocalQueueCommandsMap)[sid] - {i};
        stateToLocalQueueCommandsMap == if rest == map[] then old(stateToLocalQueueCommandsMap) - {sid}
                                        else old(stateToLocalQueueCommandsMap)[sid := rest]
    {
      stateToLocalQueueCommandsMap :=
        stateToLocalQueueCommandsMap[sid := stateToLocalQueueCommandsMap[sid] - {i}];
      if |stateToLocalQueueCommandsMap[sid]| == 0 {
        stateToLocalQueueCommandsMap := stateToLocalQueueCommandsMap - {sid};
      }
    }

    method AddMessageAndTryConsume(q: QueueName, id: DedupId) returns (pick: Pick, ids: seq<DedupId>)
      modifies this
      ensures ValidPick(Append(old(State()), q, id), q, pick)
      ensures (State(), ids) == AddMessage(old(State()), q, id, pick)
    {
      unconsumedLocalQueueMessages :=
        unconsumedLocalQueueMessages[q := Waiting(unconsumedLocalQueueMessages, q) + [id]];
      ghost var appended := State();
      var sids := stateToLocalQueueCommandsMap.Keys;
      while sids != {}
        invariant State() == appended
        invariant sids <= stateToLocalQueueCommandsMap.Keys
        invariant forall sid, i :: Fits(appended, sid, i) && sid !in sids ==> appended.commands[sid][i].queue != q
      {
        var sid :| sid in sids;
        var indices := stateToLocalQueueCommandsMap[sid].Keys;
        while indices != {}
          invariant State() == appended
          invariant indices <= stateToLocalQueueCommandsMap[sid].Keys
          invariant forall i :: Fits(appended, sid, i) && i !in indices ==> appended.commands[sid][i].queue != q
        {
          HasElement(indices);
          var i :| i in indices;
          indices := indices - {i};
          var command := stateToLocalQueueCommandsMap[sid][i];
          if command.queue != q || command.count > |unconsumedLocalQueueMessages[q]| {
            continue;
          }
          ids := TakeFrom(q, command.count);
          RemoveCommand(sid, i);
          return Picked(sid, i), ids;
        }
        sids := sids - {sid};
      }
      return Nobody, [];
    }

    /** The consuming loop: visits the commands in map order, which is arbitrary. */
    method VisitCommands(cmds: map<int, Command>, w: WaitingType)
      returns (remaining: map<int, Command>, consumed: map<int, seq<DedupId>>, ghost order: seq<int>)
      modifies this`unconsumedLocalQueueMessages
      ensures IsOrder(order, cmds.Keys)
      ensures exists stopped :: VisitAll(cmds, old(unconsumedLocalQueueMessages), w, order)
                             == Progress(unconsumedLocalQueueMessages, remaining, consumed, stopped)
    {
      remaining, consumed := map[], map[];
      var stopConsume := false;
      var indices := cmds.Keys;
      order := [];
      while indices != {}
        invariant indices <= cmds.Keys
        invariant IsOrder(order, cmds.Keys - indices)
        invariant VisitAll(cmds, old(unconsumedLocalQueueMessages), w, order)
               == Progress(unconsumedLocalQueueMessages, remaining, consumed, stopConsume)
      {
        HasElement(indices);
        var i :| i in indices;
        OrderGrows(order, cmds.Keys - indices, i);
        VisitAllGrows(cmds, old(unconsumedLocalQueueMessages), w, order, i);
        assert cmds.Keys - indices + {i} == cmds.Keys - (indices - {i});
        indices := indices - {i};
        order := order + [i];
        var command := cmds[i];
        if stopConsume || command.queue !in unconsumedLocalQueueMessages
           || command.count > |unconsumedLocalQueueMessages[command.queue]| {
          remaining := remaining[i := command];
          continue;
        }
        var ids := TakeFrom(command.queue, command.count);
        consumed := consumed[i := ids];
        if w == AnyOfCompletion {
          stopConsume := true;
        }
      }
    }

    method TryConsumeForStateExecution(sid: StateExecutionId, w: WaitingType)
      returns (consumed: map<int, seq<DedupId>>, ghost order: seq<int>)
      modifies this
      ensures IsOrder(order, CommandsOf(old(State()), sid).Keys)
      ensures (State(), consumed) == TryConsume(old(State()), sid, w, order)
    {
      var cmds := CommandsOf(State(), sid);
      var remaining;
      remaining, consumed, order := VisitCommands(cmds, w);
      if |remaining| == |cmds| {
        return;
      }
      RemovingAgain(stateToLocalQueueCommandsMap, sid, remaining);
      KeepRemaining(sid, remaining);
      if w == AnyOfCompletion {
        CleanupFor(sid);
      }
    }

    /** Replaces a state's commands by those that found too few messages. */
    method KeepRemaining(sid: StateExecutionId, remaining: map<int, Command>)
      modifies this`stateToLocalQueueCommandsMap
      ensures stateToLocalQueueCommandsMap == if remaining == map[] then old(stateToLocalQueueCommandsMap) - {sid}
                                              else old(stateToLocalQueueCommandsMap)[sid := remaining]
    {
      stateToLocalQueueCommandsMap := stateToLocalQueueCommandsMap[sid := remaining];
      if |stateToLocalQueueCommandsMap[sid]| == 0 {
        stateToLocalQueueCommandsMap := stateToLocalQueueCommandsMap - {sid};
      }
    }

    method CleanupFor(sid: StateExecutionId)
      modifies this
      ensures State() == Cleanup(old(State()), sid)
    {
      stateToLocalQueueCommandsMap := stateToLocalQueueCommandsMap - {sid};
    }
  }
}
