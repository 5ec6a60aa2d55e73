/** The per-process counters of state executions and the set of those still pending. */
module SequenceMaps {
  import opened Wrappers
  import opened Collections
  import opened StateExecutionIds

  /** `pending[stateId]` holds the sequences the program maps to true; it never stores a false. */
  datatype SequenceMaps = SequenceMaps(sequence: map<string, int>, pending: map<string, set<int>>)

  const NEW_SEQUENCE_MAPS := SequenceMaps(map[], map[])

  function LastSequence(m: SequenceMaps, stateId: string): int {
    if stateId in m.sequence then m.sequence[stateId] else 0
  }

  predicate IsPending(m: SequenceMaps, sid: StateExecutionId) {
    sid.stateId in m.pending && sid.sequence in m.pending[sid.stateId]
  }

  /** The program's test for "no state is pending": the outer map is empty. */
  predicate NonePending(m: SequenceMaps) {
    |m.pending| == 0
  }

  function StartNew(m: SequenceMaps, stateId: string): (SequenceMaps, int) {
    var s := LastSequence(m, stateId) + 1;
    var already := if stateId in m.pending then m.pending[stateId] else {};
    (SequenceMaps(m.sequence[stateId := s], m.pending[stateId := already + {s}]), s)
  }

  /** None: the state execution is not pending. */
  function CompleteNew(m: SequenceMaps, sid: StateExecutionId): Option<SequenceMaps> {
    if !IsPending(m, sid) then None
    else
      var rest := m.pending[sid.stateId] - {sid.sequence};
      Some(m.(pending := if |rest| == 0 then m.pending - {sid.stateId} else m.pending[sid.stateId := rest]))
  }

  // ---------- what the maps keep ----------

  /** Counters are not negative, no inner map is empty, and pending sequences have been handed out. */
  ghost predicate WellFormed(m: SequenceMaps) {
    && (forall id :: id in m.sequence ==> 0 <= m.sequence[id])
    && (forall id :: id in m.pending ==> m.pending[id] != {})
    && (forall sid :: IsPending(m, sid) ==> 1 <= sid.sequence <= LastSequence(m, sid.stateId))
  }

  /** A started state execution was never started before, and it is the one that becomes pending. */
  lemma StartNewIsFresh(m: SequenceMaps, stateId: string)
    requires WellFormed(m)
    ensures var (m', s) := StartNew(m, stateId);
      && WellFormed(m')
      && s == LastSequence(m, stateId) + 1 && !IsPending(m, StateExecutionId(stateId, s))
      && (forall id :: LastSequence(m', id) == if id == stateId then s else LastSequence(m, id))
      && (forall sid :: IsPending(m', sid) <==> IsPending(m, sid) || sid == StateExecutionId(stateId, s))
      && !NonePending(m')
  {
    var (m', s) := StartNew(m, stateId);
    assert s in m'.pending[stateId];
    assert stateId in m'.pending.Keys;
    assert forall sid :: IsPending(m', sid) ==> IsPending(m, sid) || sid == StateExecutionId(stateId, s);
  }

  /** Completing succeeds exactly for a pending state execution, and takes that one alone out. */
  lemma CompleteNewRemovesOne(m: SequenceMaps, sid: StateExecutionId)
    requires WellFormed(m)
    ensures CompleteNew(m, sid).Some? <==> IsPending(m, sid)
    ensures CompleteNew(m, sid).Some? ==>
              var m' := CompleteNew(m, sid).value;
              && WellFormed(m') && m'.sequence == m.sequence
              && (forall other :: IsPending(m', other) <==> IsPending(m, other) && other != sid)
  {
    if IsPending(m, sid) {
      var m' := CompleteNew(m, sid).value;
      var rest := m.pending[sid.stateId] - {sid.sequence};
      forall other | IsPending(m, other) && other != sid ensures IsPending(m', other) {
        if other.stateId == sid.stateId {
          assert other.sequence in rest;
        }
      }
    }
  }

  /** The length-zero test means that no state execution is pending. */
  lemma NonePendingIsExact(m: SequenceMaps)
    requires WellFormed(m)
    ensures NonePending(m) <==> forall sid :: !IsPending(m, sid)
  {
    if !NonePending(m) {
      assert m.pending.Keys != {};
      var id :| id in m.pending.Keys;
      HasElement(m.pending[id]);
      var s :| s in m.pending[id];
      assert IsPending(m, StateExecutionId(id, s));
    } else {
      assert m.pending.Keys == {};
      forall sid ensures !IsPending(m, sid) {
        assert sid.stateId !in m.pending.Keys;
      }
    }
  }

  // ---------- the operations in place ----------

  class StateExecutionSequenceMaps {
    var sequenceMap: map<string, int>
    var pendingExecutionMap: map<string, set<int>>

    function State(): SequenceMaps
      reads this
    {
      SequenceMaps(sequenceMap, pendingExecutionMap)
    }

    constructor (maps: SequenceMaps)
      ensures State() == maps
    {
      sequenceMap, pendingExecutionMap := maps.sequence, maps.pending;
    }

    method StartNewStateExecution(stateId: string) returns (seqId: int)
      modifies this
      ensures (State(), seqId) == StartNew(old(State()), stateId)
    {
      sequenceMap := sequenceMap[stateId := (if stateId in sequenceMap then sequenceMap[stateId] else 0) + 1];
      seqId := sequenceMap[stateId];
      var stateMap;
      if stateId in pendingExecutionMap {
        stateMap := pendingExecutionMap[stateId] + {seqId};
      } else {
        stateMap := {seqId};
        assert {} + {seqId} == {seqId};
      }
      pendingExecutionMap := pendingExecutionMap[stateId := stateMap];
    }

    /** Fails, changing nothing, when the state execution is not pending. */
    method CompleteNewStateExecution(sid: StateExecutionId) returns (ok: bool)
      modifies this
      ensures ok <==> CompleteNew(old(State()), sid).Some?
      ensures State() == if ok then CompleteNew(old(State()), sid).value else old(State())
    {
      if sid.stateId !in pendingExecutionMap || sid.sequence !in pendingExecutionMap[sid.stateId] {
        return false;
      }
      RemovingAgain(pendingExecutionMap, sid.stateId, pendingExecutionMap[sid.stateId] - {sid.sequence});
      var pendingMap := pendingExecutionMap[sid.stateId] - {sid.sequence};
      pendingExecutionMap := pendingExecutionMap[sid.stateId := pendingMap];
      if |pendingMap| == 0 {
        pendingExecutionMap := pendingExecutionMap - {sid.stateId};
      }
      return true;
    }
  }
}
