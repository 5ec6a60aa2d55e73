/** A timer that is loaded again in the very handler that has just sent it, its row not yet deleted. */
module ResentTimers {
  import opened Wrappers
  import opened TimerGates
  import opened TimerQueue
  import opened TimerQueueTheorems
  import opened TimerDeliveries
  import opened SkippedTimers

  const LATER := FromUnix(100)
  const SENDING := Sending(LOADED, LATER)
  const NEXT_PAGE := Load([LOADED], 10, FromUnix(200))

  const PRELOAD_EXPIRED := PRELOADED.(preload := Gate(false, false, LATER, true))
  const BOTH_EXPIRED := PRELOAD_EXPIRED.(firing := Gate(false, false, FromUnix(50), true))
  const SENT_ALL := BOTH_EXPIRED.(
    firing := Gate(false, false, FromUnix(50), false), heap := multiset{}, sent := [SENDING])
  const LOADED_AGAIN := SENT_ALL.(
    preload := Gate(true, true, FromUnix(200), true), firing := Gate(true, true, FromUnix(50), false), window := 200,
    heap := multiset{LOADED})
  const EXPIRED_AGAIN := LOADED_AGAIN.(firing := Gate(false, false, FromUnix(50), true))
  const SENT_TWICE := EXPIRED_AGAIN.(
    firing := Gate(false, false, FromUnix(50), false), heap := multiset{}, sent := [SENDING, SENDING])

  const R3 := System(PRELOADED, ROWS, LATER, multiset{LOADED}, 0)
  const R4 := System(PRELOAD_EXPIRED, ROWS, LATER, multiset{LOADED}, 0)
  const R5 := System(BOTH_EXPIRED, ROWS, LATER, multiset{LOADED}, 0)
  const R6 := System(LOADED_AGAIN, ROWS, LATER, multiset{LOADED}, 1)
  const R7 := System(EXPIRED_AGAIN, ROWS, LATER, multiset{LOADED}, 1)
  const R8 := System(SENT_TWICE, ROWS, LATER, multiset{LOADED}, 1)

  const FIRES := OnFiring([SENDING], LATER, Some(NEXT_PAGE))
  const FIRES_AGAIN := OnFiring([SENDING], LATER, None)

  lemma SendsAll(s: QueueState)
    requires s.heap == multiset{LOADED}
    ensures Sends(s, s.(heap := multiset{}, sent := s.sent + [SENDING]), [SENDING], LATER)
  {
    assert TimersOf([SENDING]) == [LOADED];
    assert multiset([LOADED]) == multiset{LOADED};
  }

  lemma LoadsAgain()
    ensures MayLoad(ROWS, SENT_ALL, LOADED_AGAIN, Some(NEXT_PAGE))
  {
    assert Drained(SENT_ALL, []) == SENT_ALL;
    assert NEXT_PAGE.page[0] == LOADED && multiset(NEXT_PAGE.page) == multiset{LOADED};
    assert FirstPage(ROWS, ToUnix(NEXT_PAGE.maxWindowTime), 10, NEXT_PAGE.page);
    assert IsMaxSequence(NEXT_PAGE.page, 2) by { assert LOADED in NEXT_PAGE.page; }
    assert Loads(SENT_ALL, LOADED_AGAIN, NEXT_PAGE.page, 10, NEXT_PAGE.maxWindowTime);
  }

  lemma SendsAndLoadsAgain()
    ensures SendsAndLoads(ROWS, BOTH_EXPIRED.(firing := Consumed(BOTH_EXPIRED.firing)), LOADED_AGAIN, [SENDING], LATER,
                          Some(NEXT_PAGE))
  {
    var s := BOTH_EXPIRED.(firing := Consumed(BOTH_EXPIRED.firing));
    SendsAll(s);
    assert [] + [SENDING] == [SENDING];
    assert s.(heap := multiset{}, sent := s.sent + [SENDING]) == SENT_ALL;
    hide Sends, MayLoad;
    LoadsAgain();
  }

  lemma Fires()
    ensures Steps(R5, FIRES, R6)
  {
    SendsAndLoadsAgain();
    assert multiset(NEXT_PAGE.page) == multiset{LOADED};
    hide SendsAndLoads;
  }

  lemma FiresAgain()
    ensures Steps(R7, FIRES_AGAIN, R8)
  {
    var s := EXPIRED_AGAIN.(firing := Consumed(EXPIRED_AGAIN.firing));
    SendsAll(s);
    assert [SENDING] + [SENDING] == [SENDING, SENDING];
    assert s.(heap := multiset{}, sent := s.sent + [SENDING]) == SENT_TWICE;
    hide Sends;
    assert MayLoad(ROWS, SENT_TWICE, SENT_TWICE, None);
    assert SendsAndLoads(ROWS, s, SENT_TWICE, [SENDING], LATER, None);
  }

  lemma Expires()
    ensures Steps(T2, Tick(LATER), R3) && Steps(R3, ExpirePreload, R4)
    ensures Steps(R4, ExpireFiring, R5) && Steps(R6, ExpireFiring, R7)
  {
  }

  /** Sent, loaded by the preload that follows in the same handler, and sent again; the row was stored all along. */
  lemma TimerIsSentTwice() returns (systems: seq<System>, events: seq<Event>)
    ensures IsRun(systems, events) && |events| == 8
    ensures forall n :: 0 <= n <= 8 ==> systems[n].rows == ROWS
    ensures TimesSent(systems[8].q, LOADED) == 2 && LoadedTwice(systems, events, LOADED, 8)
  {
    hide Steps, IsStart;
    Waits();
    Preloads();
    Expires();
    Fires();
    FiresAgain();
    events := [ExpirePreload, OnPreload(Some(PAGE)), Tick(LATER), ExpirePreload, ExpireFiring, FIRES, ExpireFiring,
               FIRES_AGAIN];
    systems := [T0, T1, T2, R3, R4, R5, R6, R7, R8];
    forall n | 0 <= n < |events| ensures Steps(systems[n], events[n], systems[n + 1]) {
      assert n in {0, 1, 2, 3, 4, 5, 6, 7};
    }
    assert TimersOf([SENDING, SENDING]) == [LOADED, LOADED];
    assert LOADED in LoadedBy(systems[1], events[1]) && LOADED in LoadedBy(systems[5], events[5]);
  }
}
