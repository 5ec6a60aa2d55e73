/** A timer whose row becomes visible after a larger sequence was loaded, and whose notification finds nothing. */
module SkippedTimers {
  import opened Wrappers
  import opened TimerGates
  import opened TimerQueue
  import opened TimerQueueTheorems

  const LATE := Timer(0, 1)
  const LOADED := Timer(50, 2)
  const PAGE := Load([LOADED], 10, FromUnix(100))

  const START := NEW_QUEUE.(preload := Gate(true, true, 0, false))
  const EXPIRED := NEW_QUEUE.(preload := Gate(false, false, 0, true))
  const PRELOADED := NEW_QUEUE.(
    preload := Gate(true, true, FromUnix(100), false), firing := Gate(true, true, FromUnix(50), false),
    maxSequence := 2, window := 100, heap := multiset{LOADED})
  const NOTIFIED := PRELOADED.(channel := [[0]])
  const ASKED := PRELOADED.(pending := [[0]], trigger := Gate(true, true, 0, false))
  const TRIGGERED := PRELOADED.(pending := [[0]], trigger := Gate(false, false, 0, true))
  const POLLED := PRELOADED.(trigger := Gate(false, false, 0, false))

  const ROWS := {LOADED}
  const MORE_ROWS := {LOADED, LATE}
  const NOTHING_LOADED: multiset<Timer> := multiset{}

  const T0 := System(START, ROWS, 0, NOTHING_LOADED, 0)
  const T1 := System(EXPIRED, ROWS, 0, NOTHING_LOADED, 0)
  const T2 := System(PRELOADED, ROWS, 0, multiset{LOADED}, 0)
  const T3 := System(PRELOADED, MORE_ROWS, 0, multiset{LOADED}, 0)
  const T4 := System(NOTIFIED, MORE_ROWS, 0, multiset{LOADED}, 0)
  const T5 := System(ASKED, MORE_ROWS, 0, multiset{LOADED}, 0)
  const T6 := System(TRIGGERED, MORE_ROWS, 0, multiset{LOADED}, 0)
  const T7 := System(POLLED, MORE_ROWS, 0, multiset{LOADED}, 0)

  lemma Preloads()
    ensures Steps(T1, OnPreload(Some(PAGE)), T2)
  {
    var s := EXPIRED.(preload := Consumed(EXPIRED.preload));
    assert Drained(s, []) == s;
    assert PAGE.page[0] == LOADED && multiset(PAGE.page) == multiset{LOADED};
    assert FirstPage(ROWS, ToUnix(PAGE.maxWindowTime), 10, PAGE.page);
    assert IsMaxSequence(PAGE.page, 2) by { assert LOADED in PAGE.page; }
    assert Loads(s, PRELOADED, PAGE.page, 10, PAGE.maxWindowTime);
  }

  lemma Asks()
    ensures Steps(T4, OnNotified, T5)
  {
    assert [0][..0] == [] && [[0]][..0] == [];
    assert Within([0], 100) == [0];
    assert Accepted([[0]], 100) == [[0]];
    assert MinOf([0]) == 0;
    assert Earliest([[0]]) == 0;
  }

  lemma PollFindsNothing()
    ensures Steps(T6, OnTrigger([]), T7)
  {
    assert TimersFor(MORE_ROWS, [[0]], 3, []);
    assert PRELOADED.heap + multiset([]) == PRELOADED.heap;
  }

  lemma Waits()
    ensures IsStart(T0) && Steps(T0, ExpirePreload, T1) && Steps(T2, ChangeRows(MORE_ROWS), T3)
    ensures Steps(T3, Notify([0]), T4) && Steps(T5, ExpireTrigger, T6)
  {
  }

  /**
   The poll that the notification triggered is over, and the timer, stored and due, is not in the heap, was
   not sent, and no gate but the next preload's will look for it.
   */
  lemma NotifiedTimerIsSkipped() returns (systems: seq<System>, events: seq<Event>)
    ensures IsRun(systems, events) && |events| == 7
    ensures events[3] == Notify([LATE.fireTime]) && LATE in systems[3].rows && events[6].OnTrigger?
    ensures var sys := systems[7];
      && LATE in sys.rows && FromUnix(LATE.fireTime) <= sys.now && LATE.fireTime <= sys.q.window
      && LATE !in sys.q.heap && sys.q.sent == [] && sys.q.pending == [] && sys.q.channel == []
      && !Covers(sys.q.trigger, FromUnix(49)) && !Covers(sys.q.firing, FromUnix(49))
  {
    hide Steps, IsStart;
    Waits();
    Preloads();
    Asks();
    PollFindsNothing();
    events := [ExpirePreload, OnPreload(Some(PAGE)), ChangeRows(MORE_ROWS), Notify([0]), OnNotified, ExpireTrigger,
               OnTrigger([])];
    systems := [T0, T1, T2, T3, T4, T5, T6, T7];
    forall n | 0 <= n < |events| ensures Steps(systems[n], events[n], systems[n + 1]) {
      assert n in {0, 1, 2, 3, 4, 5, 6};
    }
  }
}
