/** When the next preload of the timer queue comes, and that no stored or notified timer is left waiting beyond it. */
module PreloadGates {
  import opened Wrappers
  import opened TimerGates
  import opened TimerQueue
  import opened TimerQueueTheorems

  /** A preload was done by one of the first `n` events. */
  ghost predicate Preloaded(events: seq<Event>, n: nat)
    requires n <= |events|
  {
    exists k :: 0 <= k < n && LoadOf(events[k]).Some?
  }

  /** An armed preload gate wakes in the second in which the window ends. */
  ghost predicate WakesAtTheEnd(q: QueueState) {
    q.preload.armed ==> ToUnix(q.preload.at) == q.window
  }

  // ---------- after a preload ----------

  /** The queue right before a preload, and the preload itself. */
  lemma LoadSource(sys: System, event: Event, q': QueueState) returns (s: QueueState)
    requires NeverStuck(sys.q) && QueueSteps(sys, event, q') && LoadOf(event).Some?
    ensures MayLoad(sys.rows, s, q', LoadOf(event)) && !s.preload.armed && s.heap == multiset{}
  {
    if event.OnFiring? {
      var q := sys.q.(firing := Consumed(sys.q.firing));
      s :| Sends(q, s, event.sendings, event.last) && MayLoad(sys.rows, s, q', event.load);
    } else {
      s := sys.q.(preload := Consumed(sys.q.preload));
    }
    assert |s.heap| == 0;
  }

  /** A full page ends with the last of the first rows; a shorter one holds everything up to the time asked for. */
  lemma BeyondThePage(rows: set<Timer>, load: Load, t: Timer)
    requires FirstPage(rows, ToUnix(load.maxWindowTime), load.size, load.page) && 0 < load.size
    requires t in rows && t !in load.page
    ensures WindowTime(load.page, load.size, load.maxWindowTime) <= FromUnix(t.fireTime)
  {
    var page := load.page;
    if |page| == load.size {
      assert page[|page| - 1] in page;
    }
  }

  lemma LoadCoversStored(rows: set<Timer>, s: QueueState, s': QueueState, load: Load)
    requires MayLoad(rows, s, s', Some(load)) && !s.preload.armed && s.heap == multiset{}
    ensures WakesAtTheEnd(s') && s'.preload.armed
    ensures forall t :: t in rows ==> t in s'.heap || Covers(s'.preload, FromUnix(t.fireTime))
  {
    forall t | t in rows ensures t in s'.heap || Covers(s'.preload, FromUnix(t.fireTime)) {
      if t !in load.page {
        BeyondThePage(rows, load, t);
      }
    }
  }

  /**
   Right after a preload every stored timer is in the heap, or the gate of the next preload wakes no later than
   the timer is due, whether the page was full or not.
   */
  lemma PreloadLeavesNothingUncovered(systems: seq<System>, events: seq<Event>, n: nat)
    requires IsRun(systems, events) && n < |events| && LoadOf(events[n]).Some?
    ensures var q := systems[n + 1].q;
      forall t :: t in systems[n].rows ==> t in q.heap || Covers(q.preload, FromUnix(t.fireTime))
    ensures WakesAtTheEnd(systems[n + 1].q)
  {
    LoopIsNeverStuck(systems, events, n);
    assert Steps(systems[n], events[n], systems[n + 1]);
    hide IsRun, MayLoad, NeverStuck;
    var s := LoadSource(systems[n], events[n], systems[n + 1].q);
    LoadCoversStored(systems[n].rows, s, systems[n + 1].q, LoadOf(events[n]).value);
  }

  lemma OtherStepsKeepTheEnd(sys: System, event: Event, sys': System)
    requires Steps(sys, event, sys') && LoadOf(event).None? && WakesAtTheEnd(sys.q)
    ensures WakesAtTheEnd(sys'.q)
  {
  }

  /** From the first preload on, an armed preload gate never wakes later than the end of the current window. */
  lemma {:induction false} PreloadWakesByTheEnd(systems: seq<System>, events: seq<Event>, n: nat)
    requires IsRun(systems, events) && n <= |events| && Preloaded(events, n)
    ensures WakesAtTheEnd(systems[n].q)
  {
    hide Steps, WakesAtTheEnd;
    if LoadOf(events[n - 1]).Some? {
      PreloadLeavesNothingUncovered(systems, events, n - 1);
    } else {
      PreloadWakesByTheEnd(systems, events, n - 1);
      OtherStepsKeepTheEnd(systems[n - 1], events[n - 1], systems[n]);
    }
  }

  // ---------- notifications ----------

  lemma {:induction false} WithinIsExact(request: seq<int>, window: int, ts: int)
    ensures ts in Within(request, window) <==> ts in request && ts <= window
  {
    if request != [] {
      var n := |request| - 1;
      WithinIsExact(request[..n], window, ts);
      assert request == request[..n] + [request[n]];
    }
  }

  lemma {:induction false} AcceptedIsExact(requests: seq<seq<int>>, window: int, ts: int)
    ensures ts in Timestamps(Accepted(requests, window)) <==> ts in Timestamps(requests) && ts <= window
  {
    if requests != [] {
      var n := |requests| - 1;
      var front, last := requests[..n], requests[n];
      AcceptedIsExact(front, window, ts);
      WithinIsExact(last, window, ts);
      assert requests == front + [last];
      TimestampsOfConcat(front, [last], ts);
      TimestampsOfConcat(Accepted(front, window), [Within(last, window)], ts);
      TimestampsOfOne(last, ts);
      TimestampsOfOne(Within(last, window), ts);
    }
  }

  lemma TimestampsOfConcat(a: seq<seq<int>>, b: seq<seq<int>>, ts: int)
    ensures ts in Timestamps(a + b) <==> ts in Timestamps(a) || ts in Timestamps(b)
  {
    if ts in Timestamps(a) {
      var r :| r in a && ts in r;
      assert r in a + b;
    }
    if ts in Timestamps(b) {
      var r :| r in b && ts in r;
      assert r in a + b;
    }
  }

  lemma TimestampsOfOne(request: seq<int>, ts: int)
    ensures ts in Timestamps([request]) <==> ts in request
  {
    assert ts in request ==> request in [request];
  }

  /** The gate that sees to a fire time: the trigger's poll within the window, the next preload beyond it. */
  ghost predicate SeenTo(q: QueueState, ts: int) {
    if ts <= q.window then ts in Timestamps(q.pending) && (ts < MAX_INT64 ==> Covers(q.trigger, FromUnix(ts)))
    else q.preload.armed ==> Covers(q.preload, FromUnix(ts))
  }

  /**
   Every notified fire time is seen to once the loop has drained it: it is pending and the trigger gate covers
   it, or it is beyond the window, and then an armed preload gate wakes before it.  What was pending stays so.
   */
  lemma NoNotificationIsLost(systems: seq<System>, events: seq<Event>, n: nat)
    requires IsRun(systems, events) && n < |events| && events[n].OnNotified? && Preloaded(events, n)
    ensures forall ts :: ts in Timestamps(systems[n].q.channel) ==> SeenTo(systems[n + 1].q, ts)
    ensures forall ts :: ts in Timestamps(systems[n + 1].q.pending) <==>
              || ts in Timestamps(systems[n].q.pending)
              || (ts in Timestamps(systems[n].q.channel) && ts <= systems[n].q.window)
  {
    PreloadWakesByTheEnd(systems, events, n);
    LoopIsNeverStuck(systems, events, n + 1);
    assert Steps(systems[n], events[n], systems[n + 1]);
    hide IsRun, Steps;
    var q, q' := systems[n].q, systems[n + 1].q;
    forall ts
      ensures ts in Timestamps(q'.pending) <==>
              ts in Timestamps(q.pending) || (ts in Timestamps(q.channel) && ts <= q.window)
    {
      AcceptedIsExact(q.channel, q.window, ts);
      TimestampsOfConcat(q.pending, Accepted(q.channel, q.window), ts);
    }
  }

  // ---------- what a poll may leave out ----------

  /** The largest sequence loaded since the last preload; 0 when nothing was. */
  ghost predicate IsLargest(loaded: multiset<Timer>, max: int) {
    if loaded == multiset{} then max == 0
    else (exists t :: t in loaded && t.sequence == max) && forall t :: t in loaded ==> t.sequence <= max
  }

  lemma PageLargest(page: seq<Timer>, max: int)
    requires IsMaxSequence(page, max)
    ensures IsLargest(multiset(page), max)
  {
    if page != [] {
      assert page[0] in multiset(page);
    }
  }

  lemma GrowingLargest(loaded: multiset<Timer>, page: seq<Timer>, max: int, max': int)
    requires IsLargest(loaded, max) && page != [] && IsMaxSequence(page, max')
    requires forall t :: t in page ==> max < t.sequence
    ensures IsLargest(loaded + multiset(page), max')
  {
    assert page[0] in page && page[0] in loaded + multiset(page);
    var last :| last in page && last.sequence == max';
    assert last in loaded + multiset(page);
  }

  lemma StepKeepsLargest(sys: System, event: Event, sys': System)
    requires NeverStuck(sys.q) && IsLargest(sys.loaded, sys.q.maxSequence) && Steps(sys, event, sys')
    ensures IsLargest(sys'.loaded, sys'.q.maxSequence)
  {
    hide NeverStuck, IsLargest;
    if LoadOf(event).Some? {
      var s := LoadSource(sys, event, sys'.q);
      PageLargest(LoadOf(event).value.page, sys'.q.maxSequence);
    } else if event.OnTrigger? && sys.q.pending != [] {
      if event.page != [] {
        GrowingLargest(sys.loaded, event.page, sys.q.maxSequence, sys'.q.maxSequence);
      } else {
        assert sys'.loaded == sys.loaded;
      }
    }
  }

  lemma NothingLoadedYet(sys: System)
    requires IsStart(sys)
    ensures IsLargest(sys.loaded, sys.q.maxSequence)
  {
  }

  /** Polls start right after the largest sequence that was really loaded since the last preload. */
  lemma {:induction false} PollsStartAfterTheLoaded(systems: seq<System>, events: seq<Event>, n: nat)
    requires IsRun(systems, events) && n <= |events|
    ensures IsLargest(systems[n].loaded, systems[n].q.maxSequence)
  {
    hide Steps, IsLargest;
    if n == 0 {
      NothingLoadedYet(systems[0]);
    } else {
      PollsStartAfterTheLoaded(systems, events, n - 1);
      LoopIsNeverStuck(systems, events, n - 1);
      StepKeepsLargest(systems[n - 1], events[n - 1], systems[n]);
    }
  }

  // ---------- sending ----------

  /**
   One run of the firing handler sends what is due, earliest first: each before any that stays in the heap, and
   what stays is not due at the last clock reading.
   */
  lemma FiringSendsEarliestFirst(systems: seq<System>, events: seq<Event>, n: nat)
    requires IsRun(systems, events) && n < |events| && events[n].OnFiring?
    ensures var before, after, t := |systems[n].q.sent|, systems[n + 1].q.sent, events[n].last;
      && before <= |after| && after[..before] == systems[n].q.sent
      && (forall i, j :: before <= i < j < |after| ==> after[i].timer.fireTime <= after[j].timer.fireTime)
      && (forall i :: before <= i < |after| ==> after[i].timer in systems[n].q.heap)
      && (forall u :: u in systems[n].q.heap && u.fireTime <= ToUnix(t) ==>
            exists i :: before <= i < |after| && after[i].timer == u)
  {
    assert Steps(systems[n], events[n], systems[n + 1]);
    hide IsRun, Sends;
    var mid := FiringSplits(systems[n], events[n], systems[n + 1].q);
    SendingIsOrdered(
      systems[n].q.(firing := Consumed(systems[n].q.firing)), mid, events[n].sendings, events[n].last);
  }

  lemma FiringSplits(sys: System, event: Event, q': QueueState) returns (mid: QueueState)
    requires event.OnFiring? && QueueSteps(sys, event, q')
    ensures Sends(sys.q.(firing := Consumed(sys.q.firing)), mid, event.sendings, event.last) && q'.sent == mid.sent
  {
    var s := sys.q.(firing := Consumed(sys.q.firing));
    mid :| Sends(s, mid, event.sendings, event.last) && MayLoad(sys.rows, mid, q', event.load);
  }

  /** What left the heap is among what was sent. */
  lemma GoneIsSent(heap: multiset<Timer>, heap': multiset<Timer>, sendings: seq<Sending>)
    requires heap == heap' + multiset(TimersOf(sendings))
    ensures forall u :: u in heap && u !in heap' ==> exists k :: 0 <= k < |sendings| && sendings[k].timer == u
    ensures forall k :: 0 <= k < |sendings| ==> sendings[k].timer in heap
  {
    forall u | u in heap && u !in heap' ensures exists k :: 0 <= k < |sendings| && sendings[k].timer == u {
      assert u in TimersOf(sendings);
      var k :| 0 <= k < |sendings| && TimersOf(sendings)[k] == u;
      assert sendings[k].timer == u;
    }
    forall k | 0 <= k < |sendings| ensures sendings[k].timer in heap {
      assert TimersOf(sendings)[k] in TimersOf(sendings);
    }
  }

  lemma SendingIsOrdered(s: QueueState, s': QueueState, sendings: seq<Sending>, last: int)
    requires Sends(s, s', sendings, last)
    ensures var before, after := |s.sent|, s'.sent;
      && before <= |after| && after[..before] == s.sent
      && (forall i, j :: before <= i < j < |after| ==> after[i].timer.fireTime <= after[j].timer.fireTime)
      && (forall i :: before <= i < |after| ==> after[i].timer in s.heap)
      && (forall u :: u in s.heap && u.fireTime <= ToUnix(last) ==>
            exists i :: before <= i < |after| && after[i].timer == u)
  {
    hide IsMinimum, TimersOf, ToUnix;
    GoneIsSent(s.heap, s'.heap, sendings);
    var before, after := |s.sent|, s'.sent;
    forall u | u in s.heap && u.fireTime <= ToUnix(last)
      ensures exists i :: before <= i < |after| && after[i].timer == u
    {
      assert u !in s'.heap;
      var k :| 0 <= k < |sendings| && sendings[k].timer == u;
      assert after[before + k].timer == u;
    }
  }
}
