/** Runs of the timer queue's event loop, whatever the interleaving of expiries, notifications and stored rows. */
module TimerQueueTheorems {
  import opened Wrappers
  import opened TimerGates
  import opened TimerQueue

  /**
   The queue, the stored rows and the clock.  `loaded` and `sentBefore` remember what was loaded since
   the last preload and how much had been sent before it.
   */
  datatype System = System(q: QueueState, rows: set<Timer>, now: int, loaded: multiset<Timer>, sentBefore: nat)

  datatype Load = Load(page: seq<Timer>, size: nat, maxWindowTime: int)

  datatype Event =
    | Tick(now: int)
    | ChangeRows(rows: set<Timer>)
    | Notify(request: seq<int>)
    | ExpirePreload
    | ExpireFiring
    | ExpireTrigger
    | OnPreload(load: Option<Load>)
    | OnFiring(sendings: seq<Sending>, last: int, load: Option<Load>)
    | OnNotified
    | OnTrigger(page: seq<Timer>)

  /** A preload, when one is due. */
  ghost predicate MayLoad(rows: set<Timer>, s: QueueState, s': QueueState, load: Option<Load>) {
    if ShouldLoad(s) then
      load.Some? && 0 < load.value.size &&
      FirstPage(rows, ToUnix(load.value.maxWindowTime), load.value.size, load.value.page) &&
      Loads(s, s', load.value.page, load.value.size, load.value.maxWindowTime)
    else load.None? && s' == s
  }

  ghost predicate SendsAndLoads(
    rows: set<Timer>, s: QueueState, s': QueueState, sendings: seq<Sending>, last: int, load: Option<Load>)
  {
    exists mid :: Sends(s, mid, sendings, last) && MayLoad(rows, mid, s', load)
  }

  predicate Expires(g: Gate, g': Gate, now: int) {
    g.armed && g.at <= now && g' == Fired(g)
  }

  /** The new state of the queue; the rows and the clock only change by events of their own. */
  ghost predicate QueueSteps(sys: System, event: Event, q': QueueState) {
    var q := sys.q;
    match event
    case Tick(_) => q' == q
    case ChangeRows(_) => q' == q
    case Notify(request) => q' == q.(channel := q.channel + [request])
    case ExpirePreload => Expires(q.preload, q'.preload, sys.now) && q' == q.(preload := q'.preload)
    case ExpireFiring => Expires(q.firing, q'.firing, sys.now) && q' == q.(firing := q'.firing)
    case ExpireTrigger => Expires(q.trigger, q'.trigger, sys.now) && q' == q.(trigger := q'.trigger)
    case OnPreload(load) =>
      q.preload.signal && MayLoad(sys.rows, q.(preload := Consumed(q.preload)), q', load)
    case OnFiring(sendings, last, load) =>
      q.firing.signal && SendsAndLoads(sys.rows, q.(firing := Consumed(q.firing)), q', sendings, last, load)
    case OnNotified => q.channel != [] && q' == Drained(q, q.channel)
    case OnTrigger(page) =>
      && q.trigger.signal && TimersFor(sys.rows, q.pending, q.maxSequence + 1, page)
      && Polls(q.(trigger := Consumed(q.trigger)), q', page)
  }

  function LoadOf(event: Event): Option<Load> {
    match event
    case OnPreload(load) => load
    case OnFiring(_, _, load) => load
    case _ => None
  }

  ghost predicate Steps(sys: System, event: Event, sys': System) {
    && QueueSteps(sys, event, sys'.q)
    && (if event.ChangeRows? then Table(event.rows) && sys'.rows == event.rows else sys'.rows == sys.rows)
    && sys'.now == (if event.Tick? then event.now else if event.OnFiring? then event.last else sys.now)
    && sys.now <= sys'.now
    && (event.OnFiring? ==> forall n :: 0 <= n < |event.sendings| ==> sys.now <= event.sendings[n].at)
    && (if LoadOf(event).Some? then
          sys'.loaded == multiset(LoadOf(event).value.page) && sys'.sentBefore == |sys'.q.sent|
        else
          sys'.sentBefore == sys.sentBefore &&
          sys'.loaded == if event.OnTrigger? && sys.q.pending != [] then sys.loaded + multiset(event.page)
                         else sys.loaded)
  }

  /** The loop starts with the preload gate set to the current time. */
  ghost predicate IsStart(sys: System) {
    Table(sys.rows) && sys.q == NEW_QUEUE.(preload := Updated(NEW_GATE, sys.now)) &&
    sys.loaded == multiset{} && sys.sentBefore == 0
  }

  ghost predicate IsRun(systems: seq<System>, events: seq<Event>) {
    && |systems| == |events| + 1 && IsStart(systems[0])
    && forall n :: 0 <= n < |events| ==> Steps(systems[n], events[n], systems[n + 1])
  }

  // ---------- never stuck ----------

  ghost predicate NeverStuck(s: QueueState) {
    && WellFormed(s.preload) && WellFormed(s.firing) && WellFormed(s.trigger)
    && (forall t :: t in s.heap ==> Covers(s.firing, FromUnix(t.fireTime)))
    && (s.heap == multiset{} ==> s.preload.signal || s.preload.armed)
    && (forall r, ts :: r in s.pending && ts in r && ts < MAX_INT64 ==> Covers(s.trigger, FromUnix(ts)))
  }

  lemma {:induction false} EarliestIsLeast(requests: seq<seq<int>>)
    ensures forall r, ts :: r in requests && ts in r ==> Earliest(requests) <= ts
  {
    if requests != [] {
      var front, last := requests[..|requests| - 1], requests[|requests| - 1];
      EarliestIsLeast(front);
      MinOfIsLeast(last);
      assert requests == front + [last];
    }
  }

  lemma {:induction false} MinOfIsLeast(request: seq<int>)
    ensures forall ts :: ts in request ==> MinOf(request) <= ts
  {
    if request != [] {
      MinOfIsLeast(request[..|request| - 1]);
      assert request == request[..|request| - 1] + [request[|request| - 1]];
    }
  }

  lemma CoversLater(g: Gate, time: int, later: int)
    requires Covers(g, time) && time <= later
    ensures Covers(g, later)
  {
  }

  /** Draining keeps every pending fire time covered, old or new. */
  lemma DrainingCovers(s: QueueState, requests: seq<seq<int>>)
    requires NeverStuck(s)
    ensures NeverStuck(Drained(s, requests))
  {
    var s' := Drained(s, requests);
    var accepted := Accepted(requests, s.window);
    EarliestIsLeast(accepted);
    var time := FromUnix(Earliest(accepted));
    forall r, ts | r in s'.pending && ts in r && ts < MAX_INT64 ensures Covers(s'.trigger, FromUnix(ts)) {
      UpdatingCovers(s.trigger, time, FromUnix(ts));
      if r in s.pending {
      } else {
        assert r in accepted;
        CoversLater(s'.trigger, time, FromUnix(ts));
      }
    }
  }

  lemma FirstIsEarliest(page: seq<Timer>)
    requires Ordered(page)
    ensures forall t :: t in page ==> page[0].fireTime <= t.fireTime
  {
  }

  /** A preload may happen whenever the heap is empty, even with the preload gate's signal just consumed. */
  lemma LoadingCovers(s: QueueState, s': QueueState, page: seq<Timer>, size: nat, maxWindowTime: int)
    requires NeverStuck(s.(preload := s.preload.(signal := true))) && s.heap == multiset{}
    requires Ordered(page) && Loads(s, s', page, size, maxWindowTime)
    ensures NeverStuck(s')
  {
    DrainingCovers(s.(preload := s.preload.(signal := true)), s.channel);
    if |page| > 0 {
      FirstIsEarliest(page);
      forall t | t in s'.heap ensures Covers(s'.firing, FromUnix(t.fireTime)) {
        assert t in page;
        UpdatingCovers(s.firing, FromUnix(page[0].fireTime), FromUnix(t.fireTime));
        CoversLater(s'.firing, FromUnix(page[0].fireTime), FromUnix(t.fireTime));
      }
    }
  }

  lemma MayLoadCovers(rows: set<Timer>, s: QueueState, s': QueueState, load: Option<Load>)
    requires NeverStuck(s.(preload := s.preload.(signal := true)))
    requires s.heap == multiset{} ==> s.preload.signal || s.preload.armed || ShouldLoad(s)
    requires MayLoad(rows, s, s', load)
    ensures NeverStuck(s')
  {
    if ShouldLoad(s) {
      LoadingCovers(s, s', load.value.page, load.value.size, load.value.maxWindowTime);
    }
  }

  lemma MinimumCovers(g: Gate, heap: multiset<Timer>, t: Timer)
    requires WellFormed(g) && IsMinimum(heap, t)
    ensures forall u :: u in heap ==> Covers(Updated(g, FromUnix(t.fireTime)), FromUnix(u.fireTime))
  {
    forall u | u in heap ensures Covers(Updated(g, FromUnix(t.fireTime)), FromUnix(u.fireTime)) {
      UpdatingCovers(g, FromUnix(t.fireTime), FromUnix(u.fireTime));
      CoversLater(Updated(g, FromUnix(t.fireTime)), FromUnix(t.fireTime), FromUnix(u.fireTime));
    }
  }

  lemma SendingCovers(s: QueueState, s': QueueState, sendings: seq<Sending>, last: int)
    requires NeverStuck(s.(firing := s.firing.(signal := true))) && Sends(s, s', sendings, last)
    ensures s'.heap != multiset{} ==> NeverStuck(s')
    ensures NeverStuck(s'.(preload := s'.preload.(signal := true)))
    ensures s'.preload == s.preload
  {
    if s'.heap != multiset{} {
      var t :| IsMinimum(s'.heap, t) && s'.firing == Updated(s.firing, FromUnix(t.fireTime));
      MinimumCovers(s.firing, s'.heap, t);
    }
  }

  lemma PollingCovers(s: QueueState, s': QueueState, page: seq<Timer>)
    requires NeverStuck(s.(trigger := s.trigger.(signal := true))) && Ordered(page) && Polls(s, s', page)
    ensures NeverStuck(s')
  {
    if s.pending != [] && |page| > 0 {
      FirstIsEarliest(page);
      var time := FromUnix(page[0].fireTime);
      forall t | t in s'.heap ensures Covers(s'.firing, FromUnix(t.fireTime)) {
        UpdatingCovers(s.firing, time, FromUnix(t.fireTime));
        if t !in s.heap {
          assert t in page;
          CoversLater(s'.firing, time, FromUnix(t.fireTime));
        }
      }
    }
  }

  lemma StepCovers(sys: System, event: Event, sys': System)
    requires NeverStuck(sys.q) && Steps(sys, event, sys')
    ensures NeverStuck(sys'.q)
  {
    var q, q' := sys.q, sys'.q;
    match event
    case OnPreload(load) => MayLoadCovers(sys.rows, q.(preload := Consumed(q.preload)), q', load);
    case OnFiring(sendings, last, load) =>
      FiringCovers(sys.rows, q, q', sendings, last, load);
    case OnNotified => DrainingCovers(q, q.channel);
    case OnTrigger(page) => PollingCovers(q.(trigger := Consumed(q.trigger)), q', page);
    case _ =>
  }

  lemma FiringCovers(
    rows: set<Timer>, q: QueueState, q': QueueState, sendings: seq<Sending>, last: int, load: Option<Load>)
    requires NeverStuck(q) && SendsAndLoads(rows, q.(firing := Consumed(q.firing)), q', sendings, last, load)
    ensures NeverStuck(q')
  {
    var s := q.(firing := Consumed(q.firing));
    var mid :| Sends(s, mid, sendings, last) && MayLoad(rows, mid, q', load);
    SendingCovers(s, mid, sendings, last);
    MayLoadCovers(rows, mid, q', load);
  }

  /**
   The loop is never stuck: while timers remain, the firing gate has signalled or is armed no later
   than each of them; with none left, the preload gate is armed or has signalled; and pending fire times
   are covered by the trigger gate.
   */
  lemma {:induction false} LoopIsNeverStuck(systems: seq<System>, events: seq<Event>, n: nat)
    requires IsRun(systems, events) && n <= |events|
    ensures NeverStuck(systems[n].q)
  {
    if n > 0 {
      LoopIsNeverStuck(systems, events, n - 1);
      StepCovers(systems[n - 1], events[n - 1], systems[n]);
    }
  }

  // ---------- nothing is lost, doubled or early ----------

  /** Each loaded timer once, with a sequence of its own that is no larger than the largest loaded. */
  ghost predicate DistinctUpTo(loaded: multiset<Timer>, max: int) {
    && (forall t :: t in loaded ==> loaded[t] == 1 && t.sequence <= max)
    && (forall t, u :: t in loaded && u in loaded && t.sequence == u.sequence ==> t == u)
  }

  /** What was loaded since the last preload is what was sent since plus what remains in the heap. */
  ghost predicate Conserved(sys: System) {
    && Table(sys.rows)
    && DistinctUpTo(sys.loaded, sys.q.maxSequence)
    && sys.sentBefore <= |sys.q.sent|
    && sys.loaded == sys.q.heap + multiset(TimersOf(sys.q.sent[sys.sentBefore..]))
  }

  ghost predicate NoneEarly(sys: System) {
    forall n :: 0 <= n < |sys.q.sent| ==>
      sys.q.sent[n].timer.fireTime <= ToUnix(sys.q.sent[n].at) && sys.q.sent[n].at <= sys.now
  }

  lemma {:induction false} OrderedIsDistinct(page: seq<Timer>)
    requires Ordered(page)
    ensures forall t :: t in page ==> multiset(page)[t] == 1
  {
    if page != [] {
      var front, last := page[..|page| - 1], page[|page| - 1];
      OrderedIsDistinct(front);
      assert page == front + [last];
      assert last !in front;
    }
  }

  lemma PageIsDistinct(rows: set<Timer>, page: seq<Timer>, max: int)
    requires Table(rows) && Ordered(page) && (forall t :: t in page ==> t in rows) && IsMaxSequence(page, max)
    ensures DistinctUpTo(multiset(page), max)
  {
    OrderedIsDistinct(page);
  }

  lemma LoadingConserves(sys: System, event: Event, sys': System, s: QueueState)
    requires Conserved(sys) && Steps(sys, event, sys') && LoadOf(event).Some?
    requires MayLoad(sys.rows, s, sys'.q, LoadOf(event))
    ensures Conserved(sys')
  {
    var load := LoadOf(event).value;
    PageIsDistinct(sys.rows, load.page, sys'.q.maxSequence);
    assert |s.heap| == 0;
    assert TimersOf(sys'.q.sent[|sys'.q.sent|..]) == [];
  }

  lemma TimersOfConcat(a: seq<Sending>, b: seq<Sending>)
    ensures TimersOf(a + b) == TimersOf(a) + TimersOf(b)
  {
  }

  ghost predicate SameHistory(sys: System, sys': System) {
    sys'.rows == sys.rows && sys'.sentBefore == sys.sentBefore
  }

  lemma SendingConserves(sys: System, sys': System, s: QueueState, sendings: seq<Sending>, last: int)
    requires Conserved(sys) && SameHistory(sys, sys') && sys'.loaded == sys.loaded
    requires s == sys.q.(firing := s.firing) && Sends(s, sys'.q, sendings, last)
    ensures Conserved(sys')
  {
    SendingAdds(sys.loaded, s.heap, sys'.q.heap, s.sent, sendings, sys.sentBefore);
    hide DistinctUpTo, IsMinimum, TimersOf;
  }

  lemma SendingAdds(
    loaded: multiset<Timer>, heap: multiset<Timer>, heap': multiset<Timer>, sent: seq<Sending>, sendings: seq<Sending>,
    k: nat)
    requires k <= |sent| && loaded == heap + multiset(TimersOf(sent[k..]))
    requires heap == heap' + multiset(TimersOf(sendings))
    ensures loaded == heap' + multiset(TimersOf((sent + sendings)[k..]))
  {
    assert (sent + sendings)[k..] == sent[k..] + sendings;
    TimersOfConcat(sent[k..], sendings);
  }

  /** New timers have larger sequences than all that were loaded. */
  lemma GrowingIsDistinct(rows: set<Timer>, loaded: multiset<Timer>, page: seq<Timer>, max: int, max': int)
    requires Table(rows) && DistinctUpTo(loaded, max) && Ordered(page) && page != []
    requires forall t :: t in page ==> t in rows && max < t.sequence
    requires IsMaxSequence(page, max')
    ensures DistinctUpTo(loaded + multiset(page), max')
  {
    PageIsDistinct(rows, page, max');
    assert page[0] in page;
    forall t | t in loaded + multiset(page) ensures (loaded + multiset(page))[t] == 1 && t.sequence <= max' {
      if t in page {
        assert t !in loaded;
      }
    }
  }

  lemma PollingConserves(sys: System, sys': System, s: QueueState, page: seq<Timer>)
    requires Conserved(sys) && SameHistory(sys, sys') && s == sys.q.(trigger := s.trigger)
    requires TimersFor(sys.rows, sys.q.pending, sys.q.maxSequence + 1, page) && Polls(s, sys'.q, page)
    requires sys'.loaded == if sys.q.pending != [] then sys.loaded + multiset(page) else sys.loaded
    ensures Conserved(sys')
  {
    if sys.q.pending != [] && |page| > 0 {
      GrowingIsDistinct(sys.rows, sys.loaded, page, sys.q.maxSequence, sys'.q.maxSequence);
      hide DistinctUpTo, TimersFor, IsMaxSequence;
    } else if sys.q.pending != [] {
      assert page == [] && sys.loaded + multiset(page) == sys.loaded;
    }
  }

  lemma StepConserves(sys: System, event: Event, sys': System)
    requires Conserved(sys) && Steps(sys, event, sys')
    ensures Conserved(sys')
  {
    var q := sys.q;
    match event
    case OnPreload(load) =>
      if load.Some? {
        LoadingConserves(sys, event, sys', q.(preload := Consumed(q.preload)));
      }
    case OnFiring(sendings, last, load) =>
      var s := q.(firing := Consumed(q.firing));
      var mid :| Sends(s, mid, sendings, last) && MayLoad(sys.rows, mid, sys'.q, load);
      if load.Some? {
        LoadingConserves(sys, event, sys', mid);
      } else {
        SendingConserves(sys, sys', s, sendings, last);
      }
    case OnTrigger(page) => PollingConserves(sys, sys', q.(trigger := Consumed(q.trigger)), page);
    case _ =>
  }

  lemma StepIsNeverEarly(sys: System, event: Event, sys': System)
    requires NoneEarly(sys) && Steps(sys, event, sys')
    ensures NoneEarly(sys')
    ensures |sys.q.sent| <= |sys'.q.sent| && sys'.q.sent[..|sys.q.sent|] == sys.q.sent
  {
    if event.OnFiring? {
      var s := sys.q.(firing := Consumed(sys.q.firing));
      var mid :| Sends(s, mid, event.sendings, event.last) && MayLoad(sys.rows, mid, sys'.q, event.load);
      assert sys'.q.sent == sys.q.sent + event.sendings;
    }
  }

  lemma StartConserves(sys: System)
    requires IsStart(sys)
    ensures Conserved(sys) && NoneEarly(sys)
  {
    assert TimersOf(sys.q.sent[0..]) == [];
  }

  /** Between preloads no timer is lost or doubled, and none is ever sent before its time. */
  lemma {:induction false} TimersConserved(systems: seq<System>, events: seq<Event>, n: nat)
    requires IsRun(systems, events) && n <= |events|
    ensures Conserved(systems[n]) && NoneEarly(systems[n])
  {
    hide Steps, Conserved, NoneEarly;
    if n == 0 {
      StartConserves(systems[0]);
    } else {
      TimersConserved(systems, events, n - 1);
      StepConserves(systems[n - 1], events[n - 1], systems[n]);
      StepIsNeverEarly(systems[n - 1], events[n - 1], systems[n]);
    }
  }

  // ---------- what each handler achieves ----------

  /** Right after a preload every stored timer strictly below the window is in the heap, full page or not. */
  lemma PreloadIsComplete(systems: seq<System>, events: seq<Event>, n: nat, t: Timer)
    requires IsRun(systems, events) && n < |events| && LoadOf(events[n]).Some?
    requires t in systems[n].rows && t.fireTime < systems[n + 1].q.window
    ensures t in systems[n + 1].q.heap && systems[n + 1].q.heap == multiset(LoadOf(events[n]).value.page)
  {
    var sys, event := systems[n], events[n];
    var load := LoadOf(event).value;
    if event.OnPreload? {
      LoadIsComplete(sys.rows, sys.q.(preload := Consumed(sys.q.preload)), systems[n + 1].q, load, t);
    } else {
      var s := sys.q.(firing := Consumed(sys.q.firing));
      var mid :| Sends(s, mid, event.sendings, event.last) && MayLoad(sys.rows, mid, systems[n + 1].q, event.load);
      LoadIsComplete(sys.rows, mid, systems[n + 1].q, load, t);
    }
  }

  lemma LoadIsComplete(rows: set<Timer>, s: QueueState, s': QueueState, load: Load, t: Timer)
    requires MayLoad(rows, s, s', Some(load)) && t in rows && t.fireTime < s'.window
    ensures t in s'.heap && s'.heap == multiset(load.page)
  {
    assert |s.heap| == 0;
    assert |load.page| > 0 ==> load.page[|load.page| - 1] in load.page;
    assert t in load.page;
  }

  /**
   A timer loaded since the last preload and due at the firing handler's last clock reading has been sent
   exactly once when the handler is done, whether it preloads as well or not.
   */
  lemma DueTimersAreSentOnce(systems: seq<System>, events: seq<Event>, n: nat, t: Timer)
    requires IsRun(systems, events) && n < |events| && events[n].OnFiring?
    requires t in systems[n].loaded && t.fireTime <= ToUnix(events[n].last)
    ensures systems[n].sentBefore <= |systems[n + 1].q.sent|
    ensures multiset(TimersOf(systems[n + 1].q.sent[systems[n].sentBefore..]))[t] == 1
  {
    TimersConserved(systems, events, n);
    assert Steps(systems[n], events[n], systems[n + 1]);
    hide IsRun, NoneEarly;
    DueIsSent(systems[n], systems[n + 1].q, events[n].sendings, events[n].last, events[n].load, t);
  }

  lemma DueIsSent(sys: System, q': QueueState, sendings: seq<Sending>, last: int, load: Option<Load>, t: Timer)
    requires Conserved(sys)
    requires SendsAndLoads(sys.rows, sys.q.(firing := Consumed(sys.q.firing)), q', sendings, last, load)
    requires t in sys.loaded && t.fireTime <= ToUnix(last)
    ensures sys.sentBefore <= |q'.sent| && multiset(TimersOf(q'.sent[sys.sentBefore..]))[t] == 1
  {
    var s := sys.q.(firing := Consumed(sys.q.firing));
    var mid :| Sends(s, mid, sendings, last) && MayLoad(sys.rows, mid, q', load);
    SendingAdds(sys.loaded, s.heap, mid.heap, s.sent, sendings, sys.sentBefore);
  }

  /**
   A triggered poll picks up a stored timer that was asked for exactly when its sequence is beyond the
   largest one loaded: one whose row became visible late, after a larger sequence was loaded, stays
   behind until the next preload.
   */
  lemma PollSkipsSmallerSequences(systems: seq<System>, events: seq<Event>, n: nat, t: Timer)
    requires IsRun(systems, events) && n < |events| && events[n].OnTrigger?
    requires t in systems[n].rows && t.fireTime in Timestamps(systems[n].q.pending) && t !in systems[n].q.heap
    ensures t in systems[n + 1].q.heap <==> systems[n].q.maxSequence < t.sequence
  {
  }
}
