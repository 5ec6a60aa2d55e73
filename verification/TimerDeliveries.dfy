/** How often timers are sent over whole runs of the loop, and how far a preload reaches. */
module TimerDeliveries {
  import opened Wrappers
  import opened Collections
  import opened TimerGates
  import opened TimerQueue
  import opened TimerQueueTheorems

  // ---------- sent as often as loaded ----------

  /** What an event puts on the heap. */
  function LoadedBy(sys: System, event: Event): seq<Timer> {
    match event
    case OnPreload(load) => if load.Some? then load.value.page else []
    case OnFiring(_, _, load) => if load.Some? then load.value.page else []
    case OnTrigger(page) => if sys.q.pending != [] then page else []
    case _ => []
  }

  /** How often the timer was loaded by the first `n` events. */
  ghost function TimesLoaded(systems: seq<System>, events: seq<Event>, t: Timer, n: nat): nat
    requires |systems| == |events| + 1 && n <= |events|
  {
    if n == 0 then 0
    else TimesLoaded(systems, events, t, n - 1) + multiset(LoadedBy(systems[n - 1], events[n - 1]))[t]
  }

  function TimesSent(q: QueueState, t: Timer): nat {
    multiset(TimersOf(q.sent))[t]
  }

  lemma SendingCounts(s: QueueState, s': QueueState, sendings: seq<Sending>, last: int, t: Timer)
    requires Sends(s, s', sendings, last)
    ensures TimesSent(s', t) + s'.heap[t] == TimesSent(s, t) + s.heap[t]
  {
    TimersOfConcat(s.sent, sendings);
  }

  lemma LoadingCounts(rows: set<Timer>, s: QueueState, s': QueueState, load: Option<Load>, t: Timer)
    requires MayLoad(rows, s, s', load)
    ensures var page := if load.Some? then load.value.page else [];
      TimesSent(s', t) + s'.heap[t] == TimesSent(s, t) + s.heap[t] + multiset(page)[t]
  {
    if load.Some? {
      assert s.heap == multiset{};
      if load.value.page == [] {
        assert multiset(load.value.page) == multiset{};
      }
    }
  }

  lemma PollingCounts(s: QueueState, s': QueueState, page: seq<Timer>, t: Timer)
    requires Polls(s, s', page)
    ensures TimesSent(s', t) + s'.heap[t] ==
            TimesSent(s, t) + s.heap[t] + if s.pending != [] then multiset(page)[t] else 0
  {
  }

  lemma StepCounts(sys: System, event: Event, sys': System, t: Timer)
    requires Steps(sys, event, sys')
    ensures TimesSent(sys'.q, t) + sys'.q.heap[t]
         == TimesSent(sys.q, t) + sys.q.heap[t] + multiset(LoadedBy(sys, event))[t]
  {
    hide Sends, MayLoad, Polls, TimersFor, Table, TimesSent;
    var q, q' := sys.q, sys'.q;
    match event
    case OnPreload(load) =>
      LoadingCounts(sys.rows, q.(preload := Consumed(q.preload)), q', load, t);
      SameSent(q, q.(preload := Consumed(q.preload)), t);
    case OnFiring(sendings, last, load) =>
      var s := q.(firing := Consumed(q.firing));
      var mid :| Sends(s, mid, sendings, last) && MayLoad(sys.rows, mid, q', load);
      SendingCounts(s, mid, sendings, last, t);
      LoadingCounts(sys.rows, mid, q', load, t);
      SameSent(q, s, t);
    case OnTrigger(page) =>
      PollingCounts(q.(trigger := Consumed(q.trigger)), q', page, t);
      SameSent(q, q.(trigger := Consumed(q.trigger)), t);
    case _ => SameSent(q, q', t);
  }

  lemma SameSent(q: QueueState, q': QueueState, t: Timer)
    requires q'.sent == q.sent
    ensures TimesSent(q', t) == TimesSent(q, t)
  {
  }

  /** Over any run: as often as a timer was loaded, it was sent or is still to be sent. */
  lemma {:induction false} SentAsOftenAsLoaded(systems: seq<System>, events: seq<Event>, t: Timer, n: nat)
    requires IsRun(systems, events) && n <= |events|
    ensures TimesSent(systems[n].q, t) + systems[n].q.heap[t] == TimesLoaded(systems, events, t, n)
  {
    hide Steps, TimesSent;
    if n == 0 {
      NothingSentYet(systems[0], t);
    } else {
      SentAsOftenAsLoaded(systems, events, t, n - 1);
      StepCounts(systems[n - 1], events[n - 1], systems[n], t);
    }
  }

  lemma NothingSentYet(sys: System, t: Timer)
    requires IsStart(sys)
    ensures TimesSent(sys.q, t) == 0 && sys.q.heap[t] == 0
  {
    assert TimersOf(sys.q.sent) == [];
  }

  lemma StepLoadsOnce(sys: System, event: Event, sys': System, t: Timer)
    requires Steps(sys, event, sys')
    ensures multiset(LoadedBy(sys, event))[t] == (if t in LoadedBy(sys, event) then 1 else 0)
    ensures t in LoadedBy(sys, event) ==> t in sys.rows
  {
    OrderedIsDistinct(LoadedBy(sys, event));
  }

  /** The timer was loaded by two events. */
  ghost predicate LoadedTwice(systems: seq<System>, events: seq<Event>, t: Timer, n: nat)
    requires |systems| == |events| + 1 && n <= |events|
  {
    exists j, k :: 0 <= j < k < n && t in LoadedBy(systems[j], events[j]) && t in LoadedBy(systems[k], events[k])
  }

  ghost predicate LoadedOnce(systems: seq<System>, events: seq<Event>, t: Timer, n: nat)
    requires |systems| == |events| + 1 && n <= |events|
  {
    exists k :: 0 <= k < n && t in LoadedBy(systems[k], events[k])
  }

  lemma {:induction false} CountingLoads(systems: seq<System>, events: seq<Event>, t: Timer, n: nat)
    requires IsRun(systems, events) && n <= |events|
    ensures TimesLoaded(systems, events, t, n) >= 1 <==> LoadedOnce(systems, events, t, n)
    ensures TimesLoaded(systems, events, t, n) >= 2 <==> LoadedTwice(systems, events, t, n)
  {
    hide Steps, LoadedBy;
    if n > 0 {
      CountingLoads(systems, events, t, n - 1);
      StepLoadsOnce(systems[n - 1], events[n - 1], systems[n], t);
    }
  }

  /**
   A timer is sent, or about to be sent, a second time exactly when a second event loaded it; and an event loads
   only a row that is stored at that moment.
   */
  lemma SentAgainIffLoadedAgain(systems: seq<System>, events: seq<Event>, t: Timer, n: nat)
    requires IsRun(systems, events) && n <= |events|
    ensures TimesSent(systems[n].q, t) + systems[n].q.heap[t] >= 2 <==> LoadedTwice(systems, events, t, n)
    ensures forall k :: 0 <= k < n && t in LoadedBy(systems[k], events[k]) ==> t in systems[k].rows
  {
    SentAsOftenAsLoaded(systems, events, t, n);
    CountingLoads(systems, events, t, n);
    hide LoadedBy, Steps;
    forall k | 0 <= k < n && t in LoadedBy(systems[k], events[k]) ensures t in systems[k].rows {
      StepLoadsOnce(systems[k], events[k], systems[k + 1], t);
    }
  }

  // ---------- how far a preload reaches ----------

  function Earlier(rows: set<Timer>, t: Timer): set<Timer> {
    set u | u in rows && Before(u, t)
  }

  function InPage(page: seq<Timer>): set<Timer> {
    set u | u in page
  }

  lemma {:induction false} OrderedCount(page: seq<Timer>)
    requires Ordered(page)
    ensures |InPage(page)| == |page|
  {
    if page != [] {
      var front, last := page[..|page| - 1], page[|page| - 1];
      OrderedCount(front);
      assert page == front + [last] && last !in front;
      assert InPage(page) == InPage(front) + {last};
    }
  }

  /** A page of the first rows holds exactly those that fewer than its size come before. */
  lemma PageHoldsIff(rows: set<Timer>, upTo: int, size: nat, page: seq<Timer>, t: Timer)
    requires FirstPage(rows, upTo, size, page)
    ensures t in page <==> t in rows && t.fireTime <= upTo && |Earlier(rows, t)| < size
  {
    if t in page {
      var i :| 0 <= i < |page| && page[i] == t;
      var front := page[..i];
      forall u | u in Earlier(rows, t) ensures u in front {
        EarlierIsInPage(rows, upTo, size, page, i, u);
      }
      OrderedCount(front);
      SubsetCard(Earlier(rows, t), InPage(front));
    } else if t in rows && t.fireTime <= upTo {
      OrderedCount(page);
      SubsetCard(InPage(page), Earlier(rows, t));
    }
  }

  lemma EarlierIsInPage(rows: set<Timer>, upTo: int, size: nat, page: seq<Timer>, i: nat, u: Timer)
    requires FirstPage(rows, upTo, size, page) && i < |page| && u in rows && Before(u, page[i])
    ensures u in page[..i]
  {
    assert page[i] in page;
    var j :| 0 <= j < |page| && page[j] == u;
    assert j < i;
    assert page[..i][j] == u;
  }

  lemma LoadIsFirstPage(sys: System, event: Event, sys': System)
    requires Steps(sys, event, sys') && LoadOf(event).Some?
    ensures var load := LoadOf(event).value;
      FirstPage(sys.rows, ToUnix(load.maxWindowTime), load.size, load.page)
    ensures sys'.q.heap == multiset(LoadOf(event).value.page)
    ensures var load := LoadOf(event).value;
      sys'.q.window == ToUnix(WindowTime(load.page, load.size, load.maxWindowTime))
  {
    if event.OnFiring? {
      var s := sys.q.(firing := Consumed(sys.q.firing));
      var mid :| Sends(s, mid, event.sendings, event.last) && MayLoad(sys.rows, mid, sys'.q, event.load);
      LoadedHeap(sys.rows, mid, sys'.q, event.load);
    } else {
      LoadedHeap(sys.rows, sys.q.(preload := Consumed(sys.q.preload)), sys'.q, event.load);
    }
  }

  lemma LoadedHeap(rows: set<Timer>, s: QueueState, s': QueueState, load: Option<Load>)
    requires MayLoad(rows, s, s', load) && load.Some?
    ensures s'.heap == multiset(load.value.page)
    ensures s'.window == ToUnix(WindowTime(load.value.page, load.value.size, load.value.maxWindowTime))
  {
    assert s.heap == multiset{};
    if load.value.page == [] {
      assert multiset(load.value.page) == multiset{};
    }
  }

  /**
   A preload loads a stored timer that fires within the time asked for exactly when fewer stored timers than a
   page holds come before it: a timer that was sent is loaded again for as long as it is stored, and a full
   page of such leftovers keeps every later timer out.
   */
  lemma PreloadReachesIff(systems: seq<System>, events: seq<Event>, n: nat, t: Timer)
    requires IsRun(systems, events) && n < |events| && LoadOf(events[n]).Some?
    ensures var load := LoadOf(events[n]).value;
      t in systems[n + 1].q.heap <==>
      t in systems[n].rows && t.fireTime <= ToUnix(load.maxWindowTime) && |Earlier(systems[n].rows, t)| < load.size
  {
    LoadIsFirstPage(systems[n], events[n], systems[n + 1]);
    var load := LoadOf(events[n]).value;
    PageHoldsIff(systems[n].rows, ToUnix(load.maxWindowTime), load.size, load.page, t);
  }

  /** Every preload over this stretch asks for no more rows than there are leftovers. */
  ghost predicate Clogged(systems: seq<System>, events: seq<Event>, i: nat, j: nat, leftovers: set<Timer>)
    requires |systems| == |events| + 1 && j <= |events|
  {
    forall n :: i <= n < j ==>
      leftovers <= systems[n].rows && (LoadOf(events[n]).Some? ==> LoadOf(events[n]).value.size <= |leftovers|)
  }

  /**
   While as many leftovers as a page holds stay stored, no preload ever loads a timer that comes after them all,
   nor moves its window beyond that timer's time.
   */
  lemma LeftoversKeepOthersOut(
    systems: seq<System>, events: seq<Event>, i: nat, j: nat, n: nat, leftovers: set<Timer>, t: Timer)
    requires IsRun(systems, events) && i <= n < j <= |events| && Clogged(systems, events, i, j, leftovers)
    requires (forall u :: u in leftovers ==> Before(u, t)) && LoadOf(events[n]).Some?
    requires t in systems[n].rows && t.fireTime <= ToUnix(LoadOf(events[n]).value.maxWindowTime)
    ensures t !in systems[n + 1].q.heap && systems[n + 1].q.window <= t.fireTime
  {
    var rows, load := systems[n].rows, LoadOf(events[n]).value;
    SubsetCard(leftovers, Earlier(rows, t));
    PreloadReachesIff(systems, events, n, t);
    LoadIsFirstPage(systems[n], events[n], systems[n + 1]);
    assert t !in load.page;
    assert |load.page| == load.size;
    if |load.page| > 0 {
      assert load.page[|load.page| - 1] in load.page;
    }
  }
}
