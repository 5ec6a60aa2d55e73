/** The timer queue's state, and what each of its handlers does to it. */
module TimerQueue {
  import opened Wrappers
  import opened TimerGates

  const NANOS := 1_000_000_000
  const MAX_INT64 := 0x7FFF_FFFF_FFFF_FFFF
  const MIN_INT64 := -0x8000_0000_0000_0000

  /** A stored timer: when it fires, in seconds, and the sequence that identifies its row. */
  datatype Timer = Timer(fireTime: int, sequence: int)

  /** `time.Unix(seconds, 0)` */
  function FromUnix(seconds: int): int {
    seconds * NANOS
  }

  /** `t.Unix()`, which rounds down. */
  function ToUnix(time: int): int {
    time / NANOS
  }

  /** A timer handed to the processor, and the clock reading that decided it. */
  datatype Sending = Sending(timer: Timer, at: int)

  datatype QueueState = QueueState(
    preload: Gate,
    firing: Gate,
    trigger: Gate,
    maxSequence: int,
    window: int,
    heap: multiset<Timer>,
    channel: seq<seq<int>>,
    pending: seq<seq<int>>,
    sent: seq<Sending>)

  const NEW_QUEUE := QueueState(NEW_GATE, NEW_GATE, NEW_GATE, 0, 0, multiset{}, [], [], [])

  // ---------- pages of timers ----------

  /** `ORDER BY fire_time_unix_seconds, task_sequence` */
  predicate Before(a: Timer, b: Timer) {
    a.fireTime < b.fireTime || (a.fireTime == b.fireTime && a.sequence < b.sequence)
  }

  ghost predicate Ordered(page: seq<Timer>) {
    forall i, j :: 0 <= i < j < |page| ==> Before(page[i], page[j])
  }

  /** The first rows, at most `size`, of those that fire no later than `upTo`. */
  ghost predicate FirstPage(rows: set<Timer>, upTo: int, size: nat, page: seq<Timer>) {
    && Ordered(page) && |page| <= size
    && (forall t :: t in page ==> t in rows && t.fireTime <= upTo)
    && (forall t :: t in rows && t.fireTime <= upTo && t !in page ==>
          |page| == size && forall p :: p in page ==> Before(p, t))
  }

  function Timestamps(requests: seq<seq<int>>): set<int> {
    set r, ts | r in requests && ts in r :: ts
  }

  /** The rows of these fire times from a sequence on. */
  ghost predicate TimersFor(rows: set<Timer>, requests: seq<seq<int>>, minSequence: int, page: seq<Timer>) {
    Ordered(page) &&
    forall t :: t in page <==> t in rows && t.fireTime in Timestamps(requests) && minSequence <= t.sequence
  }

  /** Rows are identified by their sequences, which are 64-bit. */
  ghost predicate Table(rows: set<Timer>) {
    && (forall a, b :: a in rows && b in rows && a.sequence == b.sequence ==> a == b)
    && (forall t :: t in rows ==> MIN_INT64 <= t.sequence <= MAX_INT64)
  }

  /** The largest sequence of a page; 0, the response's zero value, for an empty one. */
  ghost predicate IsMaxSequence(page: seq<Timer>, max: int) {
    if page == [] then max == 0
    else (exists t :: t in page && t.sequence == max) && forall t :: t in page ==> t.sequence <= max
  }

  ghost predicate IsMinSequence(page: seq<Timer>, min: int) {
    if page == [] then min == 0
    else (exists t :: t in page && t.sequence == min) && forall t :: t in page ==> min <= t.sequence
  }

  datatype Response = Response(
    tasks: seq<Timer>, minFire: int, maxFire: int, minSequence: int, maxSequence: int, fullPage: bool)

  /** No page size means that any number of rows was asked for. */
  method CreateGetTimerTaskResponse(rows: seq<Timer>, pageSize: Option<nat>) returns (r: Response)
    requires forall t :: t in rows ==> MIN_INT64 <= t.sequence <= MAX_INT64
    ensures r.tasks == rows
    ensures rows != [] ==> r.minFire == rows[0].fireTime && r.maxFire == rows[|rows| - 1].fireTime
    ensures IsMinSequence(rows, r.minSequence) && IsMaxSequence(rows, r.maxSequence)
    ensures r.fullPage <==> pageSize == Some(|rows|)
  {
    r := Response(rows, 0, 0, 0, 0, false);
    if |rows| > 0 {
      r := r.(minFire := rows[0].fireTime, maxFire := rows[|rows| - 1].fireTime);
      var min, max := MAX_INT64, MIN_INT64;
      for n := 0 to |rows|
        invariant forall t :: t in rows[..n] ==> min <= t.sequence <= max
        invariant min == MAX_INT64 || exists t :: t in rows[..n] && t.sequence == min
        invariant max == MIN_INT64 || exists t :: t in rows[..n] && t.sequence == max
        invariant n == 0 ==> min == MAX_INT64 && max == MIN_INT64
      {
        assert rows[..n + 1] == rows[..n] + [rows[n]];
        assert rows[n] in rows;
        if rows[n].sequence < min {
          min := rows[n].sequence;
        }
        if rows[n].sequence > max {
          max := rows[n].sequence;
        }
      }
      assert rows[..|rows|] == rows;
      assert rows[0] in rows;
      r := r.(minSequence := min, maxSequence := max);
    }
    if pageSize.Some? && |rows| == pageSize.value {
      r := r.(fullPage := true);
    }
  }

  // ---------- notifications ----------

  /** The fire times within the window; later ones are left to the next preload. */
  function Within(request: seq<int>, window: int): seq<int> {
    if request == [] then []
    else
      var n := |request| - 1;
      Within(request[..n], window) + if request[n] <= window then [request[n]] else []
  }

  function Accepted(requests: seq<seq<int>>, window: int): seq<seq<int>> {
    if requests == [] then []
    else
      var n := |requests| - 1;
      var filtered := Within(requests[n], window);
      Accepted(requests[..n], window) + if filtered == [] then [] else [filtered]
  }

  function Min(a: int, b: int): int {
    if a < b then a else b
  }

  function MinOf(request: seq<int>): int {
    if request == [] then MAX_INT64 else Min(MinOf(request[..|request| - 1]), request[|request| - 1])
  }

  function Earliest(requests: seq<seq<int>>): int {
    if requests == [] then MAX_INT64
    else Min(Earliest(requests[..|requests| - 1]), MinOf(requests[|requests| - 1]))
  }

  function Drained(s: QueueState, requests: seq<seq<int>>): QueueState {
    var accepted := Accepted(requests, s.window);
    var min := Earliest(accepted);
    s.(channel := [], pending := s.pending + accepted,
       trigger := if min != MAX_INT64 then UpdatedIfLater(s.trigger, FromUnix(min)) else s.trigger)
  }

  // ---------- the handlers ----------

  predicate ShouldLoad(s: QueueState) {
    !s.preload.active && |s.heap| == 0
  }

  /** A full page cuts the window off at the last timer it holds. */
  function WindowTime(page: seq<Timer>, size: nat, maxWindowTime: int): int {
    if |page| > 0 && |page| == size then FromUnix(page[|page| - 1].fireTime) else maxWindowTime
  }

  ghost predicate Loads(s: QueueState, s': QueueState, page: seq<Timer>, size: nat, maxWindowTime: int) {
    var drained := Drained(s, s.channel);
    var time := WindowTime(page, size, maxWindowTime);
    && IsMaxSequence(page, s'.maxSequence)
    && s' == drained.(
         pending := [], trigger := Stopped(drained.trigger),
         heap := if |page| > 0 then multiset(page) else s.heap,
         firing := if |page| > 0 then Updated(s.firing, FromUnix(page[0].fireTime)) else s.firing,
         preload := Updated(s.preload, time), window := ToUnix(time), maxSequence := s'.maxSequence)
  }

  function TimersOf(sendings: seq<Sending>): seq<Timer> {
    seq(|sendings|, n requires 0 <= n < |sendings| => sendings[n].timer)
  }

  ghost predicate IsMinimum(heap: multiset<Timer>, t: Timer) {
    t in heap && forall u :: u in heap ==> t.fireTime <= u.fireTime
  }

  /** Everything due is sent, earliest first, each when a clock reading allows it; `last` is the last reading. */
  ghost predicate Sends(s: QueueState, s': QueueState, sendings: seq<Sending>, last: int) {
    && s'.sent == s.sent + sendings
    && s.heap == s'.heap + multiset(TimersOf(sendings))
    && (forall n :: 0 <= n < |sendings| ==> sendings[n].timer.fireTime <= ToUnix(sendings[n].at))
    && (forall m, n :: 0 <= m < n < |sendings| ==>
          sendings[m].timer.fireTime <= sendings[n].timer.fireTime && sendings[m].at <= sendings[n].at)
    && (forall n :: 0 <= n < |sendings| ==> sendings[n].at <= last)
    && (forall t, n :: t in s'.heap && 0 <= n < |sendings| ==> sendings[n].timer.fireTime <= t.fireTime)
    && (forall t :: t in s'.heap ==> ToUnix(last) < t.fireTime)
    && (s'.heap == multiset{} ==> s'.firing == s.firing)
    && (s'.heap != multiset{} ==>
          exists t :: IsMinimum(s'.heap, t) && s'.firing == Updated(s.firing, FromUnix(t.fireTime)))
    && s' == s.(heap := s'.heap, sent := s'.sent, firing := s'.firing)
  }

  /** The poll reads the pending requests' timers beyond the largest sequence loaded so far. */
  ghost predicate Polls(s: QueueState, s': QueueState, page: seq<Timer>) {
    if s.pending == [] then s' == s
    else
      && (|page| > 0 ==> IsMaxSequence(page, s'.maxSequence))
      && s' == s.(
           pending := [], heap := s.heap + multiset(page),
           maxSequence := if |page| > 0 then s'.maxSequence else s.maxSequence,
           firing := if |page| > 0 then UpdatedIfLater(s.firing, FromUnix(page[0].fireTime)) else s.firing)
  }
}
