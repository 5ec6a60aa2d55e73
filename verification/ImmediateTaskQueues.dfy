/** Which tasks of which pages have been dispatched and completed. */
module ImmediateTaskQueues {
  import opened Collections

  class ImmediateTaskPage {
    var minTaskSequence: int
    var maxTaskSequence: int
    var pendingCount: int

    constructor (min: int, max: int, count: int)
      ensures minTaskSequence == min && maxTaskSequence == max && pendingCount == count
    {
      minTaskSequence, maxTaskSequence, pendingCount := min, max, count;
    }
  }

  predicate Increasing(tasks: seq<int>) {
    forall i, j :: 0 <= i < j < |tasks| ==> tasks[i] < tasks[j]
  }

  function Elements(tasks: seq<int>): set<int> {
    if tasks == [] then {} else Elements(tasks[..|tasks| - 1]) + {tasks[|tasks| - 1]}
  }

  lemma {:induction false} ElementsOfIncreasing(tasks: seq<int>)
    requires Increasing(tasks)
    ensures forall x :: x in Elements(tasks) <==> x in tasks
    ensures |Elements(tasks)| == |tasks|
  {
    if tasks != [] {
      var front, last := tasks[..|tasks| - 1], tasks[|tasks| - 1];
      ElementsOfIncreasing(front);
      assert tasks == front + [last];
      assert last !in front;
    }
  }

  /** A page's tasks that were dispatched and have not completed. */
  function OutstandingIn(pending: map<int, ImmediateTaskPage>, page: ImmediateTaskPage): set<int> {
    set s | s in pending.Keys && pending[s] == page
  }

  lemma RemovingOne(pending: map<int, ImmediateTaskPage>, s: int, other: ImmediateTaskPage)
    requires s in pending
    ensures pending[s] == other ==>
              && OutstandingIn(pending - {s}, other) == OutstandingIn(pending, other) - {s}
              && |OutstandingIn(pending - {s}, other)| == |OutstandingIn(pending, other)| - 1
    ensures pending[s] != other ==> OutstandingIn(pending - {s}, other) == OutstandingIn(pending, other)
  {
    if pending[s] == other {
      SameElements(OutstandingIn(pending - {s}, other), OutstandingIn(pending, other) - {s});
    } else {
      SameElements(OutstandingIn(pending - {s}, other), OutstandingIn(pending, other));
    }
  }

  /** `after` is `before` with these tasks, all of one new page. */
  ghost predicate Adds(
    before: map<int, ImmediateTaskPage>, after: map<int, ImmediateTaskPage>, tasks: seq<int>, page: ImmediateTaskPage)
  {
    && (forall s :: s in after <==> s in before || s in tasks)
    && (forall s :: s in after ==> after[s] == if s in tasks then page else before[s])
  }

  lemma AddingPage(
    before: map<int, ImmediateTaskPage>, after: map<int, ImmediateTaskPage>, tasks: seq<int>, page: ImmediateTaskPage,
    other: ImmediateTaskPage)
    requires Adds(before, after, tasks, page) && Increasing(tasks)
    requires forall s :: s in before ==> s !in tasks && before[s] != page
    ensures OutstandingIn(after, page) == Elements(tasks) && |OutstandingIn(after, page)| == |tasks|
    ensures other != page ==> OutstandingIn(after, other) == OutstandingIn(before, other)
  {
    ElementsOfIncreasing(tasks);
    SameElements(OutstandingIn(after, page), Elements(tasks));
    if other != page {
      SameElements(OutstandingIn(after, other), OutstandingIn(before, other));
    }
  }

  lemma AddingPages(
    before: map<int, ImmediateTaskPage>, after: map<int, ImmediateTaskPage>, tasks: seq<int>, page: ImmediateTaskPage,
    pages: seq<ImmediateTaskPage>)
    requires Adds(before, after, tasks, page) && Increasing(tasks) && page !in pages
    requires forall s :: s in before ==> s !in tasks && before[s] in pages
    ensures OutstandingIn(after, page) == Elements(tasks) && |OutstandingIn(after, page)| == |tasks|
    ensures forall other | other in pages :: OutstandingIn(after, other) == OutstandingIn(before, other)
  {
    AddingPage(before, after, tasks, page, page);
    forall other | other in pages ensures OutstandingIn(after, other) == OutstandingIn(before, other) {
      AddingPage(before, after, tasks, page, other);
    }
  }

  lemma AddedToDispatched(
    before: map<int, ImmediateTaskPage>, after: map<int, ImmediateTaskPage>, tasks: seq<int>, page: ImmediateTaskPage,
    dispatched: seq<int>)
    requires Adds(before, after, tasks, page) && forall s :: s in before ==> s in dispatched
    ensures forall s :: s in after ==> s in dispatched + tasks
  {
  }

  lemma DispatchingIncreases(dispatched: seq<int>, cursor: int, tasks: seq<int>)
    requires Increasing(dispatched) && (forall s :: s in dispatched ==> s < cursor)
    requires Increasing(tasks) && tasks != [] && forall s :: s in tasks ==> cursor <= s
    ensures Increasing(dispatched + tasks)
    ensures forall s :: s in dispatched + tasks ==> s <= tasks[|tasks| - 1]
  {
    assert tasks[|tasks| - 1] in tasks;
    forall i, j | 0 <= i < j < |dispatched + tasks| ensures (dispatched + tasks)[i] < (dispatched + tasks)[j] {
      assert i < |dispatched| ==> dispatched[i] in dispatched;
      assert |dispatched| <= j ==> tasks[j - |dispatched|] in tasks;
    }
  }

  class ImmediateTaskQueue {
    var currentReadCursor: int
    var pendingTaskSequenceToPage: map<int, ImmediateTaskPage>
    var completedPages: seq<ImmediateTaskPage>
    var tasksToProcess: seq<int>
    /** All pages ever polled, in order. */
    ghost var pages: seq<ImmediateTaskPage>

    /** Pages cover increasing ranges, and every outstanding task lies in its own page's range. */
    ghost predicate Ranges()
      reads this, pages
    {
      && (forall i, j :: 0 <= i < j < |pages| ==> pages[i].maxTaskSequence < pages[j].minTaskSequence)
      && (forall i :: 0 <= i < |pages| ==>
            pages[i].minTaskSequence <= pages[i].maxTaskSequence < currentReadCursor)
      && (forall s :: s in pendingTaskSequenceToPage ==>
            var page := pendingTaskSequenceToPage[s];
            page in pages && page.minTaskSequence <= s <= page.maxTaskSequence)
    }

    ghost predicate Counts()
      reads this, pages
    {
      forall page :: page in pages ==> page.pendingCount == |OutstandingIn(pendingTaskSequenceToPage, page)|
    }

    /** A page completes once, when nothing of it is outstanding any more. */
    ghost predicate Completions()
      reads this, pages
    {
      && (forall page :: page in completedPages ==> page in pages && page.pendingCount == 0)
      && (forall page :: page in pages && page.pendingCount == 0 ==> page in completedPages)
      && (forall i, j :: 0 <= i < j < |completedPages| ==> completedPages[i] != completedPages[j])
    }

    /** No sequence is ever dispatched twice. */
    ghost predicate Dispatches()
      reads this
    {
      && Increasing(tasksToProcess)
      && (forall s :: s in tasksToProcess ==> s < currentReadCursor)
      && (forall s :: s in pendingTaskSequenceToPage ==> s in tasksToProcess)
    }

    ghost predicate Valid()
      reads this, pages
    {
      Ranges() && Counts() && Completions() && Dispatches()
    }

    constructor ()
      ensures Valid() && pages == [] && currentReadCursor == 0
    {
      currentReadCursor, pendingTaskSequenceToPage, completedPages, tasksToProcess, pages := 0, map[], [], [], [];
    }

    method Dispatch(tasks: seq<int>, page: ImmediateTaskPage)
      modifies this`tasksToProcess, this`pendingTaskSequenceToPage
      ensures tasksToProcess == old(tasksToProcess) + tasks
      ensures Adds(old(pendingTaskSequenceToPage), pendingTaskSequenceToPage, tasks, page)
    {
      for n := 0 to |tasks|
        invariant tasksToProcess == old(tasksToProcess) + tasks[..n]
        invariant Adds(old(pendingTaskSequenceToPage), pendingTaskSequenceToPage, tasks[..n], page)
      {
        assert tasks[..n + 1] == tasks[..n] + [tasks[n]];
        tasksToProcess := tasksToProcess + [tasks[n]];
        pendingTaskSequenceToPage := pendingTaskSequenceToPage[tasks[n] := page];
      }
      assert tasks[..|tasks|] == tasks;
    }

    method AddPage(tasks: seq<int>) returns (page: ImmediateTaskPage)
      requires Ranges() && Completions() && tasks != []
      requires Increasing(tasks) && forall s :: s in tasks ==> currentReadCursor <= s
      modifies this`currentReadCursor, this`tasksToProcess, this`pendingTaskSequenceToPage, this`pages
      ensures Ranges() && Completions() && fresh(page) && pages == old(pages) + [page]
      ensures currentReadCursor == tasks[|tasks| - 1] + 1
      ensures page.minTaskSequence == tasks[0] && page.maxTaskSequence == tasks[|tasks| - 1]
      ensures page.pendingCount == |tasks|
      ensures tasksToProcess == old(tasksToProcess) + tasks
      ensures Adds(old(pendingTaskSequenceToPage), pendingTaskSequenceToPage, tasks, page)
    {
      assert tasks[0] in tasks && forall s :: s in tasks ==> tasks[0] <= s <= tasks[|tasks| - 1];
      hide Increasing;
      currentReadCursor := tasks[|tasks| - 1] + 1;
      page := new ImmediateTaskPage(tasks[0], tasks[|tasks| - 1], |tasks|);
      Dispatch(tasks, page);
      pages := pages + [page];
    }

    method PollPage(tasks: seq<int>) returns (page: ImmediateTaskPage)
      requires Valid() && Increasing(tasks) && tasks != [] && forall s :: s in tasks ==> currentReadCursor <= s
      modifies this`currentReadCursor, this`tasksToProcess, this`pendingTaskSequenceToPage, this`pages
      ensures Valid() && fresh(page) && pages == old(pages) + [page]
      ensures tasksToProcess == old(tasksToProcess) + tasks && currentReadCursor == tasks[|tasks| - 1] + 1
      ensures OutstandingIn(pendingTaskSequenceToPage, page) == Elements(tasks)
    {
      ghost var before, dispatched, polled := pendingTaskSequenceToPage, tasksToProcess, pages;
      assert forall s :: s in before ==> s in dispatched;
      DispatchingIncreases(dispatched, currentReadCursor, tasks);
      hide Increasing, Elements, OutstandingIn, Ranges, Completions, Adds;
      page := AddPage(tasks);
      AddedToDispatched(before, pendingTaskSequenceToPage, tasks, page, dispatched);
      AddingPages(before, pendingTaskSequenceToPage, tasks, page, polled);
    }

    /** The tasks are the store's first page from the cursor on. */
    method PollAndDispatch(tasks: seq<int>)
      requires Valid() && Increasing(tasks) && forall s :: s in tasks ==> currentReadCursor <= s
      modifies this
      ensures Valid()
      ensures tasksToProcess == old(tasksToProcess) + tasks && completedPages == old(completedPages)
      ensures tasks == [] ==> pages == old(pages) && currentReadCursor == old(currentReadCursor)
      ensures tasks != [] ==>
                && currentReadCursor == tasks[|tasks| - 1] + 1
                && |pages| == |old(pages)| + 1 && pages[..|old(pages)|] == old(pages) && fresh(pages[|old(pages)|])
                && OutstandingIn(pendingTaskSequenceToPage, pages[|old(pages)|]) == Elements(tasks)
    {
      if |tasks| > 0 {
        var _ := PollPage(tasks);
      }
    }

    method Complete(page: ImmediateTaskPage)
      requires page in pages && page !in completedPages
      requires forall other :: other in completedPages ==> other in pages && other.pendingCount == 0
      requires forall other :: other in pages && other.pendingCount == 0 ==> other in completedPages || other == page
      requires forall i, j :: 0 <= i < j < |completedPages| ==> completedPages[i] != completedPages[j]
      modifies this`completedPages
      ensures completedPages == old(completedPages) + if page.pendingCount == 0 then [page] else []
      ensures Completions()
    {
      if page.pendingCount == 0 {
        completedPages := completedPages + [page];
      }
    }

    /** A task that was never dispatched has no page, and the program would fail. */
    method ReceiveCompletedTask(s: int)
      requires Valid() && s in pendingTaskSequenceToPage
      modifies this, pendingTaskSequenceToPage[s]
      ensures Valid() && pages == old(pages) && currentReadCursor == old(currentReadCursor)
      ensures pendingTaskSequenceToPage == old(pendingTaskSequenceToPage) - {s}
      ensures tasksToProcess == old(tasksToProcess)
      ensures var page := old(pendingTaskSequenceToPage[s]);
        && page.pendingCount == old(page.pendingCount) - 1
        && completedPages == old(completedPages)
                             + if OutstandingIn(pendingTaskSequenceToPage, page) == {} then [page] else []
    {
      var page := pendingTaskSequenceToPage[s];
      forall other | other in pages
        ensures |OutstandingIn(pendingTaskSequenceToPage - {s}, other)|
             == other.pendingCount - if other == page then 1 else 0
      {
        RemovingOne(pendingTaskSequenceToPage, s, other);
      }
      hide OutstandingIn, Increasing;
      pendingTaskSequenceToPage := pendingTaskSequenceToPage - {s};
      page.pendingCount := page.pendingCount - 1;
      Complete(page);
    }

    /** The ranges of completed pages are disjoint, and hold no outstanding task. */
    lemma CompletedPagesAreDisjoint(i: nat, j: nat, s: int)
      requires Valid() && i < |completedPages| && j < |completedPages|
      requires completedPages[i].minTaskSequence <= s <= completedPages[i].maxTaskSequence
      ensures s !in pendingTaskSequenceToPage
      ensures completedPages[j].minTaskSequence <= s <= completedPages[j].maxTaskSequence ==> i == j
    {
      var page := completedPages[i];
      assert page in completedPages && completedPages[j] in completedPages;
      assert s in pendingTaskSequenceToPage ==> 
        s in OutstandingIn(pendingTaskSequenceToPage, pendingTaskSequenceToPage[s]);
    }
  }
}
