/**
  `init_heap` of `allocators/mod.rs`: the heap's pages are mapped one by one to frames from an
  allocator that the page mapper also draws its own table frames from.
*/
module HeapMapping {
  import opened Frames

  const HEAP_START: nat := 0x4444_4444_0000
  const HEAP_SIZE: nat := 1000 * 1024

  /**
    What the mapper, which is known only by contract, does for one page: how many table frames it
    takes, and whether it then refuses.
  */
  datatype Plan = Plan(tables: nat, refuses: bool)

  datatype Outcome = Mapped | FrameAllocationFailed | Refused

  /** Where the boot process is: the next frame, the pages mapped, and the frames turned into tables. */
  datatype Boot = Boot(next: nat, pages: map<nat, nat>, tables: seq<nat>)

  // ----- The page range -----

  /** The pages from the one holding `first` to the one holding `last`, by address. */
  function PageRange(first: nat, last: nat): seq<nat>
    decreases last + 4096 - first
  {
    if Containing(first) > last then [] else [Containing(first)] + PageRange(Containing(first) + 4096, last)
  }

  function HeapPages(start: nat, size: nat): seq<nat>
    requires size > 0
  {
    PageRange(start, start + size - 1)
  }

  // ----- Mapping -----

  /** `n` table frames taken in turn; stops at the first failure. */
  function TablesTaken(frames: seq<nat>, b: Boot, n: nat): (Boot, bool) {
    if n == 0 then (b, true)
    else
      var (c, ok) := TablesTaken(frames, b, n - 1);
      if !ok then (c, false)
      else if c.next < |frames| then (c.(next := c.next + 1, tables := c.tables + [frames[c.next]]), true)
      else (c.(next := c.next + 1), false)
  }

  /** One turn of the loop: a frame for the page, then `map_to`. */
  function PageMapped(frames: seq<nat>, b: Boot, page: nat, plan: Plan): (Boot, Outcome) {
    if b.next >= |frames| then (b.(next := b.next + 1), FrameAllocationFailed)
    else
      var (c, ok) := TablesTaken(frames, b.(next := b.next + 1), plan.tables);
      if !ok then (c, FrameAllocationFailed)
      else if plan.refuses then (c, Refused)
      else (c.(pages := c.pages[page := frames[b.next]]), Mapped)
  }

  /** The first `k` turns, stopping at the first that fails. */
  function PagesMapped(frames: seq<nat>, b: Boot, pages: seq<nat>, plans: seq<Plan>, k: nat): (Boot, Outcome)
    requires k <= |pages| == |plans|
  {
    if k == 0 then (b, Mapped)
    else
      var (c, r) := PagesMapped(frames, b, pages, plans, k - 1);
      if r.Mapped? then PageMapped(frames, c, pages[k - 1], plans[k - 1]) else (c, r)
  }

  class Mapper {
    var pages: map<nat, nat>
    var tables: seq<nat>

    constructor ()
      ensures pages == map[] && tables == []
    {
      pages, tables := map[], [];
    }

    function View(a: BootInfoFrameAllocator): Boot
      reads this, a
    {
      Boot(a.next, pages, tables)
    }

    /** The contract of `map_to`: table frames come from the same allocator. */
    method MapTo(page: nat, frame: nat, plan: Plan, a: BootInfoFrameAllocator) returns (r: Outcome)
      modifies this, a`next
      ensures var (c, ok) := TablesTaken(UsableFrames(a.memoryMap), old(View(a)), plan.tables);
              if !ok then r == FrameAllocationFailed && View(a) == c
              else if plan.refuses then r == Refused && View(a) == c
              else r == Mapped && View(a) == c.(pages := c.pages[page := frame])
    {
      ghost var frames := UsableFrames(a.memoryMap);
      for i := 0 to plan.tables
        invariant TablesTaken(frames, old(View(a)), i) == (View(a), true)
      {
        var t := a.AllocateFrame();
        if t.None? {
          TablesStayFailed(frames, old(View(a)), i + 1, plan.tables);
          return FrameAllocationFailed;
        }
        tables := tables + [t.value];
      }
      if plan.refuses {
        return Refused;
      }
      pages := pages[page := frame];
      r := Mapped;
    }
  }

  lemma {:induction false} TablesStayFailed(frames: seq<nat>, b: Boot, i: nat, n: nat)
    requires i <= n && !TablesTaken(frames, b, i).1
    ensures TablesTaken(frames, b, n) == TablesTaken(frames, b, i)
  {
    if i < n {
      TablesStayFailed(frames, b, i, n - 1);
    }
  }

  lemma {:induction false} PagesStayFailed(frames: seq<nat>, b: Boot, pages: seq<nat>, plans: seq<Plan>, i: nat, n: nat)
    requires i <= n <= |pages| == |plans| && !PagesMapped(frames, b, pages, plans, i).1.Mapped?
    ensures PagesMapped(frames, b, pages, plans, n) == PagesMapped(frames, b, pages, plans, i)
  {
    if i < n {
      PagesStayFailed(frames, b, pages, plans, i, n - 1);
    }
  }

  method InitHeap(start: nat, size: nat, m: Mapper, a: BootInfoFrameAllocator, plans: seq<Plan>) returns (r: Outcome)
    requires size > 0 && |plans| == |HeapPages(start, size)|
    modifies m, a`next
    ensures (m.View(a), r)
         == PagesMapped(UsableFrames(a.memoryMap), old(m.View(a)), HeapPages(start, size), plans, |plans|)
  {
    var range := HeapPages(start, size);
    ghost var frames := UsableFrames(a.memoryMap);
    for i := 0 to |range|
      invariant PagesMapped(frames, old(m.View(a)), range, plans, i) == (m.View(a), Mapped)
    {
      var frame := a.AllocateFrame();
      if frame.None? {
        PagesStayFailed(frames, old(m.View(a)), range, plans, i + 1, |range|);
        return FrameAllocationFailed;
      }
      r := m.MapTo(range[i], frame.value, plans[i], a);
      if r != Mapped {
        PagesStayFailed(frames, old(m.View(a)), range, plans, i + 1, |range|);
        return r;
      }
    }
    r := Mapped;
  }

  // ----- Which pages -----

  lemma {:induction false} PageRangeExact(first: nat, last: nat, p: nat)
    ensures p in PageRange(first, last) <==> p % 4096 == 0 && Containing(first) <= p <= last
    decreases last + 4096 - first
  {
    if Containing(first) <= last {
      PageRangeExact(Containing(first) + 4096, last, p);
      assert Containing(Containing(first) + 4096) == Containing(first) + 4096;
    }
  }

  /** Every byte of the heap is on one of the pages. */
  lemma HeapCovered(start: nat, size: nat, a: nat)
    requires size > 0 && start <= a < start + size
    ensures Containing(a) in HeapPages(start, size)
  {
    PageRangeExact(start, start + size - 1, Containing(a));
  }

  // ----- Who gets which frame -----

  /** Frames are used once: by one page, or as one table, and only from `low` up to the next one. */
  ghost predicate Disjointly(frames: seq<nat>, low: nat, b: Boot) {
    && low <= b.next
    && (forall p :: p in b.pages ==> UsedFrom(frames, low, b.next, b.pages[p]) && b.pages[p] !in b.tables)
    && (forall p, q :: p in b.pages && q in b.pages && p != q ==> b.pages[p] != b.pages[q])
    && (forall i :: 0 <= i < |b.tables| ==> UsedFrom(frames, low, b.next, b.tables[i]))
    && NoRepeats(b.tables)
  }

  predicate UsedFrom(frames: seq<nat>, low: nat, high: nat, f: nat) {
    exists k :: low <= k < high && k < |frames| && frames[k] == f
  }

  lemma UsedLonger(frames: seq<nat>, low: nat, high: nat, f: nat)
    requires UsedFrom(frames, low, high, f)
    ensures UsedFrom(frames, low, high + 1, f)
  {
  }

  lemma Reserve(frames: seq<nat>, low: nat, b: Boot)
    requires Disjointly(frames, low, b)
    ensures Disjointly(frames, low, b.(next := b.next + 1))
  {
  }

  /** `f` is taken from the allocator but not used yet. */
  ghost predicate Pending(frames: seq<nat>, low: nat, b: Boot, f: nat) {
    && UsedFrom(frames, low, b.next, f) && f !in b.tables
    && (forall p :: p in b.pages ==> b.pages[p] != f)
  }

  lemma {:induction false} TablesKeep(frames: seq<nat>, low: nat, b: Boot, n: nat, f: nat)
    requires NoRepeats(frames) && Disjointly(frames, low, b) && Pending(frames, low, b, f)
    ensures var c := TablesTaken(frames, b, n).0;
            Disjointly(frames, low, c) && Pending(frames, low, c, f) && c.pages == b.pages
  {
    if n != 0 {
      TablesKeep(frames, low, b, n - 1, f);
      UsedLonger(frames, low, TablesTaken(frames, b, n - 1).0.next, f);
    }
  }

  lemma PageTaken(frames: seq<nat>, low: nat, b: Boot)
    requires NoRepeats(frames) && Disjointly(frames, low, b) && b.next < |frames|
    ensures Disjointly(frames, low, b.(next := b.next + 1))
    ensures Pending(frames, low, b.(next := b.next + 1), frames[b.next])
  {
  }

  lemma PageEntered(frames: seq<nat>, low: nat, b: Boot, page: nat, f: nat)
    requires Disjointly(frames, low, b) && Pending(frames, low, b, f)
    ensures Disjointly(frames, low, b.(pages := b.pages[page := f]))
  {
  }

  lemma PageKeeps(frames: seq<nat>, low: nat, b: Boot, page: nat, plan: Plan)
    requires NoRepeats(frames) && Disjointly(frames, low, b)
    ensures var (c, r) := PageMapped(frames, b, page, plan);
            && Disjointly(frames, low, c)
            && c.pages.Keys == if r.Mapped? then b.pages.Keys + {page} else b.pages.Keys
  {
    if b.next >= |frames| {
      Reserve(frames, low, b);
    } else {
      var f, b1 := frames[b.next], b.(next := b.next + 1);
      PageTaken(frames, low, b);
      TablesKeep(frames, low, b1, plan.tables, f);
      PageEntered(frames, low, TablesTaken(frames, b1, plan.tables).0, page, f);
    }
  }

  lemma {:induction false} PagesKeep(frames: seq<nat>, low: nat, b: Boot, pages: seq<nat>, plans: seq<Plan>, k: nat)
    requires NoRepeats(frames) && Disjointly(frames, low, b) && k <= |pages| == |plans|
    ensures var (c, r) := PagesMapped(frames, b, pages, plans, k);
            && Disjointly(frames, low, c)
            && (r.Mapped? ==> forall p :: p in c.pages <==> p in b.pages || p in pages[..k])
  {
    if k != 0 {
      PagesKeep(frames, low, b, pages, plans, k - 1);
      var (c, r) := PagesMapped(frames, b, pages, plans, k - 1);
      if r.Mapped? {
        PageKeeps(frames, low, c, pages[k - 1], plans[k - 1]);
        assert pages[..k] == pages[..k - 1] + [pages[k - 1]];
      }
    }
  }

  /** The state before `init_heap`: nothing mapped by it yet. */
  function Fresh(next: nat): Boot {
    Boot(next, map[], [])
  }

  /**
    When `init_heap` succeeds, exactly the heap's pages are mapped, each to a usable frame of its
    own, and none of those frames is also a page table.
  */
  lemma HeapMappedSafely(regions: seq<Region>, next: nat, start: nat, size: nat, plans: seq<Plan>)
    requires ValidMap(regions) && size > 0 && |plans| == |HeapPages(start, size)|
    requires PagesMapped(UsableFrames(regions), Fresh(next), HeapPages(start, size), plans, |plans|).1.Mapped?
    ensures var b := PagesMapped(UsableFrames(regions), Fresh(next), HeapPages(start, size), plans, |plans|).0;
            && (forall a :: start <= a < start + size ==> Containing(a) in b.pages)
            && (forall p :: p in b.pages ==>
                  p in HeapPages(start, size) && InSomeUsable(b.pages[p], regions) && b.pages[p] !in b.tables)
            && (forall p, q :: p in b.pages && q in b.pages && p != q ==> b.pages[p] != b.pages[q])
  {
    var frames, pages := UsableFrames(regions), HeapPages(start, size);
    var b := PagesMapped(frames, Fresh(next), pages, plans, |plans|).0;
    FramesDistinct(regions);
    PagesKeep(frames, next, Fresh(next), pages, plans, |plans|);
    assert pages[..|plans|] == pages;
    forall a | start <= a < start + size
      ensures Containing(a) in b.pages
    {
      HeapCovered(start, size, a);
    }
    forall p | p in b.pages
      ensures InSomeUsable(b.pages[p], regions)
    {
      FramesExact(regions, b.pages[p]);
    }
  }

  // ----- When it succeeds -----

  /** How many frames the first `k` pages and their tables take. */
  function Cost(plans: seq<Plan>, k: nat): nat
    requires k <= |plans|
  {
    if k == 0 then 0 else Cost(plans, k - 1) + 1 + plans[k - 1].tables
  }

  predicate Enough(frames: seq<nat>, next: nat, n: nat) {
    n == 0 || next + n <= |frames|
  }

  lemma {:induction false} TablesTakenIff(frames: seq<nat>, b: Boot, n: nat)
    ensures TablesTaken(frames, b, n).1 <==> Enough(frames, b.next, n)
    ensures TablesTaken(frames, b, n).1 ==> TablesTaken(frames, b, n).0.next == b.next + n
  {
    if n != 0 {
      TablesTakenIff(frames, b, n - 1);
    }
  }

  predicate NoneRefuses(plans: seq<Plan>, k: nat)
    requires k <= |plans|
  {
    forall i :: 0 <= i < k ==> !plans[i].refuses
  }

  /** `init_heap` succeeds exactly when no page is refused and the usable frames suffice for pages and tables. */
  lemma {:induction false} HeapMappedIff(frames: seq<nat>, b: Boot, pages: seq<nat>, plans: seq<Plan>, k: nat)
    requires k <= |pages| == |plans|
    ensures PagesMapped(frames, b, pages, plans, k).1.Mapped?
       <==> NoneRefuses(plans, k) && Enough(frames, b.next, Cost(plans, k))
    ensures PagesMapped(frames, b, pages, plans, k).1.Mapped?
        ==> PagesMapped(frames, b, pages, plans, k).0.next == b.next + Cost(plans, k)
  {
    if k != 0 {
      HeapMappedIff(frames, b, pages, plans, k - 1);
      var (c, r) := PagesMapped(frames, b, pages, plans, k - 1);
      if r.Mapped? {
        TablesTakenIff(frames, c.(next := c.next + 1), plans[k - 1].tables);
      }
    }
  }

  /** The frame of a page can only run out or be refused, and it is the first trouble that is reported. */
  lemma {:induction false} HeapMappingFails(frames: seq<nat>, b: Boot, pages: seq<nat>, plans: seq<Plan>, k: nat)
    requires k <= |pages| == |plans|
    ensures PagesMapped(frames, b, pages, plans, k).1.Refused?
       <==> exists i :: 0 <= i < k && RefusedAt(frames, b.next, plans, i)
    ensures PagesMapped(frames, b, pages, plans, k).1.FrameAllocationFailed?
       <==> exists i :: 0 <= i < k && RunsOutAt(frames, b.next, plans, i)
  {
    if k != 0 {
      HeapMappingFails(frames, b, pages, plans, k - 1);
      HeapMappedIff(frames, b, pages, plans, k - 1);
      var (c, r) := PagesMapped(frames, b, pages, plans, k - 1);
      if r.Mapped? {
        TablesTakenIff(frames, c.(next := c.next + 1), plans[k - 1].tables);
        assert PagesMapped(frames, b, pages, plans, k).1.Refused? <==> RefusedAt(frames, b.next, plans, k - 1);
        assert PagesMapped(frames, b, pages, plans, k).1.FrameAllocationFailed?
          <==> RunsOutAt(frames, b.next, plans, k - 1);
      } else {
        LaterIsSilent(frames, b.next, plans, k - 1);
      }
    }
  }

  /** Once a page was refused or frames ran out, a later page adds no other trouble. */
  lemma LaterIsSilent(frames: seq<nat>, next: nat, plans: seq<Plan>, k: nat)
    requires k < |plans| && !(NoneRefuses(plans, k) && Enough(frames, next, Cost(plans, k)))
    ensures !RefusedAt(frames, next, plans, k)
    ensures RunsOutAt(frames, next, plans, k) ==> exists i :: 0 <= i < k && RunsOutAt(frames, next, plans, i)
  {
    CostGrows(plans, k, k + 1);
    if RunsOutAt(frames, next, plans, k) {
      FirstShortage(frames, next, plans, k);
    }
  }

  lemma {:induction false} FirstShortage(frames: seq<nat>, next: nat, plans: seq<Plan>, k: nat)
    requires k <= |plans| && NoneRefuses(plans, k) && !Enough(frames, next, Cost(plans, k))
    ensures exists i :: 0 <= i < k && RunsOutAt(frames, next, plans, i)
  {
    assert k != 0;
    assert RunsOutAt(frames, next, plans, k - 1);
  }

  /** Page `i` is the first to be refused, and frames sufficed up to and including it. */
  predicate RefusedAt(frames: seq<nat>, next: nat, plans: seq<Plan>, i: nat)
    requires i < |plans|
  {
    NoneRefuses(plans, i) && plans[i].refuses && Enough(frames, next, Cost(plans, i + 1))
  }

  /** No page before `i` is refused, and frames do not suffice for page `i` and its tables. */
  predicate RunsOutAt(frames: seq<nat>, next: nat, plans: seq<Plan>, i: nat)
    requires i < |plans|
  {
    NoneRefuses(plans, i) && !Enough(frames, next, Cost(plans, i + 1))
  }

  lemma {:induction false} CostGrows(plans: seq<Plan>, i: nat, k: nat)
    requires i <= k <= |plans|
    ensures Cost(plans, i) <= Cost(plans, k)
    decreases k
  {
    if i < k {
      CostGrows(plans, i, k - 1);
    }
  }

  lemma {:induction false} PageRangeAt(first: nat, last: nat, j: nat)
    requires j < |PageRange(first, last)|
    ensures PageRange(first, last)[j] == Containing(first) + 4096 * j
    decreases j
  {
    if j != 0 {
      PageRangeAt(Containing(first) + 4096, last, j - 1);
    }
  }

  lemma {:induction false} TablesLeavePages(frames: seq<nat>, b: Boot, n: nat)
    ensures TablesTaken(frames, b, n).0.pages == b.pages
  {
    if n != 0 {
      TablesLeavePages(frames, b, n - 1);
    }
  }

  /** When it succeeds, page `j` got the frame that follows those of the pages and tables before it. */
  lemma {:induction false} FrameOfPage(frames: seq<nat>, b: Boot, pages: seq<nat>, plans: seq<Plan>, k: nat, j: nat)
    requires j < k <= |pages| == |plans| && NoRepeats(pages)
    requires PagesMapped(frames, b, pages, plans, k).1.Mapped?
    ensures b.next + Cost(plans, j) < |frames|
    ensures var c := PagesMapped(frames, b, pages, plans, k).0;
            pages[j] in c.pages && c.pages[pages[j]] == frames[b.next + Cost(plans, j)]
    decreases k
  {
    var c := PagesMapped(frames, b, pages, plans, k - 1).0;
    HeapMappedIff(frames, b, pages, plans, k - 1);
    TablesLeavePages(frames, c.(next := c.next + 1), plans[k - 1].tables);
    if j < k - 1 {
      FrameOfPage(frames, b, pages, plans, k - 1, j);
    }
  }

  lemma {:induction false} RangeLength(first: nat, n: nat)
    requires first % 4096 == 0
    ensures |PageRange(first, first + 4096 * (n + 1) - 1)| == n + 1
    decreases n
  {
    if n != 0 {
      RangeLength(first + 4096, n - 1);
    }
  }

  /** The kernel's own heap is 250 whole pages, in order. */
  lemma KernelHeapPages(j: nat)
    ensures |HeapPages(HEAP_START, HEAP_SIZE)| == 250
    ensures j < 250 ==> HeapPages(HEAP_START, HEAP_SIZE)[j] == 0x4444_4444_0000 + 4096 * j
  {
    RangeLength(HEAP_START, 249);
    if j < 250 {
      PageRangeAt(HEAP_START, HEAP_START + HEAP_SIZE - 1, j);
    }
  }
}
