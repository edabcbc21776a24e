/** What the allocator guarantees after every run. */
module BlocksRuns {
  import opened Prelude
  import opened Cells
  import opened Blocks
  import opened BlocksSafety

  /** The allocator before its first call, over any memory. */
  function Empty(m: Memory): World {
    World(Heap(seq(|BLOCK_SIZES|, _ => 0), m, map[]), map[], seq(|BLOCK_SIZES|, _ => []))
  }

  lemma EmptyOk(m: Memory)
    ensures Inv(Empty(m))
  {
  }

  /** What one event does; an event that breaks a contract does not happen. */
  ghost predicate Follows(v: World, e: Event, v': World)
    requires Inv(v)
  {
    v' == if Enabled(v, e) then StepWorld(v, e) else v
  }

  /** Events, and the states before, between and after them. */
  datatype Run = Run(worlds: seq<World>, events: seq<Event>)

  predicate Sized(r: Run) {
    |r.worlds| == |r.events| + 1
  }

  ghost predicate StepAt(r: Run, k: nat)
    requires Sized(r) && k < |r.events|
  {
    Inv(r.worlds[k]) ==> Follows(r.worlds[k], r.events[k], r.worlds[k + 1])
  }

  /** A run of the allocator from before its first call, over any memory. */
  ghost predicate IsRun(r: Run) {
    Sized(r) && r.worlds[0] == Empty(r.worlds[0].h.mem) && forall k :: 0 <= k < |r.events| ==> StepAt(r, k)
  }

  /** Any event continues a run. */
  lemma RunExtends(r: Run, e: Event, v: World)
    requires IsRun(r) && Inv(r.worlds[|r.events|]) && Follows(r.worlds[|r.events|], e, v)
    ensures IsRun(Run(r.worlds + [v], r.events + [e]))
  {
    var x := Run(r.worlds + [v], r.events + [e]);
    forall k | 0 <= k < |r.events|
      ensures StepAt(x, k)
    {
      StepKept(r, x, k);
    }
    assert StepAt(x, |r.events|);
  }

  lemma StepKept(r: Run, x: Run, k: nat)
    requires IsRun(r) && Sized(x) && k < |r.events| <= |x.events|
    requires r.events[k] == x.events[k] && x.worlds[k] == r.worlds[k] && x.worlds[k + 1] == r.worlds[k + 1]
    ensures StepAt(x, k)
  {
    assert StepAt(r, k);
  }

  lemma FollowsKeepsInv(v: World, e: Event, v': World)
    requires Inv(v) && Follows(v, e, v')
    ensures Inv(v')
  {
    if Enabled(v, e) {
      StepKeepsInv(v, e);
    }
  }

  /** The invariant holds at every point of every run. */
  lemma {:induction false} RunKeepsInv(r: Run, k: nat)
    requires IsRun(r) && k <= |r.events|
    ensures Inv(r.worlds[k])
  {
    if k == 0 {
      EmptyOk(r.worlds[0].h.mem);
    } else {
      RunKeepsInv(r, k - 1);
      assert StepAt(r, k - 1);
      FollowsKeepsInv(r.worlds[k - 1], r.events[k - 1], r.worlds[k]);
    }
  }

  lemma RunFollows(r: Run, k: nat)
    requires IsRun(r) && k < |r.events|
    ensures Inv(r.worlds[k]) && Follows(r.worlds[k], r.events[k], r.worlds[k + 1])
  {
    RunKeepsInv(r, k);
    assert StepAt(r, k);
  }

  // ----- Alignment -----

  lemma {:induction false} Pow2Sum(j: nat, k: nat)
    ensures Pow2(j + k) == Pow2(j) * Pow2(k)
  {
    if k != 0 {
      Pow2Sum(j, k - 1);
      assert 2 * (Pow2(j) * Pow2(k - 1)) == Pow2(j) * (2 * Pow2(k - 1));
    }
  }

  lemma {:induction false} Pow2Grows(j: nat, k: nat)
    requires j <= k
    ensures Pow2(j) <= Pow2(k)
  {
    if j < k {
      Pow2Grows(j, k - 1);
    }
  }

  lemma BlockSizeIsPow2(i: nat)
    requires i < |BLOCK_SIZES|
    ensures BLOCK_SIZES[i] == Pow2(i + 3)
  {
    assert Pow2(3) == 8;
    assert Pow2(11) == 2048;
  }

  /** The class of a request is the smallest power of two, from 8 to 4096, that fits its size and its alignment. */
  lemma ListIndexLaw(l: Layout)
    ensures ListIndex(l).None? <==> l.size > 4096 || l.align > 4096
    ensures var i := ListIndex(l);
            i.Some? ==>
              && i.value < 10 && l.size <= Pow2(i.value + 3) && l.align <= Pow2(i.value + 3)
              && ClassLayout(i.value) == Layout(Pow2(i.value + 3), Pow2(i.value + 3))
              && forall k :: 3 <= k < i.value + 3 ==> Pow2(k) < l.size || Pow2(k) < l.align
  {
    var i := ListIndex(l);
    if i.Some? {
      BlockSizeIsPow2(i.value);
      forall k | 3 <= k < i.value + 3
        ensures Pow2(k) < l.size || Pow2(k) < l.align
      {
        BlockSizeIsPow2(k - 3);
      }
    }
    assert BLOCK_SIZES[9] == 4096;
  }

  lemma MultipleOfDivisor(p: int, a: nat, b: nat)
    requires a > 0 && b > 0 && p % (a * b) == 0
    ensures p % a == 0
  {
    var q := p / (a * b);
    MultipleOf(a, b * q);
  }

  lemma MultipleOf(a: int, q: int)
    requires a > 0
    ensures (a * q) % a == 0
  {
    var r := (a * q) % a;
    var d := q - (a * q) / a;
    assert a * d == r;
    assert d <= -1 ==> a * d <= -a;
  }

  /** Being aligned to a block size, a power of two, is being aligned to every smaller power of two. */
  lemma AlignedToSmaller(p: int, i: nat, align: nat)
    requires i < |BLOCK_SIZES| && IsPow2(align) && align <= BLOCK_SIZES[i] && p % BLOCK_SIZES[i] == 0
    ensures p % align == 0
  {
    var k: nat :| Pow2(k) == align;
    BlockSizeIsPow2(i);
    if k > i + 3 {
      Pow2Grows(i + 4, k);
    }
    Pow2Sum(k, i + 3 - k);
    MultipleOfDivisor(p, align, Pow2(i + 3 - k));
  }

  // ----- Safety -----

  /** The block `p` is usable for the request `l`. */
  predicate Usable(p: int, l: Layout)
    requires l.align > 0
  {
    p > 0 && p % l.align == 0
  }

  lemma LiveUsable(w: World, p: int)
    requires Inv(w) && p in w.live
    ensures w.live[p].align > 0 && Usable(p, w.live[p])
    ensures p in w.h.granted && w.live[p].size <= w.h.granted[p].size
  {
    var l := w.live[p];
    if ListIndex(l).Some? {
      AlignedToSmaller(p, ListIndex(l).value, l.align);
    }
  }

  lemma LiveDisjoint(w: World, p: int, q: int)
    requires Inv(w) && p in w.live && q in w.live && p != q
    ensures Disjoint(p, w.live[p], q, w.live[q])
  {
    assert Disjoint(p, w.h.granted[p], q, w.h.granted[q]);
  }

  /** The blocks met by following at most `n` pointers from `head`. */
  function Walk(m: Memory, head: int, n: nat): seq<int>
    decreases n
  {
    if n == 0 || head == 0 then [] else [head] + Walk(m, Next(m, head), n - 1)
  }

  lemma ChainTail(m: Memory, head: int, xs: seq<int>)
    requires Chain(m, head, xs) && xs != []
    ensures head == xs[0] && Chain(m, Next(m, head), xs[1..])
  {
    forall j | 0 <= j < |xs[1..]|
      ensures Next(m, xs[1..][j]) == Link(xs[1..], j + 1)
    {
      assert Next(m, xs[j + 1]) == Link(xs, j + 2);
    }
  }

  lemma WalkStep(m: Memory, head: int, xs: seq<int>, n: nat)
    requires n > 0 && xs != [] && xs[0] == head != 0 && Walk(m, Next(m, head), n - 1) == xs[1..]
    ensures Walk(m, head, n) == xs
  {
  }

  lemma {:induction false} WalkOfChain(m: Memory, head: int, xs: seq<int>, n: nat)
    requires Chain(m, head, xs) && 0 !in xs && n >= |xs|
    ensures Walk(m, head, n) == xs
    decreases n
  {
    if xs != [] {
      ChainTail(m, head, xs);
      WalkOfChain(m, Next(m, head), xs[1..], n - 1);
      WalkStep(m, head, xs, n);
    }
  }

  /**
    Allocator safety, for every run: live blocks are aligned, big enough and pairwise disjoint; ...
  */
  lemma LiveBlocksSafe(r: Run, k: nat, p: int, q: int)
    requires IsRun(r) && k <= |r.events|
    ensures var w := r.worlds[k];
            p in w.live ==>
              && w.live[p].align > 0 && Usable(p, w.live[p])
              && p in w.h.granted && w.live[p].size <= w.h.granted[p].size
    ensures var w := r.worlds[k];
            p in w.live && q in w.live && p != q ==> Disjoint(p, w.live[p], q, w.live[q])
  {
    var w := r.worlds[k];
    RunKeepsInv(r, k);
    if p in w.live {
      LiveUsable(w, p);
      if q in w.live && p != q {
        LiveDisjoint(w, p, q);
      }
    }
  }

  /** ... and each free list, read from memory, ends, repeats nothing, and holds only free blocks of its class. */
  lemma FreeListsSafe(r: Run, k: nat, i: nat, n: nat)
    requires IsRun(r) && k <= |r.events| && i < |BLOCK_SIZES|
    ensures Inv(r.worlds[k])
    ensures var w := r.worlds[k];
            && (n >= |w.free[i]| ==> Walk(w.h.mem, w.h.heads[i], n) == w.free[i])
            && DistinctSeq(w.free[i])
            && forall p :: p in w.free[i] ==> p !in w.live && IsClass(w.h.granted, p, i)
    ensures var w := r.worlds[k];
            forall p, j :: 0 <= j < |w.free| && p in w.free[i] && p in w.free[j] ==> i == j
  {
    var w := r.worlds[k];
    RunKeepsInv(r, k);
    if n >= |w.free[i]| {
      WalkOfChain(w.h.mem, w.h.heads[i], w.free[i], n);
    }
    forall p, j | 0 <= j < |w.free| && p in w.free[i] && p in w.free[j]
      ensures i == j
    {
      OneListOnly(w.h.granted, w.live, w.free, p, i, j);
    }
  }

  // ----- Client data -----

  /** No byte of the block `p` differs between the two memories, except possibly the one at `a`. */
  ghost predicate BytesKept(mem: Memory, mem': Memory, p: int, l: Layout, spot: Option<int>) {
    forall x :: InBlock(p, l, x) && spot != Some(x) ==> Read(mem', x) == Read(mem, x)
  }

  /** The byte a client writes in this event. */
  function Written(e: Event): Option<int> {
    if e.Write? then Some(e.a) else None
  }

  lemma LocalWriteKeepsBytes(w: World, q: int, wr: Memory, p: int)
    requires Inv(w) && p in w.live && q in w.h.granted && p != q
    requires forall x :: x in wr ==> InBlock(q, w.h.granted[q], x)
    ensures BytesKept(w.h.mem, w.h.mem + wr, p, w.live[p], None)
  {
    LiveUsable(w, p);
    assert Disjoint(p, w.h.granted[p], q, w.h.granted[q]);
  }

  lemma PatchKeepsBytes(w: World, patch: Memory, granted: map<int, Layout>, p: int)
    requires Inv(w) && p in w.live && Spares(patch, granted) && p in granted && granted[p] == w.h.granted[p]
    ensures BytesKept(w.h.mem, w.h.mem + patch, p, w.live[p], None)
  {
  }

  lemma AllocationKeepsBytes(w: World, l: Layout, reply: Reply, p: int)
    requires Inv(w) && Enabled(w, Allocate(l, reply)) && p in w.live
    ensures BytesKept(w.h.mem, Allocated(w.h, l, reply).0.mem, p, w.live[p], None)
    ensures Allocated(w.h, l, reply).1 != p
  {
    LiveUsable(w, p);
    if FromList(w.h, l) {
      var node := w.h.heads[ListIndex(l).value];
      HeadIsFirst(w, l, ListIndex(l).value);
      LocalWriteKeepsBytes(w, node, Block(node, Bytes(0, NODE_SIZE)), p);
    } else {
      PatchKeepsBytes(w, reply.patch, w.h.granted, p);
    }
  }

  lemma FreeingKeepsBytes(w: World, ptr: int, patch: Memory, p: int)
    requires Inv(w) && Enabled(w, Free(ptr, patch)) && p in w.live && p != ptr
    ensures BytesKept(w.h.mem, Deallocated(w.h, ptr, w.live[ptr], patch).mem, p, w.live[p], None)
  {
    assert Serves(w.h.granted, ptr, w.live[ptr]);
    LiveUsable(w, p);
    if ListIndex(w.live[ptr]).Some? {
      LocalWriteKeepsBytes(w, ptr, Block(ptr, Bytes(w.h.heads[ListIndex(w.live[ptr]).value], NODE_SIZE)), p);
    } else {
      PatchKeepsBytes(w, patch, w.h.granted - {ptr}, p);
    }
  }

  /** A live block's bytes change only by client writes to them, whatever is allocated or freed meanwhile. */
  lemma ClientDataKept(w: World, e: Event, p: int)
    requires Inv(w) && Enabled(w, e) && p in w.live && (e.Free? ==> e.ptr != p)
    ensures p in StepWorld(w, e).live && StepWorld(w, e).live[p] == w.live[p]
    ensures BytesKept(w.h.mem, StepWorld(w, e).h.mem, p, w.live[p], Written(e))
  {
    match e
    case Allocate(l, reply) => AllocationKeepsBytes(w, l, reply, p);
    case Free(ptr, patch) => FreeingKeepsBytes(w, ptr, patch, p);
    case Write(a, b) =>
  }

  ghost predicate KeptAt(v: World, v': World, p: int, l: Layout, x: int) {
    p in v.live && v.live[p] == l && InBlock(p, l, x) ==>
      p in v'.live && v'.live[p] == l && Read(v'.h.mem, x) == Read(v.h.mem, x)
  }

  /** The event neither frees `p` nor writes the byte at `x`. */
  predicate Leaves(e: Event, p: int, x: int) {
    (e.Free? ==> e.ptr != p) && Written(e) != Some(x)
  }

  lemma ByteKeptNext(v: World, e: Event, v': World, p: int, l: Layout, x: int)
    requires Inv(v) && Follows(v, e, v') && Leaves(e, p, x)
    ensures KeptAt(v, v', p, l, x)
  {
    if Enabled(v, e) && p in v.live {
      ClientDataKept(v, e, p);
    }
  }

  lemma KeptTwice(a: World, b: World, c: World, p: int, l: Layout, x: int)
    requires KeptAt(a, b, p, l, x) && KeptAt(b, c, p, l, x)
    ensures KeptAt(a, c, p, l, x)
  {
  }

  /** Over every run, a byte of a block that is neither freed nor written meanwhile reads the same at its end. */
  lemma {:induction false} ClientDataKeptInRuns(r: Run, k: nat, n: nat, p: int, l: Layout, x: int)
    requires IsRun(r) && k <= n <= |r.events| && (forall j :: k <= j < n ==> Leaves(r.events[j], p, x))
    ensures KeptAt(r.worlds[k], r.worlds[n], p, l, x)
    decreases n
  {
    if k < n {
      ClientDataKeptInRuns(r, k, n - 1, p, l, x);
      RunFollows(r, n - 1);
      ByteKeptNext(r.worlds[n - 1], r.events[n - 1], r.worlds[n], p, l, x);
      KeptTwice(r.worlds[k], r.worlds[n - 1], r.worlds[n], p, l, x);
    }
  }

  /** After every run, no live block overlaps a block that waits in a free list. */
  lemma FreeApartFromLive(r: Run, k: nat, p: int, q: int, i: nat)
    requires IsRun(r) && k <= |r.events| && i < |BLOCK_SIZES|
    ensures Inv(r.worlds[k])
    ensures p in r.worlds[k].live && q in r.worlds[k].free[i] ==> Disjoint(p, r.worlds[k].live[p], q, ClassLayout(i))
  {
    RunKeepsInv(r, k);
    if p in r.worlds[k].live && q in r.worlds[k].free[i] {
      FreeDisjoint(r.worlds[k], p, q, i);
    }
  }

  lemma FreeDisjoint(w: World, p: int, q: int, i: nat)
    requires Inv(w) && p in w.live && i < |BLOCK_SIZES| && q in w.free[i]
    ensures Disjoint(p, w.live[p], q, ClassLayout(i))
  {
    LiveUsable(w, p);
    assert Disjoint(p, w.h.granted[p], q, w.h.granted[q]);
  }

  /** An allocation fails only if no block of its class is free and the fallback fails too. */
  lemma AllocationAnswers(w: World, l: Layout, reply: Reply)
    requires Inv(w) && Enabled(w, Allocate(l, reply))
    ensures var ptr := Allocated(w.h, l, reply).1;
            && (ptr == 0 <==> reply.ptr == 0 && (ListIndex(l).Some? ==> w.free[ListIndex(l).value] == []))
            && (ptr != 0 ==> ptr !in w.live && StepWorld(w, Allocate(l, reply)).live == w.live[ptr := l])
  {
    if FromList(w.h, l) {
      HeadIsFirst(w, l, ListIndex(l).value);
    } else if ListIndex(l).Some? {
      ListEmpty(w, ListIndex(l).value);
    }
  }

  /** A block taken from a list is handed out with its link cleared, and is the block the list began with. */
  lemma TakenBlockUnlinked(w: World, l: Layout, reply: Reply)
    requires Inv(w) && FromList(w.h, l)
    ensures var (h, ptr) := Allocated(w.h, l, reply);
            var i := ListIndex(l).value;
            w.free[i] != [] && ptr == w.free[i][0] && Next(h.mem, ptr) == 0 && h.granted == w.h.granted
  {
    var i := ListIndex(l).value;
    assert Chain(w.h.mem, w.h.heads[i], w.free[i]);
    NextReadBack(w.h.mem, w.h.heads[i], 0);
  }

  lemma HeadInRange(w: World, i: nat)
    requires Inv(w) && i < |BLOCK_SIZES|
    ensures 0 <= w.h.heads[i] < U64
  {
  }

  lemma Pushed(h: Heap, ptr: int, freed: Layout, patch: Memory, i: nat, h': Heap)
    requires WellSized(h) && ListIndex(freed) == Some(i) && 0 <= h.heads[i] < U64
    requires h' == Deallocated(h, ptr, freed, patch)
    ensures h'.heads == h.heads[i := ptr] && Next(h'.mem, ptr) == h.heads[i] && h'.granted == h.granted
  {
    NextReadBack(h.mem, ptr, h.heads[i]);
  }

  lemma Popped(h: Heap, l: Layout, reply: Reply, i: nat)
    requires WellSized(h) && ListIndex(l) == Some(i) && h.heads[i] != 0
    ensures var (h', p) := Allocated(h, l, reply);
            p == h.heads[i] && h'.heads == h.heads[i := Next(h.mem, p)] && h'.granted == h.granted
  {
  }

  /** A freed block is the next one handed out for its class, and the list is then what it was before. */
  lemma FreedIsNext(w: World, ptr: int, patch: Memory, l: Layout, reply: Reply)
    requires Inv(w) && ptr in w.live && ListIndex(w.live[ptr]).Some? && ListIndex(l) == ListIndex(w.live[ptr])
    ensures var (h, p) := Allocated(Deallocated(w.h, ptr, w.live[ptr], patch), l, reply);
            p == ptr && h.heads == w.h.heads && h.granted == w.h.granted
  {
    LiveUsable(w, ptr);
    var i, h1 := ListIndex(l).value, Deallocated(w.h, ptr, w.live[ptr], patch);
    HeadInRange(w, i);
    Pushed(w.h, ptr, w.live[ptr], patch, i, h1);
    Popped(h1, l, reply, i);
  }

  // ----- Class stability -----

  /** What is carved for class `i` serves requests of class `i` and no others. */
  lemma ClassServesClass(w: World, p: int, i: nat)
    requires Inv(w) && p in w.live && i < |BLOCK_SIZES|
    ensures ListIndex(w.live[p]) == Some(i) <==> IsClass(w.h.granted, p, i)
  {
    ClassOfClassLayout(i);
    if ListIndex(w.live[p]).Some? {
      ClassOfClassLayout(ListIndex(w.live[p]).value);
    }
  }

  lemma ClassKeptByCarving(w: World, l: Layout, reply: Reply, p: int, i: nat)
    requires Inv(w) && Enabled(w, Allocate(l, reply)) && i < |BLOCK_SIZES| && IsClass(w.h.granted, p, i)
    requires !FromList(w.h, l) && reply.ptr != 0
    ensures IsClass(w.h.granted[reply.ptr := Asked(l)], p, i)
  {
    NewBlockIsNew(w.h.granted, reply.ptr, Asked(l));
  }

  lemma ClassKeptByFreeing(w: World, ptr: int, p: int, i: nat)
    requires Inv(w) && ptr in w.live && i < |BLOCK_SIZES| && IsClass(w.h.granted, p, i)
    ensures ListIndex(w.live[ptr]).None? ==> IsClass(w.h.granted - {ptr}, p, i)
  {
    ClassServesClass(w, ptr, i);
  }

  lemma ClassKept(w: World, e: Event, p: int, i: nat)
    requires Inv(w) && Enabled(w, e) && i < |BLOCK_SIZES| && IsClass(w.h.granted, p, i)
    ensures IsClass(StepWorld(w, e).h.granted, p, i)
  {
    match e
    case Allocate(l, reply) =>
      if !FromList(w.h, l) && reply.ptr != 0 {
        ClassKeptByCarving(w, l, reply, p, i);
      }
    case Free(ptr, patch) => ClassKeptByFreeing(w, ptr, p, i);
    case Write(a, b) =>
  }

  lemma ClassKeptNext(v: World, e: Event, v': World, p: int, i: nat)
    requires Inv(v) && Follows(v, e, v') && i < |BLOCK_SIZES|
    ensures IsClass(v.h.granted, p, i) ==> IsClass(v'.h.granted, p, i)
  {
    if Enabled(v, e) && IsClass(v.h.granted, p, i) {
      ClassKept(v, e, p, i);
    }
  }

  /** A block carved for class `i` stays one for ever: it is never returned to the fallback or cut anew, ... */
  lemma {:induction false} ClassStability(r: Run, k: nat, n: nat, p: int, i: nat)
    requires IsRun(r) && k <= n <= |r.events| && i < |BLOCK_SIZES|
    ensures IsClass(r.worlds[k].h.granted, p, i) ==> IsClass(r.worlds[n].h.granted, p, i)
    decreases n
  {
    if k < n {
      ClassStability(r, k, n - 1, p, i);
      RunFollows(r, n - 1);
      ClassKeptNext(r.worlds[n - 1], r.events[n - 1], r.worlds[n], p, i);
    }
  }

  /** ... it is handed out only for requests of class `i`, ... */
  lemma ClassReuse(r: Run, k: nat, n: nat, p: int, i: nat)
    requires IsRun(r) && k <= n <= |r.events| && i < |BLOCK_SIZES| && IsClass(r.worlds[k].h.granted, p, i)
    requires p in r.worlds[n].live
    ensures ListIndex(r.worlds[n].live[p]) == Some(i)
  {
    ClassStability(r, k, n, p, i);
    RunKeepsInv(r, n);
    ClassServesClass(r.worlds[n], p, i);
  }

  /** ... and the fallback gets every other block back with the layout it was asked for. */
  lemma ReturnedAsGranted(r: Run, k: nat, ptr: int)
    requires IsRun(r) && k <= |r.events| && ptr in r.worlds[k].live && ListIndex(r.worlds[k].live[ptr]).None?
    ensures ptr in r.worlds[k].h.granted && r.worlds[k].h.granted[ptr] == r.worlds[k].live[ptr]
  {
    RunKeepsInv(r, k);
  }

  // ----- The peak law -----

  /** The live blocks of class `i`. */
  function LiveOf(live: map<int, Layout>, i: nat): set<int> {
    set p | p in live && ListIndex(live[p]) == Some(i)
  }

  /** The blocks of class `i` the fallback has been asked for. */
  function CarvedOf(granted: map<int, Layout>, i: nat): set<int>
    requires i < |BLOCK_SIZES|
  {
    set p | p in granted && granted[p] == ClassLayout(i)
  }

  function Elems(xs: seq<int>): set<int> {
    set x | x in xs
  }

  lemma {:induction false} CountDistinct(xs: seq<int>)
    requires DistinctSeq(xs)
    ensures |Elems(xs)| == |xs|
  {
    if xs != [] {
      var n := |xs| - 1;
      CountDistinct(xs[..n]);
      assert Elems(xs) == Elems(xs[..n]) + {xs[n]};
      assert xs[n] !in xs[..n];
    }
  }

  /** Every block ever carved for a class is live or in its list. */
  lemma CarvedIsLiveOrFree(w: World, i: nat)
    requires Inv(w) && i < |BLOCK_SIZES|
    ensures CarvedOf(w.h.granted, i) == LiveOf(w.live, i) + Elems(w.free[i])
    ensures LiveOf(w.live, i) !! Elems(w.free[i])
  {
    forall p | p in w.h.granted
      ensures p in CarvedOf(w.h.granted, i) <==> p in LiveOf(w.live, i) || p in w.free[i]
    {
      CarvedWhere(w, p, i);
    }
    forall p | p in w.live
      ensures p in w.h.granted
    {
      assert Serves(w.h.granted, p, w.live[p]);
    }
  }

  lemma CarvedWhere(w: World, p: int, i: nat)
    requires Inv(w) && i < |BLOCK_SIZES| && p in w.h.granted
    ensures IsClass(w.h.granted, p, i) <==> (p in w.live && ListIndex(w.live[p]) == Some(i)) || p in w.free[i]
  {
    assert ListOk(w.h.granted, w.live, w.free[i], i);
    if p in w.live {
      ClassServesClass(w, p, i);
    } else if IsClass(w.h.granted, p, i) {
      var k :| 0 <= k < |w.free| && WaitsIn(w.free, p, k);
      ClassOfClassLayout(i);
      ClassOfClassLayout(k);
    }
  }

  lemma Balance(w: World, i: nat)
    requires Inv(w) && i < |BLOCK_SIZES|
    ensures |CarvedOf(w.h.granted, i)| == |LiveOf(w.live, i)| + |w.free[i]|
  {
    CarvedIsLiveOrFree(w, i);
    CountDistinct(w.free[i]);
  }

  /** Either nothing was carved for the class, or one block was and its list is empty. */
  ghost predicate CarvesAtMostOne(before: set<int>, after: set<int>, list: seq<int>) {
    after == before || (list == [] && exists p :: p !in before && after == before + {p})
  }

  lemma ListEmpty(w: World, i: nat)
    requires Inv(w) && i < |BLOCK_SIZES| && w.h.heads[i] == 0
    ensures w.free[i] == []
  {
  }

  lemma CarveGrows(w: World, l: Layout, ptr: int, i: nat)
    requires Inv(w) && !FromList(w.h, l) && i < |BLOCK_SIZES| && ptr !in w.h.granted
    ensures CarvesAtMostOne(CarvedOf(w.h.granted, i), CarvedOf(w.h.granted[ptr := Asked(l)], i), w.free[i])
  {
    var before, after := CarvedOf(w.h.granted, i), CarvedOf(w.h.granted[ptr := Asked(l)], i);
    if Asked(l) == ClassLayout(i) {
      ClassOfAsked(l, i);
      ListEmpty(w, i);
      assert ptr !in before && after == before + {ptr};
    } else {
      assert after == before;
    }
  }

  lemma LargeFreeCarvesNothing(w: World, ptr: int, i: nat)
    requires Inv(w) && ptr in w.live && ListIndex(w.live[ptr]).None? && i < |BLOCK_SIZES|
    ensures CarvedOf(w.h.granted - {ptr}, i) == CarvedOf(w.h.granted, i)
  {
  }

  /** A block is carved only when none of its class is free. */
  lemma CarvedGrows(w: World, e: Event, i: nat)
    requires Inv(w) && Enabled(w, e) && i < |BLOCK_SIZES|
    ensures CarvesAtMostOne(CarvedOf(w.h.granted, i), CarvedOf(StepWorld(w, e).h.granted, i), StepWorld(w, e).free[i])
  {
    match e
    case Allocate(l, reply) =>
      if !FromList(w.h, l) && reply.ptr != 0 {
        CarveGrows(w, l, reply.ptr, i);
      }
    case Free(ptr, patch) =>
      if ListIndex(w.live[ptr]).None? {
        LargeFreeCarvesNothing(w, ptr, i);
      }
    case Write(a, b) =>
  }

  lemma ClassOfAsked(l: Layout, i: nat)
    requires i < |BLOCK_SIZES| && Asked(l) == ClassLayout(i)
    ensures ListIndex(l) == Some(i)
  {
    ClassOfClassLayout(i);
    if ListIndex(l).Some? {
      ClassOfClassLayout(ListIndex(l).value);
    }
  }

  lemma PeakStep(w: World, e: Event, i: nat)
    requires Inv(w) && Enabled(w, e) && i < |BLOCK_SIZES|
    ensures |CarvedOf(StepWorld(w, e).h.granted, i)|
         == Max(|CarvedOf(w.h.granted, i)|, |LiveOf(StepWorld(w, e).live, i)|)
  {
    var w' := StepWorld(w, e);
    CarvedGrows(w, e, i);
    StepKeepsInv(w, e);
    Balance(w', i);
  }

  ghost function CarvedAt(r: Run, k: nat, i: nat): nat
    requires Sized(r) && k <= |r.events| && i < |BLOCK_SIZES|
  {
    |CarvedOf(r.worlds[k].h.granted, i)|
  }

  ghost function LiveAt(r: Run, k: nat, i: nat): nat
    requires Sized(r) && k <= |r.events|
  {
    |LiveOf(r.worlds[k].live, i)|
  }

  /** The most blocks of class `i` that were live at once during the first `k` events. */
  ghost function Peak(r: Run, k: nat, i: nat): nat
    requires Sized(r) && k <= |r.events|
  {
    if k == 0 then LiveAt(r, 0, i) else Max(Peak(r, k - 1, i), LiveAt(r, k, i))
  }

  lemma NothingCarvedYet(r: Run, i: nat)
    requires IsRun(r) && i < |BLOCK_SIZES|
    ensures CarvedAt(r, 0, i) == LiveAt(r, 0, i) == 0
  {
    assert CarvedOf(r.worlds[0].h.granted, i) == {};
    assert LiveOf(r.worlds[0].live, i) == {};
  }

  lemma PeakAt(r: Run, k: nat, i: nat)
    requires IsRun(r) && 0 < k <= |r.events| && i < |BLOCK_SIZES|
    ensures CarvedAt(r, k, i) == Max(CarvedAt(r, k - 1, i), LiveAt(r, k, i))
  {
    RunFollows(r, k - 1);
    PeakNext(r.worlds[k - 1], r.events[k - 1], r.worlds[k], i);
  }

  /** Over every run, a class has taken exactly as many blocks from the fallback as it ever needed at once. */
  lemma {:induction false} PeakLaw(r: Run, k: nat, i: nat)
    requires IsRun(r) && k <= |r.events| && i < |BLOCK_SIZES|
    ensures CarvedAt(r, k, i) == Peak(r, k, i)
  {
    if k == 0 {
      NothingCarvedYet(r, i);
    } else {
      PeakLaw(r, k - 1, i);
      PeakAt(r, k, i);
    }
  }

  lemma PeakNext(v: World, e: Event, v': World, i: nat)
    requires Inv(v) && Follows(v, e, v') && i < |BLOCK_SIZES|
    ensures |CarvedOf(v'.h.granted, i)| == Max(|CarvedOf(v.h.granted, i)|, |LiveOf(v'.live, i)|)
  {
    if Enabled(v, e) {
      PeakStep(v, e, i);
    } else {
      Balance(v, i);
    }
  }
}
