/** Allocator safety over whole runs: who owns which bytes, and why the free lists stay readable. */
module BlocksSafety {
  import opened Prelude
  import opened Cells
  import opened Blocks

  /** The allocator together with what its clients hold and which blocks wait in which list. */
  datatype World = World(h: Heap, live: map<int, Layout>, free: seq<seq<int>>)

  /** `l` bytes at `p`. */
  predicate InBlock(p: int, l: Layout, x: int) {
    p <= x < p + l.size
  }

  predicate Disjoint(p: int, l: Layout, q: int, k: Layout) {
    p + l.size <= q || q + k.size <= p
  }

  // ----- The invariant -----

  predicate GoodGrant(p: int, l: Layout) {
    l.size > 0 && l.align > 0 && p > 0 && p + l.size <= U64 && p % l.align == 0
  }

  /** What the fallback guarantees about everything it has handed out. */
  ghost predicate GrantsOk(granted: map<int, Layout>) {
    && (forall p :: p in granted ==> GoodGrant(p, granted[p]))
    && (forall p, q :: p in granted && q in granted && p != q ==> Disjoint(p, granted[p], q, granted[q]))
  }

  /** `p` is granted as a block of class `i`. */
  predicate IsClass(granted: map<int, Layout>, p: int, i: nat)
    requires i < |BLOCK_SIZES|
  {
    p in granted && granted[p] == ClassLayout(i)
  }

  /** The layout a request reaches the fallback with. */
  function Asked(l: Layout): Layout {
    match ListIndex(l)
    case Some(i) => ClassLayout(i)
    case None => l
  }

  /** A request `l` was met with the granted block `p`: one of its class, or one of exactly its layout. */
  ghost predicate Serves(granted: map<int, Layout>, p: int, l: Layout) {
    p in granted && ValidLayout(l) && granted[p] == Asked(l)
  }

  ghost predicate LiveOk(granted: map<int, Layout>, live: map<int, Layout>) {
    forall p :: p in live ==> Serves(granted, p, live[p])
  }

  ghost predicate DistinctSeq(xs: seq<int>) {
    forall j, k :: 0 <= j < k < |xs| ==> xs[j] != xs[k]
  }

  /** Each list holds different blocks of its own class, none of them live. */
  ghost predicate ListOk(granted: map<int, Layout>, live: map<int, Layout>, xs: seq<int>, i: nat)
    requires i < |BLOCK_SIZES|
  {
    DistinctSeq(xs) && forall j :: 0 <= j < |xs| ==> IsClass(granted, xs[j], i) && xs[j] !in live
  }

  ghost predicate FreeOk(granted: map<int, Layout>, live: map<int, Layout>, free: seq<seq<int>>) {
    |free| == |BLOCK_SIZES| && forall i :: 0 <= i < |free| ==> ListOk(granted, live, free[i], i)
  }

  predicate WaitsIn(free: seq<seq<int>>, p: int, i: nat) {
    i < |free| && p in free[i]
  }

  /** `p` is live or waits in a list. */
  predicate Held(live: map<int, Layout>, free: seq<seq<int>>, p: int) {
    p in live || exists i :: 0 <= i < |free| && WaitsIn(free, p, i)
  }

  /** Nothing granted is lost. */
  ghost predicate Accounted(granted: map<int, Layout>, live: map<int, Layout>, free: seq<seq<int>>) {
    forall p :: p in granted ==> Held(live, free, p)
  }

  /** The `j`th pointer of a list: the block that follows, null after the last. */
  function Link(xs: seq<int>, j: nat): int {
    if j < |xs| then xs[j] else 0
  }

  /** Following the pointers in memory from `head` visits exactly `xs` and then ends. */
  ghost predicate Chain(m: Memory, head: int, xs: seq<int>) {
    head == Link(xs, 0) && forall j :: 0 <= j < |xs| ==> Next(m, xs[j]) == Link(xs, j + 1)
  }

  ghost predicate Chains(m: Memory, heads: seq<int>, free: seq<seq<int>>) {
    |heads| == |free| == |BLOCK_SIZES| && forall i :: 0 <= i < |free| ==> Chain(m, heads[i], free[i])
  }

  ghost predicate Inv(w: World) {
    && GrantsOk(w.h.granted)
    && LiveOk(w.h.granted, w.live)
    && FreeOk(w.h.granted, w.live, w.free)
    && Accounted(w.h.granted, w.live, w.free)
    && Chains(w.h.mem, w.h.heads, w.free)
  }

  // ----- Steps -----

  datatype Event = Allocate(l: Layout, reply: Reply) | Free(ptr: int, patch: Memory) | Write(a: int, b: int)

  predicate FromList(h: Heap, l: Layout)
    requires WellSized(h)
  {
    ListIndex(l).Some? && h.heads[ListIndex(l).value] != 0
  }

  ghost predicate Spares(patch: Memory, granted: map<int, Layout>) {
    forall x, p :: x in patch && p in granted ==> !InBlock(p, granted[p], x)
  }

  /** The fallback's contract for an allocation. */
  ghost predicate GoodReply(granted: map<int, Layout>, l: Layout, reply: Reply) {
    && Spares(reply.patch, granted)
    && (reply.ptr != 0 ==>
          GoodGrant(reply.ptr, l) && forall p :: p in granted ==> Disjoint(reply.ptr, l, p, granted[p]))
  }

  /** Clients free what they hold, and write only into it; the fallback keeps its contract. */
  ghost predicate Enabled(w: World, e: Event)
    requires WellSized(w.h)
  {
    match e
    case Allocate(l, reply) => ValidLayout(l) && (!FromList(w.h, l) ==> GoodReply(w.h.granted, Asked(l), reply))
    case Free(ptr, patch) => ptr in w.live && (ListIndex(w.live[ptr]).None? ==> Spares(patch, w.h.granted - {ptr}))
    case Write(a, b) => exists p :: p in w.live && InBlock(p, w.live[p], a)
  }

  /** The lists once the head of list `i` is taken. */
  function Popped(free: seq<seq<int>>, i: nat): seq<seq<int>>
    requires i < |free| && free[i] != []
  {
    free[i := free[i][1..]]
  }

  function StepWorld(w: World, e: Event): World
    requires WellSized(w.h) && |w.free| == |BLOCK_SIZES| && (e.Free? ==> e.ptr in w.live)
  {
    match e
    case Allocate(l, reply) =>
      var (h, ptr) := Allocated(w.h, l, reply);
      World(h, if ptr == 0 then w.live else w.live[ptr := l],
            if FromList(w.h, l) && w.free[ListIndex(l).value] != [] then Popped(w.free, ListIndex(l).value) else w.free)
    case Free(ptr, patch) =>
      var l := w.live[ptr];
      World(Deallocated(w.h, ptr, l, patch), w.live - {ptr},
            match ListIndex(l) { case Some(i) => w.free[i := [ptr] + w.free[i]] case None => w.free })
    case Write(a, b) => w.(h := w.h.(mem := w.h.mem[a := b]))
  }

  // ----- Memory changes and chains -----

  /** `m'` agrees with `m` on the node of every block of list class that `granted` holds outside `spot`. */
  ghost predicate NodesKept(m: Memory, m': Memory, granted: map<int, Layout>, spot: int) {
    forall p, i :: 0 <= i < |BLOCK_SIZES| && IsClass(granted, p, i) && p != spot ==> Next(m', p) == Next(m, p)
  }

  lemma NodeUntouched(m: Memory, w: Memory, p: int)
    requires forall x :: Within(p, NODE_SIZE, x) ==> x !in w
    ensures Next(m + w, p) == Next(m, p)
  {
    WordSame(m + w, m, p, NODE_SIZE);
  }

  /** Writes that stay inside the granted block `spot` change no other block's node. */
  lemma LocalWriteKeepsNodes(m: Memory, w: Memory, granted: map<int, Layout>, spot: int)
    requires GrantsOk(granted) && spot in granted && forall x :: x in w ==> InBlock(spot, granted[spot], x)
    ensures NodesKept(m, m + w, granted, spot)
  {
    forall p, i | 0 <= i < |BLOCK_SIZES| && IsClass(granted, p, i) && p != spot
      ensures Next(m + w, p) == Next(m, p)
    {
      forall x | Within(p, NODE_SIZE, x)
        ensures x !in w
      {
      }
      NodeUntouched(m, w, p);
    }
  }

  /** What the fallback does to memory it still owns changes no node at all. */
  lemma PatchKeepsNodes(m: Memory, patch: Memory, granted: map<int, Layout>, spot: int)
    requires Spares(patch, granted)
    ensures NodesKept(m, m + patch, granted, spot)
  {
    forall p, i | 0 <= i < |BLOCK_SIZES| && IsClass(granted, p, i)
      ensures Next(m + patch, p) == Next(m, p)
    {
      forall x | Within(p, NODE_SIZE, x)
        ensures x !in patch
      {
      }
      NodeUntouched(m, patch, p);
    }
  }

  /** Chains survive a change of memory that spares every node but one, when that one is in no list. */
  lemma ChainsKept(m: Memory, m': Memory, granted: map<int, Layout>, live: map<int, Layout>,
                   heads: seq<int>, free: seq<seq<int>>, spot: int)
    requires Chains(m, heads, free) && FreeOk(granted, live, free) && NodesKept(m, m', granted, spot)
    requires forall i :: 0 <= i < |free| ==> spot !in free[i]
    ensures Chains(m', heads, free)
  {
  }

  lemma AskedCovers(l: Layout)
    ensures Asked(l).size >= l.size
    ensures ListIndex(l).Some? ==> Asked(l).size >= l.align
  {
  }

  lemma LiveIsNotFree(granted: map<int, Layout>, live: map<int, Layout>, free: seq<seq<int>>, p: int)
    requires FreeOk(granted, live, free) && p in live
    ensures forall i :: 0 <= i < |free| ==> p !in free[i]
  {
  }

  /** The lists stay in order when only the block `p`, which is in none of them, changes hands. */
  lemma ListsUnaffected(granted: map<int, Layout>, live: map<int, Layout>, granted': map<int, Layout>,
                        live': map<int, Layout>, free: seq<seq<int>>, p: int)
    requires FreeOk(granted, live, free) && forall i :: 0 <= i < |free| ==> p !in free[i]
    requires forall q :: q in granted && q != p ==> q in granted' && granted'[q] == granted[q]
    requires forall q :: q in live' && q != p ==> q in live
    ensures FreeOk(granted', live', free)
  {
  }

  // ----- Client writes -----

  lemma WriteKeepsInv(w: World, a: int, b: int)
    requires Inv(w) && Enabled(w, Write(a, b))
    ensures Inv(StepWorld(w, Write(a, b)))
  {
    var p :| p in w.live && InBlock(p, w.live[p], a);
    AskedCovers(w.live[p]);
    var poke := map[a := b];
    LocalWriteKeepsNodes(w.h.mem, poke, w.h.granted, p);
    LiveIsNotFree(w.h.granted, w.live, w.free, p);
    ChainsKept(w.h.mem, w.h.mem + poke, w.h.granted, w.live, w.h.heads, w.free, p);
    assert w.h.mem[a := b] == w.h.mem + poke;
  }

  // ----- Freeing a small block -----

  lemma PushedChain(m: Memory, head: int, xs: seq<int>, p: int)
    requires Chain(m, head, xs) && Next(m, p) == head
    ensures Chain(m, p, [p] + xs)
  {
  }

  /** One list replaced, in memory that keeps all of them. */
  lemma ChainsReplaced(m: Memory, heads: seq<int>, free: seq<seq<int>>, i: nat, head: int, xs: seq<int>)
    requires Chains(m, heads, free) && i < |BLOCK_SIZES| && Chain(m, head, xs)
    ensures Chains(m, heads[i := head], free[i := xs])
  {
  }

  lemma FreeKeepsOldChains(w: World, ptr: int, i: nat, m': Memory)
    requires Inv(w) && ptr in w.live && ListIndex(w.live[ptr]) == Some(i)
    requires m' == WriteNext(w.h.mem, ptr, w.h.heads[i])
    ensures Chains(m', w.h.heads, w.free)
  {
    LocalWriteKeepsNodes(w.h.mem, Block(ptr, Bytes(w.h.heads[i], NODE_SIZE)), w.h.granted, ptr);
    LiveIsNotFree(w.h.granted, w.live, w.free, ptr);
    ChainsKept(w.h.mem, m', w.h.granted, w.live, w.h.heads, w.free, ptr);
  }

  lemma FreeKeepsChains(w: World, ptr: int, i: nat)
    requires Inv(w) && ptr in w.live && ListIndex(w.live[ptr]) == Some(i)
    ensures Chains(WriteNext(w.h.mem, ptr, w.h.heads[i]), w.h.heads[i := ptr], w.free[i := [ptr] + w.free[i]])
  {
    var m' := WriteNext(w.h.mem, ptr, w.h.heads[i]);
    FreeKeepsOldChains(w, ptr, i, m');
    NextReadBack(w.h.mem, ptr, w.h.heads[i]);
    PushedChain(m', w.h.heads[i], w.free[i], ptr);
    ChainsReplaced(m', w.h.heads, w.free, i, ptr, [ptr] + w.free[i]);
  }

  lemma ListPushed(granted: map<int, Layout>, live: map<int, Layout>, xs: seq<int>, i: nat, p: int)
    requires i < |BLOCK_SIZES| && ListOk(granted, live, xs, i) && IsClass(granted, p, i) && p !in xs
    ensures ListOk(granted, live - {p}, [p] + xs, i)
  {
  }

  lemma FreeKeepsLists(w: World, ptr: int, i: nat)
    requires Inv(w) && ptr in w.live && ListIndex(w.live[ptr]) == Some(i)
    ensures FreeOk(w.h.granted, w.live - {ptr}, w.free[i := [ptr] + w.free[i]])
  {
    var free' := w.free[i := [ptr] + w.free[i]];
    forall k | 0 <= k < |free'|
      ensures ListOk(w.h.granted, w.live - {ptr}, free'[k], k)
    {
      if k == i {
        ListPushed(w.h.granted, w.live, w.free[i], i, ptr);
      }
    }
  }

  lemma HeldAfterPush(live: map<int, Layout>, free: seq<seq<int>>, i: nat, p: int, ptr: int)
    requires i < |free| && (p == ptr || Held(live, free, p))
    ensures Held(live - {ptr}, free[i := [ptr] + free[i]], p)
  {
    var free' := free[i := [ptr] + free[i]];
    if p == ptr {
      assert WaitsIn(free', p, i);
    } else if p !in live {
      var k :| 0 <= k < |free| && WaitsIn(free, p, k);
      assert WaitsIn(free', p, k);
    }
  }

  lemma FreeKeepsAccount(w: World, ptr: int, i: nat)
    requires Inv(w) && i < |w.free|
    ensures Accounted(w.h.granted, w.live - {ptr}, w.free[i := [ptr] + w.free[i]])
  {
    var free' := w.free[i := [ptr] + w.free[i]];
    forall p | p in w.h.granted
      ensures Held(w.live - {ptr}, free', p)
    {
      HeldAfterPush(w.live, w.free, i, p, ptr);
    }
  }

  lemma FreeSmallKeepsInv(w: World, ptr: int, patch: Memory)
    requires Inv(w) && ptr in w.live && ListIndex(w.live[ptr]).Some?
    ensures Inv(StepWorld(w, Free(ptr, patch)))
  {
    var i := ListIndex(w.live[ptr]).value;
    FreeKeepsChains(w, ptr, i);
    FreeKeepsLists(w, ptr, i);
    FreeKeepsAccount(w, ptr, i);
  }

  // ----- Freeing a large block -----

  lemma FreeLargeKeepsInv(w: World, ptr: int, patch: Memory)
    requires Inv(w) && ptr in w.live && ListIndex(w.live[ptr]).None? && Spares(patch, w.h.granted - {ptr})
    ensures Inv(StepWorld(w, Free(ptr, patch)))
  {
    var granted' := w.h.granted - {ptr};
    LiveIsNotFree(w.h.granted, w.live, w.free, ptr);
    ListsUnaffected(w.h.granted, w.live, granted', w.live - {ptr}, w.free, ptr);
    PatchKeepsNodes(w.h.mem, patch, granted', ptr);
    ChainsKept(w.h.mem, w.h.mem + patch, granted', w.live - {ptr}, w.h.heads, w.free, ptr);
    LargeFreeKeepsAccount(w, ptr);
  }

  lemma LargeFreeKeepsAccount(w: World, ptr: int)
    requires Inv(w)
    ensures Accounted(w.h.granted - {ptr}, w.live - {ptr}, w.free)
  {
  }

  // ----- Allocating from a list -----

  lemma PoppedChain(m: Memory, head: int, xs: seq<int>)
    requires Chain(m, head, xs) && xs != []
    ensures Chain(m, Next(m, head), xs[1..])
  {
  }

  /** A block waits in the list of its class only. */
  lemma OneListOnly(granted: map<int, Layout>, live: map<int, Layout>, free: seq<seq<int>>, p: int, i: nat, k: nat)
    requires FreeOk(granted, live, free) && i < |free| && k < |free| && p in free[i] && p in free[k]
    ensures i == k
  {
  }

  ghost predicate TakesHead(w: World, l: Layout, i: nat) {
    Inv(w) && ValidLayout(l) && ListIndex(l) == Some(i) && w.h.heads[i] != 0
  }

  lemma HeadIsFirst(w: World, l: Layout, i: nat)
    requires TakesHead(w, l, i)
    ensures w.free[i] != [] && w.h.heads[i] == w.free[i][0] && ListOk(w.h.granted, w.live, w.free[i], i)
    ensures IsClass(w.h.granted, w.h.heads[i], i) && w.h.heads[i] !in w.live
  {
  }

  lemma HeadGoneFromLists(w: World, l: Layout, i: nat)
    requires TakesHead(w, l, i) && w.free[i] != []
    ensures forall k :: 0 <= k < |w.free| ==> w.h.heads[i] !in Popped(w.free, i)[k]
  {
    forall k | 0 <= k < |w.free|
      ensures w.h.heads[i] !in Popped(w.free, i)[k]
    {
      if k != i && w.h.heads[i] in w.free[k] {
        OneListOnly(w.h.granted, w.live, w.free, w.h.heads[i], i, k);
      }
    }
  }

  lemma PoppedListsOk(granted: map<int, Layout>, live: map<int, Layout>, free: seq<seq<int>>, i: nat)
    requires FreeOk(granted, live, free) && i < |free| && free[i] != []
    ensures FreeOk(granted, live, Popped(free, i))
  {
  }

  lemma TakeKeepsLists(w: World, l: Layout, i: nat)
    requires TakesHead(w, l, i) && w.free[i] != []
    ensures FreeOk(w.h.granted, w.live[w.h.heads[i] := l], Popped(w.free, i))
  {
    HeadGoneFromLists(w, l, i);
    PoppedListsOk(w.h.granted, w.live, w.free, i);
    ListsUnaffected(w.h.granted, w.live, w.h.granted, w.live[w.h.heads[i] := l], Popped(w.free, i), w.h.heads[i]);
  }

  lemma TakeKeepsChains(w: World, l: Layout, i: nat)
    requires TakesHead(w, l, i) && w.free[i] != []
    ensures var node := w.h.heads[i];
            Chains(WriteNext(w.h.mem, node, 0), w.h.heads[i := Next(w.h.mem, node)], Popped(w.free, i))
  {
    var node := w.h.heads[i];
    var free', heads' := Popped(w.free, i), w.h.heads[i := Next(w.h.mem, node)];
    HeadGoneFromLists(w, l, i);
    PoppedChain(w.h.mem, node, w.free[i]);
    assert Chains(w.h.mem, heads', free');
    TakeKeepsLists(w, l, i);
    LocalWriteKeepsNodes(w.h.mem, Block(node, Bytes(0, NODE_SIZE)), w.h.granted, node);
    ChainsKept(w.h.mem, WriteNext(w.h.mem, node, 0), w.h.granted, w.live[node := l], heads', free', node);
  }

  lemma HeldAfterPop(live: map<int, Layout>, free: seq<seq<int>>, i: nat, p: int)
    requires i < |free| && free[i] != [] && Held(live, free, p) && p != free[i][0]
    ensures Held(live, Popped(free, i), p)
  {
    if p !in live {
      var k :| 0 <= k < |free| && WaitsIn(free, p, k);
      assert WaitsIn(Popped(free, i), p, k);
    }
  }

  lemma TakeKeepsAccount(w: World, l: Layout, i: nat)
    requires TakesHead(w, l, i) && w.free[i] != []
    ensures Accounted(w.h.granted, w.live[w.h.heads[i] := l], Popped(w.free, i))
  {
    HeadIsFirst(w, l, i);
    forall p | p in w.h.granted
      ensures Held(w.live[w.h.heads[i] := l], Popped(w.free, i), p)
    {
      if p != w.h.heads[i] {
        HeldAfterPop(w.live, w.free, i, p);
      }
    }
  }

  lemma TakeKeepsInv(w: World, l: Layout, reply: Reply)
    requires Inv(w) && ValidLayout(l) && FromList(w.h, l)
    ensures Inv(StepWorld(w, Allocate(l, reply)))
  {
    var i := ListIndex(l).value;
    TakeKeepsLists(w, l, i);
    TakeKeepsChains(w, l, i);
    TakeKeepsAccount(w, l, i);
  }

  // ----- Allocating from the fallback -----

  lemma NewBlockIsNew(granted: map<int, Layout>, p: int, l: Layout)
    requires GrantsOk(granted) && GoodGrant(p, l) && forall q :: q in granted ==> Disjoint(p, l, q, granted[q])
    ensures p !in granted && GrantsOk(granted[p := l])
  {
  }

  lemma NullIsNotFree(w: World)
    requires Inv(w)
    ensures forall i :: 0 <= i < |w.free| ==> 0 !in w.free[i]
  {
  }

  lemma PatchKeepsChains(w: World, patch: Memory)
    requires Inv(w) && Spares(patch, w.h.granted)
    ensures Chains(w.h.mem + patch, w.h.heads, w.free)
  {
    PatchKeepsNodes(w.h.mem, patch, w.h.granted, 0);
    NullIsNotFree(w);
    ChainsKept(w.h.mem, w.h.mem + patch, w.h.granted, w.live, w.h.heads, w.free, 0);
  }

  lemma CarveKeepsLists(w: World, l: Layout, p: int)
    requires Inv(w) && p !in w.h.granted
    ensures FreeOk(w.h.granted[p := Asked(l)], w.live[p := l], w.free)
  {
    ListsUnaffected(w.h.granted, w.live, w.h.granted[p := Asked(l)], w.live[p := l], w.free, p);
  }

  lemma CarveKeepsLive(w: World, l: Layout, p: int)
    requires Inv(w) && p !in w.h.granted && ValidLayout(l)
    ensures LiveOk(w.h.granted[p := Asked(l)], w.live[p := l])
  {
  }

  lemma CarveKeepsInv(w: World, l: Layout, reply: Reply)
    requires Inv(w) && ValidLayout(l) && !FromList(w.h, l) && GoodReply(w.h.granted, Asked(l), reply)
    ensures Inv(StepWorld(w, Allocate(l, reply)))
  {
    PatchKeepsChains(w, reply.patch);
    if reply.ptr != 0 {
      NewBlockIsNew(w.h.granted, reply.ptr, Asked(l));
      CarveKeepsLists(w, l, reply.ptr);
      CarveKeepsLive(w, l, reply.ptr);
    }
  }

  lemma StepKeepsInv(w: World, e: Event)
    requires Inv(w) && Enabled(w, e)
    ensures Inv(StepWorld(w, e))
  {
    match e
    case Allocate(l, reply) =>
      if FromList(w.h, l) {
        TakeKeepsInv(w, l, reply);
      } else {
        CarveKeepsInv(w, l, reply);
      }
    case Free(ptr, patch) =>
      if ListIndex(w.live[ptr]).Some? {
        FreeSmallKeepsInv(w, ptr, patch);
      } else {
        FreeLargeKeepsInv(w, ptr, patch);
      }
    case Write(a, b) => WriteKeepsInv(w, a, b);
  }
}
