/**
  The fixed-size block allocator of `allocators/fixed_size_block.rs`: ten free lists threaded
  through the free blocks themselves, over a fallback heap that is known only by contract.
  Memory is a map of bytes.
*/
module Blocks {
  import opened Prelude
  import opened Cells

  // ----- Layouts and size classes -----

  function Pow2(k: nat): (r: nat)
    ensures r > 0
  {
    if k == 0 then 1 else 2 * Pow2(k - 1)
  }

  ghost predicate IsPow2(n: nat) {
    exists k: nat :: Pow2(k) == n
  }

  /** A request. Allocating zero bytes is not allowed by the allocation interface. */
  datatype Layout = Layout(size: nat, align: nat)

  ghost predicate ValidLayout(l: Layout) {
    l.size > 0 && IsPow2(l.align)
  }

  const BLOCK_SIZES: seq<nat> := [8, 16, 32, 64, 128, 256, 512, 1024, 2048, 4096]

  const NODE_SIZE: nat := 8

  function Need(l: Layout): nat {
    if l.size >= l.align then l.size else l.align
  }

  /** The first index from `i` on whose block size is at least `need`. */
  function Position(need: nat, i: nat): (r: Option<nat>)
    requires i <= |BLOCK_SIZES|
    ensures r.Some? ==> i <= r.value < |BLOCK_SIZES| && need <= BLOCK_SIZES[r.value]
    ensures r.Some? ==> forall j :: i <= j < r.value ==> BLOCK_SIZES[j] < need
    ensures r.None? ==> forall j :: i <= j < |BLOCK_SIZES| ==> BLOCK_SIZES[j] < need
    decreases |BLOCK_SIZES| - i
  {
    if i == |BLOCK_SIZES| then None
    else if BLOCK_SIZES[i] >= need then Some(i)
    else Position(need, i + 1)
  }

  /** `list_index`: the smallest class that fits the size and the alignment. */
  function ListIndex(l: Layout): (r: Option<nat>)
    ensures r.Some? ==> r.value < |BLOCK_SIZES|
  {
    Position(Need(l), 0)
  }

  /** The layout a block of class `i` is carved with. */
  function ClassLayout(i: nat): Layout
    requires i < |BLOCK_SIZES|
  {
    Layout(BLOCK_SIZES[i], BLOCK_SIZES[i])
  }

  lemma ClassOfClassLayout(i: nat)
    requires i < |BLOCK_SIZES|
    ensures ListIndex(ClassLayout(i)) == Some(i)
  {
    var r := ListIndex(ClassLayout(i));
    assert r.Some? ==> forall j :: 0 <= j < r.value ==> BLOCK_SIZES[j] < BLOCK_SIZES[i];
  }

  // ----- Words in byte memory -----

  function Bytes(v: int, n: nat): (bs: seq<int>)
    ensures |bs| == n
    decreases n
  {
    if n == 0 then [] else [v % 256] + Bytes(v / 256, n - 1)
  }

  /** The little-endian number in the `n` bytes at `a`. */
  function WordAt(m: Memory, a: int, n: nat): int
    decreases n
  {
    if n == 0 then 0 else Read(m, a) + 256 * WordAt(m, a + 1, n - 1)
  }

  function Pow256(n: nat): nat {
    if n == 0 then 1 else 256 * Pow256(n - 1)
  }

  lemma {:induction false} WordSame(m: Memory, m': Memory, a: int, n: nat)
    requires forall x :: Within(a, n, x) ==> Read(m, x) == Read(m', x)
    ensures WordAt(m, a, n) == WordAt(m', a, n)
    decreases n
  {
    if n != 0 {
      forall x | Within(a + 1, n - 1, x)
        ensures Read(m, x) == Read(m', x)
      {
      }
      WordSame(m, m', a + 1, n - 1);
    }
  }

  lemma {:induction false} WordReadBack(m: Memory, a: int, v: int, n: nat)
    requires 0 <= v < Pow256(n)
    ensures WordAt(m + Block(a, Bytes(v, n)), a, n) == v
    decreases n
  {
    if n != 0 {
      var m' := m + Block(a, Bytes(v, n));
      var tail := Bytes(v / 256, n - 1);
      WordReadBack(m, a + 1, v / 256, n - 1);
      forall x | Within(a + 1, n - 1, x)
        ensures Read(m', x) == Read(m + Block(a + 1, tail), x)
      {
        assert Within(a, n, x);
      }
      WordSame(m', m + Block(a + 1, tail), a + 1, n - 1);
      assert Within(a, n, a) && Read(m', a) == v % 256;
    }
  }

  /** The `next` pointer of the node at `a`; 0 is the null pointer. */
  function Next(m: Memory, a: int): int {
    WordAt(m, a, NODE_SIZE)
  }

  function WriteNext(m: Memory, a: int, next: int): Memory {
    m + Block(a, Bytes(next, NODE_SIZE))
  }

  lemma NextReadBack(m: Memory, a: int, next: int)
    requires 0 <= next < U64
    ensures Next(WriteNext(m, a, next), a) == next
  {
    assert Pow256(8) == U64 by {
    }
    WordReadBack(m, a, next, NODE_SIZE);
  }

  // ----- The allocator -----

  /** `granted` is what the fallback has handed out and not got back, with the layouts it was asked for. */
  datatype Heap = Heap(heads: seq<int>, mem: Memory, granted: map<int, Layout>)

  /** What the fallback does on a call: a pointer, 0 for failure, and changes to memory it has not handed out. */
  datatype Reply = Reply(ptr: int, patch: Memory)

  function FallbackAlloc(h: Heap, l: Layout, reply: Reply): (Heap, int) {
    var granted := if reply.ptr == 0 then h.granted else h.granted[reply.ptr := l];
    (h.(mem := h.mem + reply.patch, granted := granted), reply.ptr)
  }

  predicate WellSized(h: Heap) {
    |h.heads| == |BLOCK_SIZES|
  }

  /** `alloc`: the head of the class's list, else a new block of that class, else whatever the fallback finds. */
  function Allocated(h: Heap, l: Layout, reply: Reply): (Heap, int)
    requires WellSized(h)
  {
    match ListIndex(l)
    case Some(i) =>
      if h.heads[i] != 0 then
        var node := h.heads[i];
        (h.(heads := h.heads[i := Next(h.mem, node)], mem := WriteNext(h.mem, node, 0)), node)
      else FallbackAlloc(h, ClassLayout(i), reply)
    case None => FallbackAlloc(h, l, reply)
  }

  /** `dealloc`: small blocks become list heads, large ones go back to the fallback. */
  function Deallocated(h: Heap, ptr: int, l: Layout, patch: Memory): Heap
    requires WellSized(h)
  {
    match ListIndex(l)
    case Some(i) => h.(heads := h.heads[i := ptr], mem := WriteNext(h.mem, ptr, h.heads[i]))
    case None => h.(mem := h.mem + patch, granted := h.granted - {ptr})
  }

  class FixedSizeBlockAllocator {
    var heads: seq<int>
    var granted: map<int, Layout>
    var mem: Memory

    constructor (m: Memory)
      ensures View() == Heap(seq(|BLOCK_SIZES|, _ => 0), m, map[])
    {
      heads, granted, mem := seq(|BLOCK_SIZES|, _ => 0), map[], m;
    }

    function View(): Heap
      reads this
    {
      Heap(heads, mem, granted)
    }

    method FallbackAllocate(l: Layout, reply: Reply) returns (ptr: int)
      modifies this
      ensures (View(), ptr) == FallbackAlloc(old(View()), l, reply)
      ensures ptr == reply.ptr && heads == old(heads) && mem == old(mem) + reply.patch
      ensures ptr == 0 ==> granted == old(granted)
      ensures ptr != 0 ==> granted == old(granted)[ptr := l]
    {
      mem := mem + reply.patch;
      ptr := reply.ptr;
      if ptr != 0 {
        granted := granted[ptr := l];
      }
    }

    method Alloc(l: Layout, reply: Reply) returns (ptr: int)
      requires WellSized(View())
      modifies this
      ensures (View(), ptr) == Allocated(old(View()), l, reply)
      ensures var i := ListIndex(l);
              if i.Some? && old(heads)[i.value] != 0 then ptr == old(heads)[i.value]
              else
                && ptr == reply.ptr
                && (ptr != 0 ==> ptr in granted && granted[ptr] == if i.Some? then ClassLayout(i.value) else l)
    {
      var index := ListIndex(l);
      if index.Some? {
        var node := heads[index.value];
        if node != 0 {
          heads := heads[index.value := Next(mem, node)];
          mem := WriteNext(mem, node, 0);
          ptr := node;
        } else {
          ptr := FallbackAllocate(ClassLayout(index.value), reply);
        }
      } else {
        ptr := FallbackAllocate(l, reply);
      }
    }

    method Dealloc(ptr: int, l: Layout, patch: Memory)
      requires WellSized(View())
      modifies this
      ensures View() == Deallocated(old(View()), ptr, l, patch)
    {
      var index := ListIndex(l);
      if index.Some? {
        assert NODE_SIZE <= BLOCK_SIZES[index.value];
        mem := WriteNext(mem, ptr, heads[index.value]);
        heads := heads[index.value := ptr];
      } else {
        mem := mem + patch;
        granted := granted - {ptr};
      }
    }
  }
}
