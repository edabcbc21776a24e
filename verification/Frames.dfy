/** The boot frame allocator of `memory.rs`. Addresses are physical and count bytes. */
module Frames {
  import opened Prelude

  /** An entry of the boot loader's memory map. */
  datatype Region = Region(start: nat, end: nat, usable: bool)

  /** `PhysFrame::containing_address`. */
  function Containing(a: nat): nat {
    a - a % 4096
  }

  /** `(a..end).step_by(4096)`, each address taken to its frame. */
  function Stepped(a: nat, end: nat): seq<nat>
    decreases end - a
  {
    if a >= end then [] else [Containing(a)] + Stepped(a + 4096, end)
  }

  /** `usable_frames`: the frames of all usable regions, in order. */
  function UsableFrames(regions: seq<Region>): seq<nat>
    decreases |regions|
  {
    if regions == [] then []
    else (if regions[0].usable then Stepped(regions[0].start, regions[0].end) else []) + UsableFrames(regions[1..])
  }

  function Nth(frames: seq<nat>, n: nat): Option<nat> {
    if n < |frames| then Some(frames[n]) else None
  }

  class BootInfoFrameAllocator {
    const memoryMap: seq<Region>
    var next: nat

    constructor (memoryMap: seq<Region>)
      ensures this.memoryMap == memoryMap && next == 0
    {
      this.memoryMap, next := memoryMap, 0;
    }

    method AllocateFrame() returns (frame: Option<nat>)
      modifies this`next
      ensures frame == Nth(UsableFrames(memoryMap), old(next)) && next == old(next) + 1
    {
      frame := Nth(UsableFrames(memoryMap), next);
      next := next + 1;
    }
  }

  // ----- What the frames are -----

  predicate Aligned(r: Region) {
    r.start % 4096 == 0 && r.end % 4096 == 0
  }

  predicate Apart(r: Region, q: Region) {
    r.end <= q.start || q.end <= r.start
  }

  /** The boot loader's promise: usable regions are whole frames and do not overlap. */
  ghost predicate ValidMap(regions: seq<Region>) {
    && (forall i :: 0 <= i < |regions| && regions[i].usable ==> Aligned(regions[i]))
    && (forall i, j :: 0 <= i < j < |regions| && regions[i].usable && regions[j].usable ==>
          Apart(regions[i], regions[j]))
  }

  /** The frame `f` lies inside `r`. */
  predicate Inside(f: nat, r: Region) {
    f % 4096 == 0 && r.start <= f && f + 4096 <= r.end
  }

  ghost predicate InSomeUsable(f: nat, regions: seq<Region>) {
    exists i :: 0 <= i < |regions| && regions[i].usable && Inside(f, regions[i])
  }

  ghost predicate NoRepeats(xs: seq<nat>) {
    forall i, j :: 0 <= i < j < |xs| ==> xs[i] != xs[j]
  }

  lemma {:induction false} SteppedExact(a: nat, end: nat, f: nat)
    requires a % 4096 == 0 && end % 4096 == 0
    ensures f in Stepped(a, end) <==> Inside(f, Region(a, end, true))
    decreases end - a
  {
    if a < end {
      SteppedExact(a + 4096, end, f);
      assert end >= a + 4096;
    }
  }

  lemma {:induction false} SteppedNoRepeats(a: nat, end: nat)
    requires a % 4096 == 0 && end % 4096 == 0
    ensures NoRepeats(Stepped(a, end))
    decreases end - a
  {
    if a < end {
      SteppedNoRepeats(a + 4096, end);
      SteppedExact(a + 4096, end, a);
      var rest := Stepped(a + 4096, end);
      assert Stepped(a, end) == [a] + rest;
    }
  }

  lemma ValidTail(regions: seq<Region>)
    requires regions != [] && ValidMap(regions)
    ensures ValidMap(regions[1..])
  {
  }

  /** Exactly the whole frames of usable regions are handed out: none skipped, none from elsewhere. */
  lemma {:induction false} FramesExact(regions: seq<Region>, f: nat)
    requires ValidMap(regions)
    ensures f in UsableFrames(regions) <==> InSomeUsable(f, regions)
    decreases |regions|
  {
    if regions != [] {
      var r := regions[0];
      ValidTail(regions);
      FramesExact(regions[1..], f);
      if r.usable {
        SteppedExact(r.start, r.end, f);
      }
    }
  }

  lemma NoRepeatsJoined(a: seq<nat>, b: seq<nat>)
    requires NoRepeats(a) && NoRepeats(b) && forall x :: x in a ==> x !in b
    ensures NoRepeats(a + b)
  {
    forall i, j | 0 <= i < j < |a + b|
      ensures (a + b)[i] != (a + b)[j]
    {
      if i < |a| <= j {
        assert a[i] in a && b[j - |a|] in b;
      }
    }
  }

  /** No frame is handed out twice. */
  lemma {:induction false} FramesDistinct(regions: seq<Region>)
    requires ValidMap(regions)
    ensures NoRepeats(UsableFrames(regions))
    decreases |regions|
  {
    if regions != [] {
      var r, rest := regions[0], UsableFrames(regions[1..]);
      FramesDistinct(regions[1..]);
      if r.usable {
        var first := Stepped(r.start, r.end);
        SteppedNoRepeats(r.start, r.end);
        forall f | f in first
          ensures f !in rest
        {
          SteppedExact(r.start, r.end, f);
          FramesExact(regions[1..], f);
        }
        NoRepeatsJoined(first, rest);
      } else {
        assert [] + rest == rest;
      }
    }
  }

  /** Different calls that succeed hand out different frames of usable memory; after the last frame all calls fail. */
  lemma CallsHandOutFrames(regions: seq<Region>, j: nat, k: nat)
    requires ValidMap(regions) && j < k
    ensures var frames := UsableFrames(regions);
            && (Nth(frames, k).Some? ==> Nth(frames, j).Some? && Nth(frames, j) != Nth(frames, k))
            && (Nth(frames, j).Some? ==> InSomeUsable(Nth(frames, j).value, regions))
  {
    var frames := UsableFrames(regions);
    FramesDistinct(regions);
    if j < |frames| {
      FramesExact(regions, frames[j]);
    }
  }

  /** Results of calls in order: the successful ones come first, with different frames of usable memory. */
  ghost predicate HandedOut(results: seq<Option<nat>>, regions: seq<Region>) {
    && (forall j, k :: 0 <= j < k < |results| && results[k].Some? ==> results[j].Some? && results[j] != results[k])
    && (forall j :: 0 <= j < |results| && results[j].Some? ==> InSomeUsable(results[j].value, regions))
  }

  lemma ResultsHandedOut(results: seq<Option<nat>>, regions: seq<Region>, first: nat)
    requires ValidMap(regions)
    requires forall k :: 0 <= k < |results| ==> results[k] == Nth(UsableFrames(regions), first + k)
    ensures HandedOut(results, regions)
  {
    forall j, k | 0 <= j < k < |results| && results[k].Some?
      ensures results[j].Some? && results[j] != results[k]
    {
      CallsHandOutFrames(regions, first + j, first + k);
    }
    forall j | 0 <= j < |results| && results[j].Some?
      ensures InSomeUsable(results[j].value, regions)
    {
      CallsHandOutFrames(regions, first + j, first + j + 1);
    }
  }

  /** Any number of calls: frame after frame of the enumeration, then failures. */
  method AllocateFrames(allocator: BootInfoFrameAllocator, n: nat) returns (results: seq<Option<nat>>)
    modifies allocator`next
    ensures |results| == n && allocator.next == old(allocator.next) + n
    ensures forall k :: 0 <= k < n ==> results[k] == Nth(UsableFrames(allocator.memoryMap), old(allocator.next) + k)
    ensures ValidMap(allocator.memoryMap) ==> HandedOut(results, allocator.memoryMap)
  {
    results := [];
    for i := 0 to n
      invariant |results| == i && allocator.next == old(allocator.next) + i
      invariant forall k :: 0 <= k < i ==>
        results[k] == Nth(UsableFrames(allocator.memoryMap), old(allocator.next) + k)
    {
      var frame := allocator.AllocateFrame();
      results := results + [frame];
    }
    if ValidMap(allocator.memoryMap) {
      ResultsHandedOut(results, allocator.memoryMap, old(allocator.next));
    }
  }

  // ----- In which order -----

  function WholeFrames(r: Region): nat {
    if r.usable && r.start < r.end then (r.end - r.start) / 4096 else 0
  }

  /** How many frames the usable regions before number `i` hold. */
  function Before(regions: seq<Region>, i: nat): nat
    requires i <= |regions|
  {
    if i == 0 then 0 else WholeFrames(regions[0]) + Before(regions[1..], i - 1)
  }

  lemma {:induction false} SteppedLength(a: nat, end: nat)
    requires a % 4096 == 0 && end % 4096 == 0
    ensures |Stepped(a, end)| == if a < end then (end - a) / 4096 else 0
    decreases end - a
  {
    if a < end {
      SteppedLength(a + 4096, end);
    }
  }

  lemma {:induction false} SteppedAt(a: nat, end: nat, j: nat)
    requires a % 4096 == 0 && j < |Stepped(a, end)|
    ensures Stepped(a, end)[j] == a + 4096 * j
    decreases j
  {
    if j != 0 {
      SteppedAt(a + 4096, end, j - 1);
    }
  }

  /** Region after region, and in each of them upwards from its start. */
  lemma {:induction false} FrameInOrder(regions: seq<Region>, i: nat, j: nat)
    requires ValidMap(regions) && i < |regions| && j < WholeFrames(regions[i])
    ensures Before(regions, i) + j < |UsableFrames(regions)|
    ensures UsableFrames(regions)[Before(regions, i) + j] == regions[i].start + 4096 * j
    decreases i
  {
    var r := regions[0];
    FirstRegion(regions);
    if i == 0 {
      SteppedAt(r.start, r.end, j);
    } else {
      ValidTail(regions);
      FrameInOrder(regions[1..], i - 1, j);
    }
  }

  lemma FirstRegion(regions: seq<Region>)
    requires ValidMap(regions) && regions != []
    ensures var r := regions[0];
            var first := if r.usable then Stepped(r.start, r.end) else [];
            UsableFrames(regions) == first + UsableFrames(regions[1..]) && |first| == WholeFrames(r)
  {
    if regions[0].usable {
      SteppedLength(regions[0].start, regions[0].end);
    }
  }

  lemma {:induction false} FramesCounted(regions: seq<Region>)
    requires ValidMap(regions)
    ensures |UsableFrames(regions)| == Before(regions, |regions|)
    decreases |regions|
  {
    if regions != [] {
      ValidTail(regions);
      FramesCounted(regions[1..]);
      FirstRegion(regions);
    }
  }

  /** The call with number `n`, counting from 0, exactly: frame `j` of region `i`, or none after the last. */
  lemma CallGives(regions: seq<Region>, i: nat, j: nat, n: nat)
    requires ValidMap(regions)
    ensures i < |regions| && j < WholeFrames(regions[i]) && n == Before(regions, i) + j ==>
              Nth(UsableFrames(regions), n) == Some(regions[i].start + 4096 * j)
    ensures n >= Before(regions, |regions|) <==> Nth(UsableFrames(regions), n) == None
  {
    FramesCounted(regions);
    if i < |regions| && j < WholeFrames(regions[i]) {
      FrameInOrder(regions, i, j);
    }
  }
}
