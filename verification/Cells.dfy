/** Memory as a map from addresses to cells; a cell that was never written reads as 0. */
module Cells {

  type Memory = map<int, int>

  function Read(m: Memory, a: int): int {
    if a in m then m[a] else 0
  }

  /** The cells `ws` at `a`, `a + 1`, and so on. */
  function Block(a: int, ws: seq<int>): Memory {
    map x | a <= x < a + |ws| && Within(a, |ws|, x) :: ws[x - a]
  }

  predicate Within(a: int, n: nat, x: int) {
    a <= x < a + n
  }

  lemma BlockGrows(m: Memory, a: int, v: int, ws: seq<int>)
    ensures (m + Block(a + 1, ws))[a := v] == m + Block(a, [v] + ws)
  {
  }

  lemma BlocksJoin(m: Memory, a: int, ws: seq<int>, vs: seq<int>)
    ensures m + Block(a + |ws|, vs) + Block(a, ws) == m + Block(a, ws + vs)
  {
  }

  /** Two writes, the second just below the first. */
  lemma WritesJoin(m: Memory, mid: Memory, end: Memory, a: int, b: int, ws: seq<int>, vs: seq<int>, all: seq<int>)
    requires b == a + |ws| && all == ws + vs && mid == m + Block(b, vs) && end == mid + Block(a, ws)
    ensures end == m + Block(a, all)
  {
    BlocksJoin(m, a, ws, vs);
  }

  lemma WritesAssociate(m: Memory, w: Memory, v: Memory)
    ensures m + w + v == m + (w + v)
  {
  }
}
