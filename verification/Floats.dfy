/**
 Floating point as the kernels use it: a type with no laws at all, so that two results are
 equal only when the same operations ran in the same order. Grids of results at a stride.
 */
module Floats {
  import opened IndexArith

  type Float(==, 0, !new)

  /** `fma(a, x, y)` is a + x * y in one rounding; `hsum` the sum of four lanes. */
  datatype Ops = Ops(zero: Float, add: (Float, Float) -> Float, mul: (Float, Float) -> Float,
                     fma: (Float, Float, Float) -> Float, hsum: (Float, Float, Float, Float) -> Float,
                     ofInt: int -> Float)
  {
    function Get(s: seq<Float>, i: nat): Float { if i < |s| then s[i] else zero }
  }

  // ---- a grid: cell (i, j) at i * stride + j ----

  /** `spec(i, j, k)` is what the cell holds after k steps; after none, what it held. */
  datatype Grid = Grid(stride: nat, rows: nat, cols: nat, spec: (nat, nat, nat) -> Float)
  {
    predicate Valid() { 0 < stride && cols <= stride }

    function Row(p: nat): nat
      requires Valid()
    {
      p / stride
    }

    function Col(p: nat): nat
      requires Valid()
    {
      p % stride
    }

    predicate Covers(p: nat)
      requires Valid()
    {
      Row(p) < rows && Col(p) < cols
    }
  }

  /** Every cell has had as many steps as `cnt` says, and nothing else has changed. */
  ghost predicate At(g: Grid, was: seq<Float>, now: seq<Float>, cnt: (nat, nat) -> nat)
    requires g.Valid()
  {
    && |now| == |was|
    && forall p :: 0 <= p < |now| ==>
         now[p] == if g.Covers(p) then g.spec(g.Row(p), g.Col(p), cnt(g.Row(p), g.Col(p))) else was[p]
  }

  /** A run of cells was stored and nothing else. */
  ghost predicate Stored(before: seq<Float>, after: seq<Float>, base: nat, vals: seq<Float>) {
    && |after| == |before| && base + |vals| <= |before|
    && forall p :: 0 <= p < |before| ==> after[p] == if base <= p < base + |vals| then vals[p - base] else before[p]
  }

  /** The counts differ only in row i, columns lo up to hi. */
  ghost predicate Raised(g: Grid, cnt: (nat, nat) -> nat, cnt': (nat, nat) -> nat, i: nat, lo: nat, hi: nat) {
    forall a: nat, b: nat :: a < g.rows && b < g.cols && !(a == i && lo <= b < hi) ==> cnt'(a, b) == cnt(a, b)
  }

  lemma Where(g: Grid, i: nat, lo: nat, hi: nat, p: nat)
    requires g.Valid() && lo <= hi <= g.cols
    ensures i * g.stride + lo <= p < i * g.stride + hi <==> g.Row(p) == i && lo <= g.Col(p) < hi
    ensures g.Row(p) == i ==> p == i * g.stride + g.Col(p)
  {
    var q, r := Split(g.stride, p);
    DivMod(g.stride, q, r);
    if i * g.stride + lo <= p < i * g.stride + hi {
      DivMod(g.stride, i, p - i * g.stride);
    }
  }

  /** Storing the next values of one row's run advances exactly those cells. */
  lemma StoreRun(g: Grid, was: seq<Float>, before: seq<Float>, after: seq<Float>,
                 cnt: (nat, nat) -> nat, cnt': (nat, nat) -> nat, i: nat, row: nat, lo: nat, vals: seq<Float>)
    requires g.Valid() && At(g, was, before, cnt) && i < g.rows && lo + |vals| <= g.cols
    requires row == i * g.stride && Stored(before, after, row + lo, vals) && Raised(g, cnt, cnt', i, lo, lo + |vals|)
    requires forall t :: 0 <= t < |vals| ==> vals[t] == g.spec(i, lo + t, cnt'(i, lo + t))
    ensures At(g, was, after, cnt')
  {
    forall p | 0 <= p < |after|
      ensures after[p] == if g.Covers(p) then g.spec(g.Row(p), g.Col(p), cnt'(g.Row(p), g.Col(p))) else was[p]
    {
      Where(g, i, lo, lo + |vals|, p);
    }
  }

  /** The same state under another name for the counts. */
  lemma Recount(g: Grid, was: seq<Float>, now: seq<Float>, cnt: (nat, nat) -> nat, cnt': (nat, nat) -> nat)
    requires g.Valid() && At(g, was, now, cnt)
    requires forall a: nat, b: nat :: a < g.rows && b < g.cols ==> cnt'(a, b) == cnt(a, b)
    ensures At(g, was, now, cnt')
  {
  }

  /** Reading a row. */
  lemma RowOf(g: Grid, was: seq<Float>, now: seq<Float>, cnt: (nat, nat) -> nat, i: nat, row: nat)
    requires g.Valid() && At(g, was, now, cnt) && i < g.rows && row == i * g.stride && row + g.cols <= |now|
    ensures forall j: nat :: j < g.cols ==> now[row + j] == g.spec(i, j, cnt(i, j))
  {
    forall j: nat | j < g.cols ensures now[row + j] == g.spec(i, j, cnt(i, j)) { DivMod(g.stride, i, j); }
  }

  /** The last cell of the grid is inside the array. */
  predicate Inside(g: Grid, n: nat) { g.rows > 0 && g.cols > 0 ==> (g.rows - 1) * g.stride + g.cols <= n }

  /** The last of some rows ends inside n, so they all do. */
  lemma RowEnds(rows: nat, stride: nat, n: nat, i: nat, hi: nat)
    requires i < rows && (rows - 1) * stride + hi <= n
    ensures i * stride + hi <= n
  {
    MulLe(stride, i, rows - 1);
  }

  lemma RunInside(g: Grid, n: nat, i: nat, hi: nat)
    requires Inside(g, n) && i < g.rows && 0 < hi <= g.cols
    ensures i * g.stride + hi <= n
  {
    if i < g.rows - 1 {
      MulMono(g.stride, i, g.rows - 1);
      assert g.stride * i == i * g.stride && g.stride * (g.rows - 1) == (g.rows - 1) * g.stride;
    }
  }
}
