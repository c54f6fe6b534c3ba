/**
 The scores kernel: s[u][j] = (q[u] . k[j]) * scale, one dot product a pair, and four
 queries against two keys at a time.
 */
module QkKernel {
  import opened IndexArith
  import opened Floats

  // ---- one dot product ----

  /** Two vectors of four lanes. */
  datatype Acc = Acc(l: seq<Float>, h: seq<Float>)
  {
    predicate Valid() { |l| == |h| == 4 }
  }

  function Zero(o: Ops): (a: Acc)
    ensures a.Valid()
  {
    Acc([o.zero, o.zero, o.zero, o.zero], [o.zero, o.zero, o.zero, o.zero])
  }

  function Fma4(o: Ops, a: seq<Float>, x: seq<Float>, y: seq<Float>): (r: seq<Float>)
    requires |a| == |x| == |y| == 4
    ensures |r| == 4
  {
    [o.fma(a[0], x[0], y[0]), o.fma(a[1], x[1], y[1]), o.fma(a[2], x[2], y[2]), o.fma(a[3], x[3], y[3])]
  }

  /** One block of eight: both vectors. */
  function Fma8(o: Ops, a: Acc, x: Acc, y: Acc): (r: Acc)
    requires a.Valid() && x.Valid() && y.Valid()
    ensures r.Valid()
  {
    Acc(Fma4(o, a.l, x.l, y.l), Fma4(o, a.h, x.h, y.h))
  }

  /** Eight elements of s from at, as two vectors. */
  function Load(o: Ops, s: seq<Float>, at: nat): (r: Acc)
    ensures r.Valid()
  {
    Acc([o.Get(s, at), o.Get(s, at + 1), o.Get(s, at + 2), o.Get(s, at + 3)],
        [o.Get(s, at + 4), o.Get(s, at + 5), o.Get(s, at + 6), o.Get(s, at + 7)])
  }

  /** The lanes after b blocks. */
  function Lanes(o: Ops, x: seq<Float>, xb: nat, y: seq<Float>, yb: nat, b: nat): (a: Acc)
    ensures a.Valid()
  {
    if b == 0 then Zero(o)
    else Fma8(o, Lanes(o, x, xb, y, yb, b - 1), Load(o, x, xb + 8 * (b - 1)), Load(o, y, yb + 8 * (b - 1)))
  }

  /** The lanes added pairwise, then across. */
  function Reduce(o: Ops, a: Acc): Float
    requires a.Valid()
  {
    o.hsum(o.add(a.l[0], a.h[0]), o.add(a.l[1], a.h[1]), o.add(a.l[2], a.h[2]), o.add(a.l[3], a.h[3]))
  }

  /** The elements left over, one at a time onto the reduced sum. */
  function Tail(o: Ops, s: Float, x: seq<Float>, xb: nat, y: seq<Float>, yb: nat, from: nat, to: nat): Float {
    if to <= from then s
    else o.add(Tail(o, s, x, xb, y, yb, from, to - 1), o.mul(o.Get(x, xb + to - 1), o.Get(y, yb + to - 1)))
  }

  function Dot(o: Ops, x: seq<Float>, xb: nat, y: seq<Float>, yb: nat, n: nat): Float {
    Tail(o, Reduce(o, Lanes(o, x, xb, y, yb, n / 8)), x, xb, y, yb, 8 * (n / 8), n)
  }

  /** dot_f32. */
  method DotLoop(o: Ops, x: seq<Float>, xb: nat, y: seq<Float>, yb: nat, n: nat) returns (s: Float)
    requires xb + n <= |x| && yb + n <= |y|
    ensures s == Dot(o, x, xb, y, yb, n)
  {
    hide Fma8, Load, Reduce;
    var a, i := Zero(o), 0;
    ghost var b := 0;
    while i + 8 <= n
      invariant i == 8 * b <= n && a == Lanes(o, x, xb, y, yb, b)
    {
      a := Fma8(o, a, Load(o, x, xb + i), Load(o, y, yb + i));
      i, b := i + 8, b + 1;
    }
    assert b == n / 8;
    s := DotTail(o, Reduce(o, a), x, xb, y, yb, i, n);
  }

  method DotTail(o: Ops, r: Float, x: seq<Float>, xb: nat, y: seq<Float>, yb: nat, from: nat, n: nat) returns (s: Float)
    requires xb + n <= |x| && yb + n <= |y| && from <= n
    ensures s == Tail(o, r, x, xb, y, yb, from, n)
  {
    s := r;
    for i := from to n
      invariant s == Tail(o, r, x, xb, y, yb, from, i)
    {
      s := o.add(s, o.mul(x[xb + i], y[yb + i]));
    }
  }

  /** attn_dot4: four keys a pass over the query, each its own lanes and its own tail. */
  method Dot4(o: Ops, q: seq<Float>, qb: nat, k: seq<Float>, k0: nat, k1: nat, k2: nat, k3: nat, hd: nat)
    returns (s0: Float, s1: Float, s2: Float, s3: Float)
    requires qb + hd <= |q| && k0 + hd <= |k| && k1 + hd <= |k| && k2 + hd <= |k| && k3 + hd <= |k|
    ensures s0 == Dot(o, q, qb, k, k0, hd) && s1 == Dot(o, q, qb, k, k1, hd)
    ensures s2 == Dot(o, q, qb, k, k2, hd) && s3 == Dot(o, q, qb, k, k3, hd)
  {
    hide Fma8, Load, Reduce;
    var p0, p1, p2, p3, i := Zero(o), Zero(o), Zero(o), Zero(o), 0;
    ghost var b := 0;
    while i + 8 <= hd
      invariant i == 8 * b <= hd
      invariant p0 == Lanes(o, q, qb, k, k0, b) && p1 == Lanes(o, q, qb, k, k1, b)
      invariant p2 == Lanes(o, q, qb, k, k2, b) && p3 == Lanes(o, q, qb, k, k3, b)
    {
      var x := Load(o, q, qb + i);
      p0, p1 := Fma8(o, p0, x, Load(o, k, k0 + i)), Fma8(o, p1, x, Load(o, k, k1 + i));
      p2, p3 := Fma8(o, p2, x, Load(o, k, k2 + i)), Fma8(o, p3, x, Load(o, k, k3 + i));
      i, b := i + 8, b + 1;
    }
    assert b == hd / 8;
    ghost var r0, r1, r2, r3 := Reduce(o, p0), Reduce(o, p1), Reduce(o, p2), Reduce(o, p3);
    s0, s1, s2, s3 := Reduce(o, p0), Reduce(o, p1), Reduce(o, p2), Reduce(o, p3);
    for t := i to hd
      invariant s0 == Tail(o, r0, q, qb, k, k0, i, t) && s1 == Tail(o, r1, q, qb, k, k1, i, t)
      invariant s2 == Tail(o, r2, q, qb, k, k2, i, t) && s3 == Tail(o, r3, q, qb, k, k3, i, t)
    {
      var x := q[qb + t];
      s0, s1 := o.add(s0, o.mul(x, k[k0 + t])), o.add(s1, o.mul(x, k[k1 + t]));
      s2, s3 := o.add(s2, o.mul(x, k[k2 + t])), o.add(s3, o.mul(x, k[k3 + t]));
    }
  }

  // ---- all pairs ----

  datatype Qk = Qk(o: Ops, q: seq<Float>, qstride: nat, k: seq<Float>, kstride: nat, sstride: nat,
                   nq: nat, nk: nat, hd: nat, scale: Float)
  {
    predicate Valid(n: nat) {
      && nk <= sstride && 0 < sstride
      && (nq > 0 ==> (nq - 1) * sstride + nk <= n)
      && (nq > 0 ==> (nq - 1) * qstride + hd <= |q|) && (nk > 0 ==> (nk - 1) * kstride + hd <= |k|)
    }

    function QueryAt(u: nat): nat { u * qstride }

    function KeyAt(j: nat): nat { j * kstride }

    function ScoreAt(u: nat): nat { u * sstride }

    /** The score of a pair: its own dot product, scaled. */
    function Score(u: nat, j: nat): Float { o.mul(Dot(o, q, QueryAt(u), k, KeyAt(j), hd), scale) }

    ghost function Cells(was: seq<Float>): (g: Floats.Grid)
      ensures g.stride == sstride && g.rows == nq && g.cols == nk
      ensures forall u: nat, j: nat, c: nat :: g.spec(u, j, c) == if c == 0 then o.Get(was, ScoreAt(u) + j) else Score(u, j)
    {
      Floats.Grid(sstride, nq, nk, (u: nat, j: nat, c: nat) => if c == 0 then o.Get(was, ScoreAt(u) + j) else Score(u, j))
    }

    lemma Begin(was: seq<Float>)
      requires Valid(|was|)
      ensures At(Cells(was), was, was, (u: nat, j: nat) => 0)
    {
      var g := Cells(was);
      forall p | 0 <= p < |was| && g.Covers(p) ensures g.spec(g.Row(p), g.Col(p), 0) == was[p] {
        Where(g, g.Row(p), 0, nk, p);
      }
    }

    lemma PairInside(n: nat, u: nat, j: nat)
      requires Valid(n) && u < nq && j < nk
      ensures nk <= sstride && 0 < sstride && ScoreAt(u) + nk <= n && QueryAt(u) + hd <= |q| && KeyAt(j) + hd <= |k|
    {
      RowEnds(nq, sstride, n, u, nk);
      RowEnds(nq, qstride, |q|, u, hd);
      RowEnds(nk, kstride, |k|, j, hd);
    }

    /** Writing one score. */
    lemma StoreScore(was: seq<Float>, before: seq<Float>, after: seq<Float>,
                     cnt: (nat, nat) -> nat, cnt': (nat, nat) -> nat, u: nat, j: nat)
      requires nk <= sstride && 0 < sstride && At(Cells(was), was, before, cnt) && u < nq && j < nk
      requires Stored(before, after, ScoreAt(u) + j, [Score(u, j)])
      requires cnt'(u, j) == 1 && Raised(Cells(was), cnt, cnt', u, j, j + 1)
      ensures At(Cells(was), was, after, cnt')
    {
      StoreRun(Cells(was), was, before, after, cnt, cnt', u, ScoreAt(u), j, [Score(u, j)]);
    }
  }

  method PutScore(c: Qk, s: array<Float>, ghost was: seq<Float>, u: nat, j: nat, x: Float,
                  ghost cnt: (nat, nat) -> nat, ghost cnt': (nat, nat) -> nat)
    requires c.Valid(s.Length) && u < c.nq && j < c.nk && x == c.Score(u, j)
    requires At(c.Cells(was), was, s[..], cnt) && cnt'(u, j) == 1 && Raised(c.Cells(was), cnt, cnt', u, j, j + 1)
    modifies s
    ensures At(c.Cells(was), was, s[..], cnt')
  {
    hide At, Raised, Qk.Valid, Qk.Score, Qk.ScoreAt;
    c.PairInside(s.Length, u, j);
    ghost var before := s[..];
    s[c.ScoreAt(u) + j] := x;
    assert Stored(before, s[..], c.ScoreAt(u) + j, [x]);
    c.StoreScore(was, before, s[..], cnt, cnt', u, j);
  }

  /** One dot product, scaled, in its place. */
  method OnePair(c: Qk, s: array<Float>, ghost was: seq<Float>, u: nat, j: nat,
                 ghost cnt: (nat, nat) -> nat, ghost cnt': (nat, nat) -> nat)
    requires c.Valid(s.Length) && u < c.nq && j < c.nk
    requires At(c.Cells(was), was, s[..], cnt) && cnt'(u, j) == 1 && Raised(c.Cells(was), cnt, cnt', u, j, j + 1)
    modifies s
    ensures At(c.Cells(was), was, s[..], cnt')
  {
    hide At, Raised, Qk.Valid, Qk.QueryAt, Qk.KeyAt, Qk.ScoreAt, Dot;
    c.PairInside(s.Length, u, j);
    var x := DotLoop(c.o, c.q, c.QueryAt(u), c.k, c.KeyAt(j), c.hd);
    PutScore(c, s, was, u, j, c.o.mul(x, c.scale), cnt, cnt');
  }

  // ---- the progress of the whole kernel ----

  /** Whole rows up to u, and row u up to j. */
  ghost function RowCount(u: nat, j: nat): (nat, nat) -> nat {
    (a: nat, b: nat) => (if a < u || (a == u && b < j) then 1 else 0) as nat
  }

  /** Rows up to u0, and of four more the columns up to j0. */
  ghost function BlockCount(u0: nat, j0: nat): (nat, nat) -> nat {
    (a: nat, b: nat) => (if a < u0 || (a < u0 + 4 && b < j0) then 1 else 0) as nat
  }

  /** The same, with column j0 done for the rows up to u, and column j0 + 1 if `wide`. */
  ghost function TileCount(u0: nat, j0: nat, u: nat, wide: bool): (nat, nat) -> nat {
    (a: nat, b: nat) => (if a < u0 || (a < u0 + 4 && b < j0) || (a < u && (b == j0 || (wide && b == j0 + 1)))
                         then 1 else 0) as nat
  }

  method TailQueries(c: Qk, s: array<Float>, ghost was: seq<Float>, u0: nat)
    requires c.Valid(s.Length) && u0 <= c.nq && At(c.Cells(was), was, s[..], RowCount(u0, 0))
    modifies s
    ensures At(c.Cells(was), was, s[..], (u, j) => 1)
  {
    hide At, Inside, Qk.QueryAt, Qk.KeyAt, Qk.ScoreAt;
    for u := u0 to c.nq
      invariant At(c.Cells(was), was, s[..], RowCount(u, 0))
    {
      for j := 0 to c.nk
        invariant At(c.Cells(was), was, s[..], RowCount(u, j))
      {
        OnePair(c, s, was, u, j, RowCount(u, j), RowCount(u, j + 1));
      }
      Recount(c.Cells(was), was, s[..], RowCount(u, c.nk), RowCount(u + 1, 0));
    }
    Recount(c.Cells(was), was, s[..], RowCount(c.nq, 0), (u, j) => 1);
  }

  /** One dot product a pair: the kernel that is replaced. */
  method QkPlain(c: Qk, s: array<Float>)
    requires c.Valid(s.Length)
    modifies s
    ensures At(c.Cells(old(s[..])), old(s[..]), s[..], (u, j) => 1)
  {
    hide At, Inside;
    c.Begin(s[..]);
    Recount(c.Cells(s[..]), s[..], s[..], (u: nat, j: nat) => 0, RowCount(0, 0));
    TailQueries(c, s, s[..], 0);
  }

  // ---- four queries by two keys ----

  /** The registers of query u against one key, after b blocks. */
  function Regs(c: Qk, u: nat, j: nat, b: nat): (a: Acc)
    ensures a.Valid()
  {
    Lanes(c.o, c.q, c.QueryAt(u), c.k, c.KeyAt(j), b)
  }

  /** One block of eight of a pair, on operands already loaded. */
  lemma OneBlock(c: Qk, u: nat, j: nat, b: nat, x: Acc, y: Acc)
    requires x == Load(c.o, c.q, c.QueryAt(u) + 8 * b) && y == Load(c.o, c.k, c.KeyAt(j) + 8 * b)
    ensures x.Valid() && y.Valid() && Fma8(c.o, Regs(c, u, j, b), x, y) == Regs(c, u, j, b + 1)
  {
  }

  /** Eight sums, one a pair: four queries by two keys. */
  datatype Sums = Sums(r0: Float, r1: Float, r2: Float, r3: Float, r4: Float, r5: Float, r6: Float, r7: Float)

  /** The named registers: a against the first key, b against the second. */
  datatype Registers = Registers(a0: Acc, b0: Acc, a1: Acc, b1: Acc, a2: Acc, b2: Acc, a3: Acc, b3: Acc)
  {
    predicate Valid() {
      a0.Valid() && b0.Valid() && a1.Valid() && b1.Valid() && a2.Valid() && b2.Valid() && a3.Valid() && b3.Valid()
    }
  }

  ghost predicate Hold(c: Qk, u0: nat, j0: nat, b: nat, r: Registers) {
    && r.a0 == Regs(c, u0, j0, b) && r.b0 == Regs(c, u0, j0 + 1, b)
    && r.a1 == Regs(c, u0 + 1, j0, b) && r.b1 == Regs(c, u0 + 1, j0 + 1, b)
    && r.a2 == Regs(c, u0 + 2, j0, b) && r.b2 == Regs(c, u0 + 2, j0 + 1, b)
    && r.a3 == Regs(c, u0 + 3, j0, b) && r.b3 == Regs(c, u0 + 3, j0 + 1, b)
  }

  /** Two keys loaded once, four queries loaded once each, sixteen fused multiply-adds. */
  function Block(c: Qk, u0: nat, j0: nat, e: nat, r: Registers): (r': Registers)
    requires r.Valid()
    ensures r'.Valid()
  {
    var k0, k1 := Load(c.o, c.k, c.KeyAt(j0) + e), Load(c.o, c.k, c.KeyAt(j0 + 1) + e);
    var p0, p1 := Load(c.o, c.q, c.QueryAt(u0) + e), Load(c.o, c.q, c.QueryAt(u0 + 1) + e);
    var p2, p3 := Load(c.o, c.q, c.QueryAt(u0 + 2) + e), Load(c.o, c.q, c.QueryAt(u0 + 3) + e);
    Registers(Fma8(c.o, r.a0, p0, k0), Fma8(c.o, r.b0, p0, k1), Fma8(c.o, r.a1, p1, k0), Fma8(c.o, r.b1, p1, k1),
              Fma8(c.o, r.a2, p2, k0), Fma8(c.o, r.b2, p2, k1), Fma8(c.o, r.a3, p3, k0), Fma8(c.o, r.b3, p3, k1))
  }

  lemma ZeroHolds(c: Qk, u0: nat, j0: nat)
    ensures var z := Zero(c.o); Hold(c, u0, j0, 0, Registers(z, z, z, z, z, z, z, z))
  {
  }

  lemma BlockHolds(c: Qk, u0: nat, j0: nat, b: nat, r: Registers)
    requires Hold(c, u0, j0, b, r) && r.Valid()
    ensures Hold(c, u0, j0, b + 1, Block(c, u0, j0, 8 * b, r))
  {
    hide Fma8, Load, Qk.QueryAt, Qk.KeyAt;
  }

  /** One step of the tail, for all eight pairs. */
  function TailStep(c: Qk, u0: nat, j0: nat, t: nat, r: Sums): Sums {
    var c0, c1 := c.o.Get(c.k, c.KeyAt(j0) + t), c.o.Get(c.k, c.KeyAt(j0 + 1) + t);
    var p0, p1 := c.o.Get(c.q, c.QueryAt(u0) + t), c.o.Get(c.q, c.QueryAt(u0 + 1) + t);
    var p2, p3 := c.o.Get(c.q, c.QueryAt(u0 + 2) + t), c.o.Get(c.q, c.QueryAt(u0 + 3) + t);
    Sums(c.o.add(r.r0, c.o.mul(p0, c0)), c.o.add(r.r1, c.o.mul(p0, c1)),
         c.o.add(r.r2, c.o.mul(p1, c0)), c.o.add(r.r3, c.o.mul(p1, c1)),
         c.o.add(r.r4, c.o.mul(p2, c0)), c.o.add(r.r5, c.o.mul(p2, c1)),
         c.o.add(r.r6, c.o.mul(p3, c0)), c.o.add(r.r7, c.o.mul(p3, c1)))
  }

  /** A pair's sum once its tail is in as far as t. */
  function PairSum(c: Qk, u: nat, j: nat, t: nat): Float {
    Tail(c.o, Reduce(c.o, Regs(c, u, j, c.hd / 8)), c.q, c.QueryAt(u), c.k, c.KeyAt(j), 8 * (c.hd / 8), t)
  }

  ghost predicate Summed(c: Qk, u0: nat, j0: nat, t: nat, r: Sums) {
    && r.r0 == PairSum(c, u0, j0, t) && r.r1 == PairSum(c, u0, j0 + 1, t)
    && r.r2 == PairSum(c, u0 + 1, j0, t) && r.r3 == PairSum(c, u0 + 1, j0 + 1, t)
    && r.r4 == PairSum(c, u0 + 2, j0, t) && r.r5 == PairSum(c, u0 + 2, j0 + 1, t)
    && r.r6 == PairSum(c, u0 + 3, j0, t) && r.r7 == PairSum(c, u0 + 3, j0 + 1, t)
  }

  lemma PairNext(c: Qk, u: nat, j: nat, t: nat)
    requires 8 * (c.hd / 8) <= t
    ensures PairSum(c, u, j, t + 1) ==
            c.o.add(PairSum(c, u, j, t), c.o.mul(c.o.Get(c.q, c.QueryAt(u) + t), c.o.Get(c.k, c.KeyAt(j) + t)))
  {
  }

  lemma TailHolds(c: Qk, u0: nat, j0: nat, t: nat, r: Sums)
    requires Summed(c, u0, j0, t, r) && 8 * (c.hd / 8) <= t
    ensures Summed(c, u0, j0, t + 1, TailStep(c, u0, j0, t, r))
  {
    hide PairSum, Qk.QueryAt, Qk.KeyAt, Ops.Get;
    PairNext(c, u0, j0, t);
    PairNext(c, u0, j0 + 1, t);
    PairNext(c, u0 + 1, j0, t);
    PairNext(c, u0 + 1, j0 + 1, t);
    PairNext(c, u0 + 2, j0, t);
    PairNext(c, u0 + 2, j0 + 1, t);
    PairNext(c, u0 + 3, j0, t);
    PairNext(c, u0 + 3, j0 + 1, t);
  }

  /** The eight dot products of a tile. */
  method TileSums(c: Qk, u0: nat, j0: nat) returns (r: Sums)
    ensures Summed(c, u0, j0, c.hd, r)
  {
    hide Summed, Hold, Reduce, PairSum, Qk.QueryAt, Qk.KeyAt, TailStep;
    var regs, e := TileRegs(c, u0, j0);
    r := Sums(Reduce(c.o, regs.a0), Reduce(c.o, regs.b0), Reduce(c.o, regs.a1), Reduce(c.o, regs.b1),
              Reduce(c.o, regs.a2), Reduce(c.o, regs.b2), Reduce(c.o, regs.a3), Reduce(c.o, regs.b3));
    ReducedSums(c, u0, j0, regs);
    for t := e to c.hd
      invariant Summed(c, u0, j0, t, r)
    {
      TailHolds(c, u0, j0, t, r);
      r := TailStep(c, u0, j0, t, r);
    }
  }

  method TileRegs(c: Qk, u0: nat, j0: nat) returns (regs: Registers, e: nat)
    ensures e == 8 * (c.hd / 8) && Hold(c, u0, j0, c.hd / 8, regs) && regs.Valid()
  {
    hide Hold, Block, Qk.QueryAt, Qk.KeyAt;
    var z := Zero(c.o);
    regs, e := Registers(z, z, z, z, z, z, z, z), 0;
    ghost var b := 0;
    ZeroHolds(c, u0, j0);
    while e + 8 <= c.hd
      invariant e == 8 * b <= c.hd && Hold(c, u0, j0, b, regs) && regs.Valid()
    {
      BlockHolds(c, u0, j0, b, regs);
      regs := Block(c, u0, j0, e, regs);
      e, b := e + 8, b + 1;
    }
    assert b == c.hd / 8;
  }

  lemma ReducedSums(c: Qk, u0: nat, j0: nat, g: Registers)
    requires Hold(c, u0, j0, c.hd / 8, g) && g.Valid()
    ensures Summed(c, u0, j0, 8 * (c.hd / 8),
                   Sums(Reduce(c.o, g.a0), Reduce(c.o, g.b0), Reduce(c.o, g.a1), Reduce(c.o, g.b1),
                        Reduce(c.o, g.a2), Reduce(c.o, g.b2), Reduce(c.o, g.a3), Reduce(c.o, g.b3)))
  {
    hide Regs, Reduce, Qk.QueryAt, Qk.KeyAt;
  }

  /** The eight scores of a tile, in their places. */
  method Tile(c: Qk, s: array<Float>, ghost was: seq<Float>, u0: nat, j0: nat)
    requires c.Valid(s.Length) && u0 + 4 <= c.nq && j0 + 2 <= c.nk && At(c.Cells(was), was, s[..], BlockCount(u0, j0))
    modifies s
    ensures At(c.Cells(was), was, s[..], BlockCount(u0, j0 + 2))
  {
    hide At, Qk.QueryAt, Qk.KeyAt, Qk.ScoreAt, Inside, PairSum, Dot;
    var r := TileSums(c, u0, j0);
    Recount(c.Cells(was), was, s[..], BlockCount(u0, j0), TileCount(u0, j0, u0, true));
    TwoScores(c, s, was, u0, j0, u0, r.r0, r.r1);
    TwoScores(c, s, was, u0, j0, u0 + 1, r.r2, r.r3);
    TwoScores(c, s, was, u0, j0, u0 + 2, r.r4, r.r5);
    TwoScores(c, s, was, u0, j0, u0 + 3, r.r6, r.r7);
    Recount(c.Cells(was), was, s[..], TileCount(u0, j0, u0 + 4, true), BlockCount(u0, j0 + 2));
  }

  lemma SumIsDot(c: Qk, u: nat, j: nat)
    ensures c.o.mul(PairSum(c, u, j, c.hd), c.scale) == c.Score(u, j)
  {
  }

  /** Row u of a tile. */
  method TwoScores(c: Qk, s: array<Float>, ghost was: seq<Float>, u0: nat, j0: nat, u: nat, x: Float, y: Float)
    requires c.Valid(s.Length) && u0 <= u < u0 + 4 <= c.nq && j0 + 2 <= c.nk
    requires At(c.Cells(was), was, s[..], TileCount(u0, j0, u, true))
    requires x == PairSum(c, u, j0, c.hd) && y == PairSum(c, u, j0 + 1, c.hd)
    modifies s
    ensures At(c.Cells(was), was, s[..], TileCount(u0, j0, u + 1, true))
  {
    hide At, Qk.QueryAt, Qk.KeyAt, Qk.ScoreAt, Qk.Score, Inside, PairSum, Dot;
    SumIsDot(c, u, j0);
    SumIsDot(c, u, j0 + 1);
    ghost var half: (nat, nat) -> nat :=
      (a: nat, b: nat) => (if a == u && b == j0 then 1 else TileCount(u0, j0, u, true)(a, b)) as nat;
    PutScore(c, s, was, u, j0, c.o.mul(x, c.scale), TileCount(u0, j0, u, true), half);
    PutScore(c, s, was, u, j0 + 1, c.o.mul(y, c.scale), half, TileCount(u0, j0, u + 1, true));
  }

  /** charsiu_qk_f32: tiles, the key left over, the queries left over. */
  method QkBlocked(c: Qk, s: array<Float>)
    requires c.Valid(s.Length)
    modifies s
    ensures At(c.Cells(old(s[..])), old(s[..]), s[..], (u, j) => 1)
  {
    hide At, Inside, Qk.QueryAt, Qk.KeyAt, Qk.ScoreAt;
    ghost var was := s[..];
    c.Begin(was);
    var u0 := 0;
    Recount(c.Cells(was), was, s[..], (u: nat, j: nat) => 0, BlockCount(0, 0));
    while u0 + 4 <= c.nq
      invariant u0 <= c.nq && At(c.Cells(was), was, s[..], BlockCount(u0, 0))
    {
      var j0 := 0;
      while j0 + 2 <= c.nk
        invariant j0 <= c.nk && At(c.Cells(was), was, s[..], BlockCount(u0, j0))
      {
        Tile(c, s, was, u0, j0);
        j0 := j0 + 2;
      }
      TailKeys(c, s, was, u0, j0);
      u0 := u0 + 4;
    }
    Recount(c.Cells(was), was, s[..], BlockCount(u0, 0), RowCount(u0, 0));
    TailQueries(c, s, was, u0);
  }

  method TailKeys(c: Qk, s: array<Float>, ghost was: seq<Float>, u0: nat, j0: nat)
    requires c.Valid(s.Length) && u0 + 4 <= c.nq && j0 <= c.nk && At(c.Cells(was), was, s[..], BlockCount(u0, j0))
    modifies s
    ensures At(c.Cells(was), was, s[..], BlockCount(u0 + 4, 0))
  {
    hide At, Inside, Qk.QueryAt, Qk.KeyAt, Qk.ScoreAt;
    for j := j0 to c.nk
      invariant At(c.Cells(was), was, s[..], BlockCount(u0, j))
    {
      Recount(c.Cells(was), was, s[..], BlockCount(u0, j), TileCount(u0, j, u0, false));
      for u := u0 to u0 + 4
        invariant At(c.Cells(was), was, s[..], TileCount(u0, j, u, false))
      {
        OnePair(c, s, was, u, j, TileCount(u0, j, u, false), TileCount(u0, j, u + 1, false));
      }
      Recount(c.Cells(was), was, s[..], TileCount(u0, j, u0 + 4, false), BlockCount(u0, j + 1));
    }
    Recount(c.Cells(was), was, s[..], BlockCount(u0, c.nk), BlockCount(u0 + 4, 0));
  }

  // ---- the reference, in plain terms ----

  /** Lane i of eight after b blocks of eight. */
  function Lane(o: Ops, x: seq<Float>, y: seq<Float>, i: nat, b: nat): Float
    requires i < 8 && 8 * b <= |x| && |x| == |y|
  {
    if b == 0 then o.zero else o.fma(Lane(o, x, y, i, b - 1), x[8 * (b - 1) + i], y[8 * (b - 1) + i])
  }

  /** The first n of the elements past the whole eights, one at a time onto the lanes' sum. */
  function Rest(o: Ops, x: seq<Float>, y: seq<Float>, n: nat): Float
    requires |x| == |y| && |x| / 8 * 8 + n <= |x|
  {
    var b := |x| / 8;
    if n == 0 then
      o.hsum(o.add(Lane(o, x, y, 0, b), Lane(o, x, y, 4, b)), o.add(Lane(o, x, y, 1, b), Lane(o, x, y, 5, b)),
             o.add(Lane(o, x, y, 2, b), Lane(o, x, y, 6, b)), o.add(Lane(o, x, y, 3, b), Lane(o, x, y, 7, b)))
    else o.add(Rest(o, x, y, n - 1), o.mul(x[8 * b + n - 1], y[8 * b + n - 1]))
  }

  /** The dot product of two vectors: eight lanes, the two fours of them added and reduced, and
      what is left over. */
  function DotOf(o: Ops, x: seq<Float>, y: seq<Float>): Float
    requires |x| == |y|
  {
    Rest(o, x, y, |x| % 8)
  }

  lemma DotIs(o: Ops, x: seq<Float>, xb: nat, y: seq<Float>, yb: nat, n: nat)
    requires xb + n <= |x| && yb + n <= |y|
    ensures Dot(o, x, xb, y, yb, n) == DotOf(o, x[xb..xb + n], y[yb..yb + n])
  {
    RestIs(o, x, xb, y, yb, n, n % 8);
  }

  lemma {:induction false} RestIs(o: Ops, x: seq<Float>, xb: nat, y: seq<Float>, yb: nat, n: nat, t: nat)
    requires xb + n <= |x| && yb + n <= |y| && t <= n % 8
    ensures Tail(o, Reduce(o, Lanes(o, x, xb, y, yb, n / 8)), x, xb, y, yb, 8 * (n / 8), 8 * (n / 8) + t)
            == Rest(o, x[xb..xb + n], y[yb..yb + n], t)
  {
    hide Lanes, Reduce, Lane;
    if t > 0 {
      RestIs(o, x, xb, y, yb, n, t - 1);
      var at := 8 * (n / 8) + t - 1;
      assert x[xb..xb + n][at] == o.Get(x, xb + at) && y[yb..yb + n][at] == o.Get(y, yb + at);
    } else {
      ReduceIs(o, x, xb, y, yb, n);
    }
  }

  lemma ReduceIs(o: Ops, x: seq<Float>, xb: nat, y: seq<Float>, yb: nat, n: nat)
    requires xb + n <= |x| && yb + n <= |y|
    ensures Reduce(o, Lanes(o, x, xb, y, yb, n / 8)) == Rest(o, x[xb..xb + n], y[yb..yb + n], 0)
  {
    hide Lanes, Lane;
    LanesAre(o, x, xb, y, yb, n, n / 8);
  }

  lemma {:induction false} LanesAre(o: Ops, x: seq<Float>, xb: nat, y: seq<Float>, yb: nat, n: nat, b: nat)
    requires xb + n <= |x| && yb + n <= |y| && 8 * b <= n
    ensures var a, p, q := Lanes(o, x, xb, y, yb, b), x[xb..xb + n], y[yb..yb + n];
            && (forall i :: 0 <= i < 4 ==> a.l[i] == Lane(o, p, q, i, b))
            && (forall i :: 0 <= i < 4 ==> a.h[i] == Lane(o, p, q, i + 4, b))
  {
    hide Fma8, Load;
    if b > 0 {
      LanesAre(o, x, xb, y, yb, n, b - 1);
      var a, p, q := Lanes(o, x, xb, y, yb, b - 1), x[xb..xb + n], y[yb..yb + n];
      LanesNext(o, x, xb, y, yb, n, b, a);
      forall i | 0 <= i < 4
        ensures Lanes(o, x, xb, y, yb, b).l[i] == Lane(o, p, q, i, b)
        ensures Lanes(o, x, xb, y, yb, b).h[i] == Lane(o, p, q, i + 4, b)
      {
        assert a.l[i] == Lane(o, p, q, i, b - 1) && a.h[i] == Lane(o, p, q, i + 4, b - 1);
      }
    }
  }

  lemma LanesNext(o: Ops, x: seq<Float>, xb: nat, y: seq<Float>, yb: nat, n: nat, b: nat, a: Acc)
    requires xb + n <= |x| && yb + n <= |y| && 0 < b && 8 * b <= n && a.Valid()
    ensures var f, p, q := Fma8(o, a, Load(o, x, xb + 8 * (b - 1)), Load(o, y, yb + 8 * (b - 1))), x[xb..xb + n], y[yb..yb + n];
            && (forall i :: 0 <= i < 4 ==> f.l[i] == o.fma(a.l[i], p[8 * (b - 1) + i], q[8 * (b - 1) + i]))
            && (forall i :: 0 <= i < 4 ==> f.h[i] == o.fma(a.h[i], p[8 * (b - 1) + (i + 4)], q[8 * (b - 1) + (i + 4)]))
  {
    Loaded(o, x, xb, n, 8 * (b - 1));
    Loaded(o, y, yb, n, 8 * (b - 1));
  }

  lemma Loaded(o: Ops, x: seq<Float>, xb: nat, n: nat, at: nat)
    requires xb + n <= |x| && at + 8 <= n
    ensures var v, p := Load(o, x, xb + at), x[xb..xb + n];
            && v.l == [p[at], p[at + 1], p[at + 2], p[at + 3]]
            && v.h == [p[at + 4], p[at + 5], p[at + 6], p[at + 7]]
  {
  }

  /** What either kernel leaves: each score its own query's and key's dot product, scaled, and
      every other cell as it was. */
  lemma ScoreIs(c: Qk, was: seq<Float>, now: seq<Float>, u: nat, j: nat)
    requires c.Valid(|was|) && At(c.Cells(was), was, now, (u, j) => 1) && u < c.nq && j < c.nk
    ensures |now| == |was| && 0 <= u * c.sstride + j < |was|
    ensures u * c.qstride + c.hd <= |c.q| && j * c.kstride + c.hd <= |c.k|
    ensures now[u * c.sstride + j] ==
            c.o.mul(DotOf(c.o, c.q[u * c.qstride..u * c.qstride + c.hd], c.k[j * c.kstride..j * c.kstride + c.hd]), c.scale)
  {
    hide Dot, DotOf;
    c.PairInside(|was|, u, j);
    DivMod(c.sstride, u, j);
    assert c.Cells(was).Covers(u * c.sstride + j);
    DotIs(c.o, c.q, u * c.qstride, c.k, j * c.kstride, c.hd);
  }

  lemma OthersKept(c: Qk, was: seq<Float>, now: seq<Float>, p: nat)
    requires c.Valid(|was|) && At(c.Cells(was), was, now, (u, j) => 1) && p < |was|
    requires p / c.sstride >= c.nq || p % c.sstride >= c.nk
    ensures now[p] == was[p]
  {
  }

  /** The two leave the same bits. */
  lemma SameBits(c: Qk, was: seq<Float>, plain: seq<Float>, blocked: seq<Float>)
    requires c.nk <= c.sstride && 0 < c.sstride
    requires At(c.Cells(was), was, plain, (u, j) => 1) && At(c.Cells(was), was, blocked, (u, j) => 1)
    ensures plain == blocked
  {
    forall p | 0 <= p < |was| ensures plain[p] == blocked[p] {
      assert c.Cells(was).Covers(p) || !c.Cells(was).Covers(p);
    }
  }
}
