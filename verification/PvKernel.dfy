/**
 The values kernel: acc[u] += s[u][j] * v[j] for every query u and key j, one pair at a
 time, and four queries by sixteen channels at a time.
 */
module PvKernel {
  import opened IndexArith
  import opened Floats

  // ---- one pair ----

  /** Element e of an axpy over n: fused in the blocks of eight, two roundings in the tail. */
  function Step(o: Ops, n: nat, e: nat, y: Float, x: Float, a: Float): Float {
    if e < n - n % 8 then o.fma(y, x, a) else o.add(y, o.mul(a, x))
  }

  /** Elements of an axpy from e to e + len, of n in all. */
  function Run(o: Ops, n: nat, e: nat, y: seq<Float>, x: seq<Float>, xb: nat, a: Float): (r: seq<Float>)
    ensures |r| == |y| && forall i :: 0 <= i < |y| ==> r[i] == Step(o, n, e + i, y[i], o.Get(x, xb + i), a)
  {
    seq(|y|, i requires 0 <= i < |y| => Step(o, n, e + i, y[i], o.Get(x, xb + i), a))
  }

  /** Four lanes at a time: a fused multiply-add of one scalar. */
  function Lanes(o: Ops, y: seq<Float>, x: seq<Float>, a: Float): (r: seq<Float>)
    requires |x| == |y|
    ensures |r| == |y| && forall i :: 0 <= i < |y| ==> r[i] == o.fma(y[i], x[i], a)
  {
    seq(|y|, i requires 0 <= i < |y| => o.fma(y[i], x[i], a))
  }

  /** charsiu_axpy_f32 on the n elements at base. */
  method Axpy(o: Ops, y: array<Float>, base: nat, x: seq<Float>, xb: nat, a: Float, n: nat)
    requires base + n <= y.Length && xb + n <= |x|
    modifies y
    ensures Stored(old(y[..]), y[..], base, Run(o, n, 0, old(y[base..base + n]), x, xb, a))
  {
    hide Step;
    ghost var was := y[..];
    ghost var all := Run(o, n, 0, was[base..base + n], x, xb, a);
    var i := 0;
    while i + 8 <= n
      invariant i <= n && i % 8 == 0 && StoredTo(was, y[..], base, all, i)
      decreases n - i
    {
      EightMore(n, i);
      AxpyLanes(o, y, base, x, xb, a, n, i, was);
      AxpyLanes(o, y, base, x, xb, a, n, i + 4, was);
      i := i + 8;
    }
    while i < n
      invariant n - n % 8 <= i <= n && StoredTo(was, y[..], base, all, i)
      decreases n - i
    {
      AxpyOne(o, y, base, x, xb, a, n, i, was);
      i := i + 1;
    }
  }

  lemma EightMore(n: nat, i: nat)
    requires i % 8 == 0
    ensures i + 8 <= n ==> i + 8 <= n - n % 8 && (i + 8) % 8 == 0
  {
  }

  /** One element of the tail. */
  method AxpyOne(o: Ops, y: array<Float>, base: nat, x: seq<Float>, xb: nat, a: Float, n: nat, i: nat,
                 ghost was: seq<Float>)
    requires base + n <= y.Length == |was| && xb + n <= |x| && n - n % 8 <= i < n
    requires StoredTo(was, y[..], base, Run(o, n, 0, was[base..base + n], x, xb, a), i)
    modifies y
    ensures StoredTo(was, y[..], base, Run(o, n, 0, was[base..base + n], x, xb, a), i + 1)
  {
    y[base + i] := o.add(y[base + i], o.mul(a, x[xb + i]));
  }

  /** One vector of four. */
  method AxpyLanes(o: Ops, y: array<Float>, base: nat, x: seq<Float>, xb: nat, a: Float, n: nat, i: nat,
                   ghost was: seq<Float>)
    requires base + n <= y.Length == |was| && xb + n <= |x| && i + 4 <= n - n % 8
    requires StoredTo(was, y[..], base, Run(o, n, 0, was[base..base + n], x, xb, a), i)
    modifies y
    ensures StoredTo(was, y[..], base, Run(o, n, 0, was[base..base + n], x, xb, a), i + 4)
  {
    forall t | 0 <= t < 4 { y[base + i + t] := o.fma(y[base + i + t], x[xb + i + t], a); }
  }

  ghost predicate StoredTo(before: seq<Float>, after: seq<Float>, base: nat, vals: seq<Float>, i: nat) {
    && |after| == |before| && base + |vals| <= |before| && i <= |vals|
    && forall p :: 0 <= p < |before| ==> after[p] == if base <= p < base + i then vals[p - base] else before[p]
  }

  method Store(y: array<Float>, base: nat, vals: seq<Float>)
    requires base + |vals| <= y.Length
    modifies y
    ensures Stored(old(y[..]), y[..], base, vals)
  {
    forall t | 0 <= t < |vals| { y[base + t] := vals[t]; }
  }

  // ---- all pairs ----

  /** The call: values v at vstride, weights s at sstride, accumulators at astride. */
  datatype Pv = Pv(o: Ops, v: seq<Float>, vstride: nat, s: seq<Float>, sstride: nat, astride: nat,
                   nq: nat, nk: nat, hd: nat)
  {
    predicate Valid(n: nat) {
      && hd <= astride && 0 < astride
      && (nq > 0 ==> (nq - 1) * astride + hd <= n)
      && (nq > 0 && nk > 0 ==> (nq - 1) * sstride + nk <= |s|) && (nk > 0 ==> (nk - 1) * vstride + hd <= |v|)
    }

    /** Where a row of the accumulators, a row of the values and a weight are. */
    function RowAt(u: nat): nat { u * astride }

    function KeyAt(j: nat): nat { j * vstride }

    function WeightAt(u: nat, j: nat): nat { u * sstride + j }

    function W(u: nat, j: nat): Float { o.Get(s, WeightAt(u, j)) }

    function V(j: nat, e: nat): Float { o.Get(v, KeyAt(j) + e) }

    /** Channel e of query u after k keys, one axpy each, in ascending order. */
    function Elem(was: seq<Float>, u: nat, e: nat, k: nat): Float {
      if k == 0 then o.Get(was, RowAt(u) + e)
      else Step(o, hd, e, Elem(was, u, e, k - 1), V(k - 1, e), W(u, k - 1))
    }

    ghost function Cells(was: seq<Float>): (g: Floats.Grid)
      ensures g.stride == astride && g.rows == nq && g.cols == hd
      ensures forall u: nat, e: nat, k: nat :: g.spec(u, e, k) == Elem(was, u, e, k)
    {
      Floats.Grid(astride, nq, hd, (u: nat, e: nat, k: nat) => Elem(was, u, e, k))
    }

    lemma Begin(was: seq<Float>)
      requires Valid(|was|)
      ensures At(Cells(was), was, was, (u: nat, e: nat) => 0)
    {
      var g := Cells(was);
      forall p | 0 <= p < |was| && g.Covers(p) ensures g.spec(g.Row(p), g.Col(p), 0) == was[p] {
        Where(g, g.Row(p), 0, hd, p);
      }
    }

    lemma Shape(n: nat)
      requires Valid(n)
      ensures hd <= astride && 0 < astride
    {
    }

    lemma InputsInside(n: nat, u: nat, j: nat)
      requires Valid(n) && u < nq && j < nk
      ensures WeightAt(u, j) < |s| && KeyAt(j) + hd <= |v| && RowAt(u) + hd <= n && hd <= astride && 0 < astride
    {
      RowEnds(nq, sstride, |s|, u, nk);
      RowEnds(nk, vstride, |v|, j, hd);
      RowInside(n, u);
    }

    lemma RowInside(n: nat, u: nat)
      requires Valid(n) && u < nq
      ensures RowAt(u) + hd <= n && hd <= astride && 0 < astride
    {
      RowEnds(nq, astride, n, u, hd);
    }

    /** A run of the accumulators of query u, each after as many keys as counted. */
    lemma Channels(was: seq<Float>, now: seq<Float>, cnt: (nat, nat) -> nat, u: nat, e0: nat, y: seq<Float>)
      requires hd <= astride && 0 < astride && At(Cells(was), was, now, cnt) && u < nq && RowAt(u) + hd <= |now|
      requires e0 + |y| <= hd && y == now[RowAt(u) + e0..RowAt(u) + e0 + |y|]
      ensures forall t :: 0 <= t < |y| ==> y[t] == Elem(was, u, e0 + t, cnt(u, e0 + t))
    {
      RowOf(Cells(was), was, now, cnt, u, RowAt(u));
      forall t | 0 <= t < |y| ensures y[t] == Elem(was, u, e0 + t, cnt(u, e0 + t)) {
        assert y[t] == now[RowAt(u) + (e0 + t)];
      }
    }

    lemma StoreChannels(was: seq<Float>, before: seq<Float>, after: seq<Float>,
                        cnt: (nat, nat) -> nat, cnt': (nat, nat) -> nat, u: nat, e0: nat, vals: seq<Float>)
      requires hd <= astride && 0 < astride && At(Cells(was), was, before, cnt) && u < nq && e0 + |vals| <= hd
      requires Stored(before, after, RowAt(u) + e0, vals) && Raised(Cells(was), cnt, cnt', u, e0, e0 + |vals|)
      requires forall t :: 0 <= t < |vals| ==> vals[t] == Elem(was, u, e0 + t, cnt'(u, e0 + t))
      ensures At(Cells(was), was, after, cnt')
    {
      StoreRun(Cells(was), was, before, after, cnt, cnt', u, RowAt(u), e0, vals);
    }
  }

  /** One axpy a pair: the kernel that is replaced. */
  method PvPlain(c: Pv, acc: array<Float>)
    requires c.Valid(acc.Length)
    modifies acc
    ensures At(c.Cells(old(acc[..])), old(acc[..]), acc[..], (u, e) => c.nk)
  {
    hide At, Pv.Valid;
    c.Shape(acc.Length);
    ghost var was := acc[..];
    c.Begin(was);
    Recount(c.Cells(was), was, acc[..], (u: nat, e: nat) => 0, RowCount(c, 0, 0));
    TailQueries(c, acc, was, 0);
  }

  /** The axpy of one pair over the channels from e0, a multiple of eight. */
  method OnePair(c: Pv, acc: array<Float>, ghost was: seq<Float>, u: nat, j: nat, e0: nat,
                 ghost cnt: (nat, nat) -> nat, ghost cnt': (nat, nat) -> nat)
    requires c.Valid(acc.Length) && u < c.nq && j < c.nk && e0 <= c.hd && e0 % 8 == 0
    requires At(c.Cells(was), was, acc[..], cnt) && Raised(c.Cells(was), cnt, cnt', u, e0, c.hd)
    requires forall e :: e0 <= e < c.hd ==> cnt(u, e) == j && cnt'(u, e) == j + 1
    modifies acc
    ensures At(c.Cells(was), was, acc[..], cnt')
  {
    hide At, Inside, Raised, Stored, Pv.Valid, Pv.RowAt, Pv.KeyAt, Pv.WeightAt, Pv.Elem, Run;
    c.InputsInside(acc.Length, u, j);
    var row, vb, w := c.RowAt(u), c.KeyAt(j), c.s[c.WeightAt(u, j)];
    ghost var before := acc[..];
    Axpy(c.o, acc, row + e0, c.v, vb + e0, w, c.hd - e0);
    ghost var y := before[row + e0..row + e0 + (c.hd - e0)];
    c.Channels(was, before, cnt, u, e0, y);
    ghost var vals := Run(c.o, |y|, 0, y, c.v, vb + e0, w);
    PairVals(c, was, u, j, e0, y, vals);
    c.StoreChannels(was, before, acc[..], cnt, cnt', u, e0, vals);
  }

  /** What an axpy over the channels from e0 leaves is each channel's next step. */
  lemma PairVals(c: Pv, was: seq<Float>, u: nat, j: nat, e0: nat, y: seq<Float>, vals: seq<Float>)
    requires e0 <= c.hd && e0 % 8 == 0 && |y| == c.hd - e0
    requires forall t :: 0 <= t < |y| ==> y[t] == c.Elem(was, u, e0 + t, j)
    requires vals == Run(c.o, |y|, 0, y, c.v, c.KeyAt(j) + e0, c.W(u, j))
    ensures |vals| == |y| && forall t :: 0 <= t < |vals| ==> vals[t] == c.Elem(was, u, e0 + t, j + 1)
  {
    forall t | 0 <= t < |vals| ensures vals[t] == c.Elem(was, u, e0 + t, j + 1) {
      SameKind(c.hd, e0, t);
    }
  }

  /** The tail of a shorter axpy is the tail of the whole one. */
  lemma SameKind(hd: nat, e0: nat, t: nat)
    requires e0 <= hd && e0 % 8 == 0
    ensures t < (hd - e0) - (hd - e0) % 8 <==> e0 + t < hd - hd % 8
  {
  }

  // ---- four queries by sixteen channels ----

  /** The sixteen accumulators of query u from channel e0, after j keys. */
  function Regs(c: Pv, was: seq<Float>, u: nat, e0: nat, j: nat): (r: seq<Float>)
    ensures |r| == 16 && forall i :: 0 <= i < 16 ==> r[i] == c.Elem(was, u, e0 + i, j)
  {
    seq(16, i requires 0 <= i < 16 => c.Elem(was, u, e0 + i, j))
  }

  /** One key: four vectors times one weight. */
  lemma FmaIsStep(c: Pv, was: seq<Float>, u: nat, e0: nat, j: nat, x: seq<Float>)
    requires e0 + 16 <= c.hd && e0 % 16 == 0 && |x| == 16
    requires forall i :: 0 <= i < 16 ==> x[i] == c.V(j, e0 + i)
    ensures Lanes(c.o, Regs(c, was, u, e0, j), x, c.W(u, j)) == Regs(c, was, u, e0, j + 1)
  {
    hide Pv.Elem, Pv.V, Pv.W;
    WholeEights(c.hd, e0);
    forall i | 0 <= i < 16
      ensures Lanes(c.o, Regs(c, was, u, e0, j), x, c.W(u, j))[i] == c.Elem(was, u, e0 + i, j + 1)
    {
      OneStep(c, was, u, e0 + i, j);
    }
  }

  lemma OneStep(c: Pv, was: seq<Float>, u: nat, e: nat, j: nat)
    ensures c.Elem(was, u, e, j + 1) == Step(c.o, c.hd, e, c.Elem(was, u, e, j), c.V(j, e), c.W(u, j))
  {
  }

  lemma WholeEights(hd: nat, e0: nat)
    requires e0 + 16 <= hd && e0 % 16 == 0
    ensures e0 + 16 <= hd - hd % 8
  {
  }

  /** Sixteen channels of key j. */
  lemma KeyRun(c: Pv, j: nat, e0: nat, x: seq<Float>)
    requires c.KeyAt(j) + c.hd <= |c.v| && e0 + 16 <= c.hd && x == c.v[c.KeyAt(j) + e0..c.KeyAt(j) + e0 + 16]
    ensures forall i :: 0 <= i < 16 ==> x[i] == c.V(j, e0 + i)
  {
  }

  /** How far the kernel is: whole blocks of four queries, then the channels of one block. */
  ghost function Progress(c: Pv, u0: nat, e0: nat): (nat, nat) -> nat {
    (a: nat, b: nat) => (if a < u0 || (a < u0 + 4 && b < e0) then c.nk else 0) as nat
  }

  /** The same with r of the four rows of the next tile stored. */
  ghost function Partial(c: Pv, u0: nat, e0: nat, r: nat): (nat, nat) -> nat {
    (a: nat, b: nat) =>
      (if a < u0 || (a < u0 + 4 && b < e0) || (a < u0 + r && b < e0 + 16) then c.nk else 0) as nat
  }

  /** A tile: sixteen vectors of accumulators held in registers over every key. */
  method Tile(c: Pv, acc: array<Float>, ghost was: seq<Float>, u0: nat, e0: nat)
    requires c.Valid(acc.Length) && u0 + 4 <= c.nq && e0 + 16 <= c.hd && e0 % 16 == 0
    requires At(c.Cells(was), was, acc[..], Progress(c, u0, e0))
    modifies acc
    ensures At(c.Cells(was), was, acc[..], Progress(c, u0, e0 + 16))
  {
    hide At, Pv.Valid, Pv.RowAt, Pv.KeyAt, Pv.WeightAt, Pv.Elem, Lanes;
    c.Shape(acc.Length);
    var p := LoadRow(c, acc, was, u0, u0, e0);
    var q := LoadRow(c, acc, was, u0, u0 + 1, e0);
    var t := LoadRow(c, acc, was, u0, u0 + 2, e0);
    var z := LoadRow(c, acc, was, u0, u0 + 3, e0);
    for j := 0 to c.nk
      modifies {}
      invariant At(c.Cells(was), was, acc[..], Progress(c, u0, e0))
      invariant p == Regs(c, was, u0, e0, j) && q == Regs(c, was, u0 + 1, e0, j)
      invariant t == Regs(c, was, u0 + 2, e0, j) && z == Regs(c, was, u0 + 3, e0, j)
    {
      c.InputsInside(acc.Length, u0, j);
      var x := c.v[c.KeyAt(j) + e0..c.KeyAt(j) + e0 + 16];
      KeyRun(c, j, e0, x);
      p := OneKey(c, was, u0, e0, j, p, x, acc.Length);
      q := OneKey(c, was, u0 + 1, e0, j, q, x, acc.Length);
      t := OneKey(c, was, u0 + 2, e0, j, t, x, acc.Length);
      z := OneKey(c, was, u0 + 3, e0, j, z, x, acc.Length);
    }
    Recount(c.Cells(was), was, acc[..], Progress(c, u0, e0), Partial(c, u0, e0, 0));
    StoreRow(c, acc, was, u0, e0, 0, p);
    StoreRow(c, acc, was, u0, e0, 1, q);
    StoreRow(c, acc, was, u0, e0, 2, t);
    StoreRow(c, acc, was, u0, e0, 3, z);
    Recount(c.Cells(was), was, acc[..], Partial(c, u0, e0, 4), Progress(c, u0, e0 + 16));
  }

  function OneKey(c: Pv, ghost was: seq<Float>, u: nat, e0: nat, j: nat, regs: seq<Float>, x: seq<Float>, n: nat): (r: seq<Float>)
    requires c.Valid(n) && u < c.nq && j < c.nk && e0 + 16 <= c.hd && e0 % 16 == 0 && |x| == 16
    requires forall i :: 0 <= i < 16 ==> x[i] == c.V(j, e0 + i)
    requires regs == Regs(c, was, u, e0, j)
    ensures r == Regs(c, was, u, e0, j + 1)
  {
    c.InputsInside(n, u, j);
    FmaIsStep(c, was, u, e0, j, x);
    Lanes(c.o, regs, x, c.s[c.WeightAt(u, j)])
  }

  method LoadRow(c: Pv, acc: array<Float>, ghost was: seq<Float>, ghost u0: nat, u: nat, e0: nat) returns (r: seq<Float>)
    requires c.Valid(acc.Length) && u0 <= u < u0 + 4 && u < c.nq && e0 + 16 <= c.hd
    requires At(c.Cells(was), was, acc[..], Progress(c, u0, e0))
    ensures r == Regs(c, was, u, e0, 0)
  {
    hide At, Pv.Valid, Pv.RowAt, Pv.KeyAt, Pv.WeightAt, Pv.Elem;
    c.RowInside(acc.Length, u);
    r := acc[c.RowAt(u) + e0..c.RowAt(u) + e0 + 16];
    assert r == acc[..][c.RowAt(u) + e0..c.RowAt(u) + e0 + |r|];
    c.Channels(was, acc[..], Progress(c, u0, e0), u, e0, r);
  }

  method StoreRow(c: Pv, acc: array<Float>, ghost was: seq<Float>, u0: nat, e0: nat, k: nat, regs: seq<Float>)
    requires c.Valid(acc.Length) && k < 4 && u0 + 4 <= c.nq && e0 + 16 <= c.hd
    requires At(c.Cells(was), was, acc[..], Partial(c, u0, e0, k)) && regs == Regs(c, was, u0 + k, e0, c.nk)
    modifies acc
    ensures At(c.Cells(was), was, acc[..], Partial(c, u0, e0, k + 1))
  {
    hide At, Stored, Pv.Valid, Pv.RowAt, Pv.KeyAt, Pv.WeightAt, Pv.Elem;
    c.RowInside(acc.Length, u0 + k);
    ghost var before := acc[..];
    Store(acc, c.RowAt(u0 + k) + e0, regs);
    c.StoreChannels(was, before, acc[..], Partial(c, u0, e0, k), Partial(c, u0, e0, k + 1), u0 + k, e0, regs);
  }

  /** charsiu_pv_f32: tiles, the channels left over, the queries left over; the same
      operations in the same order, for every channel, as one axpy a pair. */
  method PvBlocked(c: Pv, acc: array<Float>)
    requires c.Valid(acc.Length)
    modifies acc
    ensures At(c.Cells(old(acc[..])), old(acc[..]), acc[..], (u, e) => c.nk)
  {
    hide At, Pv.Valid, Pv.RowAt, Pv.KeyAt, Pv.WeightAt, Pv.Elem;
    c.Shape(acc.Length);
    ghost var was := acc[..];
    c.Begin(was);
    var u0 := 0;
    Recount(c.Cells(was), was, acc[..], (u: nat, e: nat) => 0, Progress(c, 0, 0));
    while u0 + 4 <= c.nq
      invariant u0 <= c.nq && u0 % 4 == 0 && At(c.Cells(was), was, acc[..], Progress(c, u0, 0))
    {
      var e0 := 0;
      while e0 + 16 <= c.hd
        invariant e0 <= c.hd && e0 % 16 == 0 && At(c.Cells(was), was, acc[..], Progress(c, u0, e0))
      {
        Tile(c, acc, was, u0, e0);
        e0 := e0 + 16;
      }
      TailChannels(c, acc, was, u0, e0);
      u0 := u0 + 4;
    }
    Recount(c.Cells(was), was, acc[..], Progress(c, u0, 0), RowCount(c, u0, 0));
    TailQueries(c, acc, was, u0);
  }

  ghost function TailCount(c: Pv, u0: nat, e0: nat, j: nat, u: nat): (nat, nat) -> nat {
    (a: nat, b: nat) => (if a < u0 || (a < u0 + 4 && b < e0) then c.nk
                         else if a < u then j + 1 else if a < u0 + 4 then j else 0) as nat
  }

  /** The channels past the last sixteen, of four queries, one axpy a pair. */
  method TailChannels(c: Pv, acc: array<Float>, ghost was: seq<Float>, u0: nat, e0: nat)
    requires c.Valid(acc.Length) && u0 + 4 <= c.nq && e0 <= c.hd && e0 % 16 == 0
    requires At(c.Cells(was), was, acc[..], Progress(c, u0, e0))
    modifies acc
    ensures At(c.Cells(was), was, acc[..], Progress(c, u0 + 4, 0))
  {
    hide At, Pv.RowAt, Pv.KeyAt, Pv.WeightAt, Pv.Elem, Inside;
    if e0 < c.hd {
      Recount(c.Cells(was), was, acc[..], Progress(c, u0, e0), TailCount(c, u0, e0, 0, u0));
      for j := 0 to c.nk
        invariant At(c.Cells(was), was, acc[..], TailCount(c, u0, e0, j, u0))
      {
        for u := u0 to u0 + 4
          invariant At(c.Cells(was), was, acc[..], TailCount(c, u0, e0, j, u))
        {
          OnePair(c, acc, was, u, j, e0, TailCount(c, u0, e0, j, u), TailCount(c, u0, e0, j, u + 1));
        }
        Recount(c.Cells(was), was, acc[..], TailCount(c, u0, e0, j, u0 + 4), TailCount(c, u0, e0, j + 1, u0));
      }
      Recount(c.Cells(was), was, acc[..], TailCount(c, u0, e0, c.nk, u0), Progress(c, u0 + 4, 0));
    } else {
      Recount(c.Cells(was), was, acc[..], Progress(c, u0, e0), Progress(c, u0 + 4, 0));
    }
  }

  ghost function RowCount(c: Pv, u: nat, j: nat): (nat, nat) -> nat {
    (a: nat, b: nat) => (if a < u then c.nk else if a == u then j else 0) as nat
  }

  /** The queries past the last four. */
  method TailQueries(c: Pv, acc: array<Float>, ghost was: seq<Float>, u0: nat)
    requires c.Valid(acc.Length) && u0 <= c.nq
    requires At(c.Cells(was), was, acc[..], RowCount(c, u0, 0))
    modifies acc
    ensures At(c.Cells(was), was, acc[..], (u, e) => c.nk)
  {
    hide At, Pv.RowAt, Pv.KeyAt, Pv.WeightAt, Pv.Elem, Inside;
    for u := u0 to c.nq
      invariant At(c.Cells(was), was, acc[..], RowCount(c, u, 0))
    {
      for j := 0 to c.nk
        invariant At(c.Cells(was), was, acc[..], RowCount(c, u, j))
      {
        OnePair(c, acc, was, u, j, 0, RowCount(c, u, j), RowCount(c, u, j + 1));
      }
      Recount(c.Cells(was), was, acc[..], RowCount(c, u, c.nk), RowCount(c, u + 1, 0));
    }
    Recount(c.Cells(was), was, acc[..], RowCount(c, c.nq, 0), (u, e) => c.nk);
  }

  // ---- the reference, in plain terms ----

  /** One channel after several keys: x the keys' values of it and w their weights, in order. A
      channel in the whole eights of hd is fused; one in the tail rounds twice. */
  function Channel(o: Ops, hd: nat, e: nat, y: Float, x: seq<Float>, w: seq<Float>): Float
    requires |x| == |w|
  {
    if x == [] then y
    else
      var n := |x| - 1;
      var before := Channel(o, hd, e, y, x[..n], w[..n]);
      if e < hd / 8 * 8 then o.fma(before, x[n], w[n]) else o.add(before, o.mul(w[n], x[n]))
  }

  /** A run of the rows of an array, at a stride. */
  function ColumnOf(v: seq<Float>, n: nat, stride: nat, e: nat): (c: seq<Float>)
    requires n > 0 ==> 0 <= (n - 1) * stride + e < |v|
    ensures |c| == n
  {
    seq(n, j requires 0 <= j < n => (RowStart(n, stride, e, |v|, j); v[j * stride + e]))
  }

  lemma RowStart(n: nat, stride: nat, e: nat, len: nat, j: nat)
    requires j < n && (n - 1) * stride + e < len
    ensures 0 <= j * stride + e < len
  {
    MulLe(stride, j, n - 1);
  }

  /** What either kernel leaves: each accumulator after all its keys, and every other cell as it
      was. */
  lemma AccumulatorIs(c: Pv, was: seq<Float>, now: seq<Float>, u: nat, e: nat)
    requires c.Valid(|was|) && At(c.Cells(was), was, now, (u, e) => c.nk) && u < c.nq && e < c.hd
    ensures |now| == |was| && 0 <= u * c.astride + e < |was|
    ensures c.nk > 0 ==> 0 <= (c.nk - 1) * c.vstride + e < |c.v| && u * c.sstride + c.nk <= |c.s|
    ensures now[u * c.astride + e] ==
            if c.nk == 0 then was[u * c.astride + e]
            else Channel(c.o, c.hd, e, was[u * c.astride + e], ColumnOf(c.v, c.nk, c.vstride, e),
                         c.s[u * c.sstride..u * c.sstride + c.nk])
  {
    hide Channel, Pv.Elem, At, Pv.Cells, ColumnOf;
    CellHolds(c, was, now, u, e);
    ElemStarts(c, was, u, e);
    if c.nk > 0 {
      RowEnds(c.nq, c.sstride, |c.s|, u, c.nk);
      ChannelIs(c, was, u, e, c.nk);
      var x, w := ColumnOf(c.v, c.nk, c.vstride, e), c.s[u * c.sstride..u * c.sstride + c.nk];
      assert x[..c.nk] == x && w[..c.nk] == w;
    }
  }

  lemma CellHolds(c: Pv, was: seq<Float>, now: seq<Float>, u: nat, e: nat)
    requires c.Valid(|was|) && At(c.Cells(was), was, now, (u, e) => c.nk) && u < c.nq && e < c.hd
    ensures |now| == |was| && 0 <= u * c.astride + e < |was|
    ensures now[u * c.astride + e] == c.Elem(was, u, e, c.nk)
  {
    hide Pv.Elem;
    c.RowInside(|was|, u);
    DivMod(c.astride, u, e);
    assert c.Cells(was).Covers(u * c.astride + e);
  }

  lemma ElemStarts(c: Pv, was: seq<Float>, u: nat, e: nat)
    ensures c.Elem(was, u, e, 0) == c.o.Get(was, u * c.astride + e)
  {
  }

  lemma {:induction false} ChannelIs(c: Pv, was: seq<Float>, u: nat, e: nat, k: nat)
    requires c.Valid(|was|) && u < c.nq && e < c.hd && 0 < c.nk && k <= c.nk
    requires u * c.sstride + c.nk <= |c.s| && (c.nk - 1) * c.vstride + e < |c.v| && 0 <= u * c.astride + e < |was|
    ensures c.Elem(was, u, e, k) == Channel(c.o, c.hd, e, was[u * c.astride + e], ColumnOf(c.v, c.nk, c.vstride, e)[..k],
                                            c.s[u * c.sstride..u * c.sstride + c.nk][..k])
  {
    var x, w := ColumnOf(c.v, c.nk, c.vstride, e), c.s[u * c.sstride..u * c.sstride + c.nk];
    if k > 0 {
      ChannelIs(c, was, u, e, k - 1);
      assert x[..k][..k - 1] == x[..k - 1] && w[..k][..k - 1] == w[..k - 1];
      RowStart(c.nk, c.vstride, e, |c.v|, k - 1);
      assert x[k - 1] == c.V(k - 1, e) && w[k - 1] == c.W(u, k - 1);
      assert c.hd - c.hd % 8 == c.hd / 8 * 8;
    }
  }

  lemma OthersKept(c: Pv, was: seq<Float>, now: seq<Float>, p: nat)
    requires c.Valid(|was|) && At(c.Cells(was), was, now, (u, e) => c.nk) && p < |was|
    requires p / c.astride >= c.nq || p % c.astride >= c.hd
    ensures now[p] == was[p]
  {
  }

  /** The two leave the same bits: every cell is what the same operations in the same order
      make of it, and nothing else is touched. */
  lemma SameBits(c: Pv, was: seq<Float>, plain: seq<Float>, blocked: seq<Float>)
    requires c.hd <= c.astride && 0 < c.astride
    requires At(c.Cells(was), was, plain, (u, e) => c.nk) && At(c.Cells(was), was, blocked, (u, e) => c.nk)
    ensures plain == blocked
  {
    forall p | 0 <= p < |was| ensures plain[p] == blocked[p] {
      assert c.Cells(was).Covers(p) || !c.Cells(was).Covers(p);
    }
  }
}
