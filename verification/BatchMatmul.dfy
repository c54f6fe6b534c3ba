/**
 M activations against one weight: the batched kernel that reads each weight row once, and
 the split into batches of sixteen, against one matrix-vector product an activation.
 */
module BatchMatmul {
  import opened IndexArith
  import opened Floats

  const BATCH_MAX := 16

  datatype Kind = F32 | F16 | BF16 | Q8_0 | Q4_0 | Q4_1 | Q6_K | Other

  predicate Quantised(quantised: seq<bool>, j: nat) { j < |quantised| && quantised[j] }

  /** Activation j of m is not quantised, and its batch starts with one that is. */
  predicate BatchMixed(kind: Kind, quantised: seq<bool>, m: nat, j: nat)
    requires j < m
  {
    var s := j / BATCH_MAX * BATCH_MAX;
    (kind == Q8_0 || kind == Q4_0) && Min(BATCH_MAX, m - s) > 1 && Quantised(quantised, s) && !Quantised(quantised, j)
  }

  /** A weight and the activations it meets. `scale` and `actScale` are the scales of a
      block, `idot` the integer product of a weight block with an activation's; the kernels
      with no batched form are `single`. */
  datatype Product = Product(o: Ops, kind: Kind, blocks: nat, quantised: seq<bool>,
                             scale: (nat, nat) -> Float, actScale: (nat, nat) -> Float, idot: (nat, nat, nat) -> int,
                             single: (Kind, bool, nat, nat) -> Float)
  {
    predicate Batched() { kind == Q8_0 || kind == Q4_0 }

    function Term(row: nat, i: nat, j: nat): Float {
      o.mul(o.mul(scale(row, i), actScale(j, i)), o.ofInt(idot(row, i, j)))
    }

    /** The quantised dot product of a row with activation j, n blocks in. */
    function DotQ(row: nat, j: nat, n: nat): Float {
      if n == 0 then o.zero else o.add(DotQ(row, j, n - 1), Term(row, n - 1, j))
    }

    /** One output, by the kernel chosen for a quantised activation or for a float one. */
    function Elem(row: nat, j: nat, q: bool): Float {
      if q && Batched() then DotQ(row, j, blocks) else single(kind, q, row, j)
    }

    function Q(j: nat): bool { Quantised(quantised, j) }

    /** What gguf_matvec makes of activation j. */
    function Own(row: nat, j: nat): Float { Elem(row, j, Q(j)) }

    /** The batch of activation j when m start at j0: where it begins and how many it has. */
    function BatchStart(j0: nat, j: nat): nat
      requires j0 <= j
    {
      j0 + (j - j0) / BATCH_MAX * BATCH_MAX
    }

    /** Does a batch of m from j0 go through the batched kernel? Only its first activation
        is asked whether it is quantised. */
    predicate TakesBatched(j0: nat, m: nat) { m > 1 && Q(j0) && Batched() }

    /** The kernel activation j of m from j0 meets. */
    predicate Used(j0: nat, m: nat, j: nat)
      requires j0 <= j < j0 + m
    {
      var s := BatchStart(j0, j);
      TakesBatched(s, Min(BATCH_MAX, j0 + m - s)) || Q(j)
    }

    predicate Mixed(m: nat, j: nat)
      requires j < m
    {
      BatchMixed(kind, quantised, m, j)
    }

    /** What the product of m activations makes of activation j. */
    function Made(m: nat, row: nat, j: nat): Float
      requires j < m
    {
      Elem(row, j, Used(0, m, j))
    }

    /** The product is one gguf_matvec an activation. */
    ghost predicate IsMatvecs(m: nat, nrows: nat) {
      forall j: nat, r: nat :: j < m && r < nrows ==> Made(m, r, j) == Own(r, j)
    }

    /** An activation that meets the wrong kernel gets another kernel's output: the product is
        one gguf_matvec an activation exactly when the two agree wherever a batch is mixed. */
    lemma MatvecsExactly(m: nat, nrows: nat)
      ensures IsMatvecs(m, nrows) <==>
              forall j: nat, r: nat :: j < m && r < nrows && Mixed(m, j) ==> DotQ(r, j, blocks) == single(kind, false, r, j)
    {
      hide Product.DotQ, Product.Made, Product.Own, Product.Mixed;
      forall j: nat, r: nat | j < m && r < nrows
        ensures Made(m, r, j) == Own(r, j) <==> (Mixed(m, j) ==> DotQ(r, j, blocks) == single(kind, false, r, j))
      {
        MadeIsOwn(m, r, j);
      }
    }

    lemma MadeOf(m: nat, row: nat, j: nat)
      requires j < m
      ensures Made(m, row, j) == Elem(row, j, Used(0, m, j))
    {
    }

    lemma MadeIsOwn(m: nat, row: nat, j: nat)
      requires j < m
      ensures Made(m, row, j) == Own(row, j) <==> (Mixed(m, j) ==> DotQ(row, j, blocks) == single(kind, false, row, j))
    {
    }
  }

  // ---- the grid of outputs: activation j's row r at j * ystride + r ----

  datatype Out = Out(p: Product, ystride: nat, all: nat, row0: nat, nrows: nat, used: nat -> bool)
  {
    predicate Valid(n: nat) {
      && row0 + nrows <= ystride && 0 < ystride
      && Inside(Floats.Grid(ystride, all, row0 + nrows, (a, b, k) => p.o.zero), n)
    }

    function RowAt(j: nat): nat { j * ystride }

    /** Activation j's row r, in an array of outputs. */
    function Output(now: seq<Float>, j: nat, r: nat): Float { p.o.Get(now, RowAt(j) + r) }

    /** The rows asked for, of every activation. */
    predicate Asked(j: nat, r: nat) { j < all && row0 <= r < row0 + nrows }

    ghost function Cells(was: seq<Float>): (g: Floats.Grid)
      ensures g.stride == ystride && g.rows == all && g.cols == row0 + nrows
      ensures forall j: nat, r: nat, k: nat ::
                g.spec(j, r, k) == if k == 0 then p.o.Get(was, RowAt(j) + r) else p.Elem(r, j, used(j))
    {
      Floats.Grid(ystride, all, row0 + nrows,
                  (j: nat, r: nat, k: nat) => if k == 0 then p.o.Get(was, RowAt(j) + r) else p.Elem(r, j, used(j)))
    }

    lemma Begin(was: seq<Float>)
      requires Valid(|was|)
      ensures At(Cells(was), was, was, (a: nat, b: nat) => 0)
    {
      var g := Cells(was);
      forall q | 0 <= q < |was| && g.Covers(q) ensures g.spec(g.Row(q), g.Col(q), 0) == was[q] {
        Where(g, g.Row(q), 0, g.cols, q);
      }
    }

    lemma Shape(n: nat)
      requires Valid(n)
      ensures row0 + nrows <= ystride && 0 < ystride
    {
    }

    lemma RowInside(n: nat, j: nat)
      requires Valid(n) && j < all && 0 < row0 + nrows
      ensures RowAt(j) + row0 + nrows <= n
    {
      RunInside(Floats.Grid(ystride, all, row0 + nrows, (a, b, k) => p.o.zero), n, j, row0 + nrows);
    }

    lemma CellIs(was: seq<Float>, now: seq<Float>, cnt: (nat, nat) -> nat, j: nat, r: nat, q: nat)
      requires 0 < ystride && row0 + nrows <= ystride && At(Cells(was), was, now, cnt)
      requires j < all && r < row0 + nrows && q == RowAt(j) + r < |now| && cnt(j, r) == 1
      ensures now[q] == p.Elem(r, j, used(j))
    {
      DivMod(ystride, j, r);
    }

    lemma StoreRows(was: seq<Float>, before: seq<Float>, after: seq<Float>,
                    cnt: (nat, nat) -> nat, cnt': (nat, nat) -> nat, j: nat, r: nat, vals: seq<Float>)
      requires 0 < ystride && row0 + nrows <= ystride && At(Cells(was), was, before, cnt) && j < all
      requires r + |vals| <= row0 + nrows && Stored(before, after, RowAt(j) + r, vals)
      requires Raised(Cells(was), cnt, cnt', j, r, r + |vals|)
      requires forall t :: 0 <= t < |vals| ==> cnt'(j, r + t) == 1 && vals[t] == p.Elem(r + t, j, used(j))
      ensures At(Cells(was), was, after, cnt')
    {
      StoreRun(Cells(was), was, before, after, cnt, cnt', j, RowAt(j), r, vals);
    }

    /** All the outputs of the activations from first up to j. */
    ghost function Upto(first: nat, j: nat): (nat, nat) -> nat {
      (a: nat, b: nat) => (if first <= a < j && row0 <= b then 1 else 0) as nat
    }

    /** And of m more the rows up to r, and row r itself for those before jj. */
    ghost function Rows(first: nat, j0: nat, m: nat, r: nat, jj: nat): (nat, nat) -> nat {
      (a: nat, b: nat) => (if (first <= a < j0 && row0 <= b) || (j0 <= a < j0 + m && row0 <= b < r) || (j0 <= a < jj && b == r)
                           then 1 else 0) as nat
    }
  }

  // ---- the kernels ----

  method Dotq(p: Product, row: nat, j: nat) returns (s: Float)
    ensures s == p.DotQ(row, j, p.blocks)
  {
    s := p.o.zero;
    for i := 0 to p.blocks
      invariant s == p.DotQ(row, j, i)
    {
      s := p.o.add(s, p.o.mul(p.o.mul(p.scale(row, i), p.actScale(j, i)), p.o.ofInt(p.idot(row, i, j))));
    }
  }

  /** gguf_matvec for activation j. */
  method Matvec(c: Out, y: array<Float>, ghost was: seq<Float>, ghost first: nat, j: nat)
    requires c.Valid(y.Length) && first <= j < c.all && c.used(j) == c.p.Q(j)
    requires At(c.Cells(was), was, y[..], c.Upto(first, j))
    modifies y
    ensures At(c.Cells(was), was, y[..], c.Upto(first, j + 1))
  {
    hide At, Out.Valid, Out.RowAt;
    c.Shape(y.Length);
    Recount(c.Cells(was), was, y[..], c.Upto(first, j), c.Rows(first, j, 1, c.row0, j));
    for r := c.row0 to c.row0 + c.nrows
      invariant At(c.Cells(was), was, y[..], c.Rows(first, j, 1, r, j))
    {
      var x;
      if c.p.Q(j) && c.p.Batched() {
        x := Dotq(c.p, r, j);
      } else {
        x := c.p.single(c.p.kind, c.p.Q(j), r, j);
      }
      Put(c, y, was, j, r, x, c.Rows(first, j, 1, r, j), c.Rows(first, j, 1, r + 1, j));
    }
    Recount(c.Cells(was), was, y[..], c.Rows(first, j, 1, c.row0 + c.nrows, j), c.Upto(first, j + 1));
  }

  method Put(c: Out, y: array<Float>, ghost was: seq<Float>, j: nat, r: nat, x: Float,
             ghost cnt: (nat, nat) -> nat, ghost cnt': (nat, nat) -> nat)
    requires c.Valid(y.Length) && j < c.all && r < c.row0 + c.nrows && x == c.p.Elem(r, j, c.used(j))
    requires At(c.Cells(was), was, y[..], cnt) && cnt'(j, r) == 1 && Raised(c.Cells(was), cnt, cnt', j, r, r + 1)
    modifies y
    ensures At(c.Cells(was), was, y[..], cnt')
  {
    hide At, Raised, Out.Valid, Out.RowAt, Product.Elem;
    c.Shape(y.Length);
    c.RowInside(y.Length, j);
    ghost var before := y[..];
    y[c.RowAt(j) + r] := x;
    assert Stored(before, y[..], c.RowAt(j) + r, [x]);
    c.StoreRows(was, before, y[..], cnt, cnt', j, r, [x]);
  }

  /** One weight row against m activations at once: block by block, every sum one step. */
  method DotqM(c: Out, y: array<Float>, ghost was: seq<Float>, ghost first: nat, row: nat, j0: nat, m: nat)
    requires c.Valid(y.Length) && first <= j0 && j0 + m <= c.all && m <= BATCH_MAX && c.row0 <= row < c.row0 + c.nrows
    requires c.p.Batched() && (forall j :: j0 <= j < j0 + m ==> c.used(j))
    requires At(c.Cells(was), was, y[..], c.Rows(first, j0, m, row, j0))
    modifies y
    ensures At(c.Cells(was), was, y[..], c.Rows(first, j0, m, row + 1, j0))
  {
    hide At, Out.Valid, Out.RowAt, Product.Term;
    c.Shape(y.Length);
    var s := new Float[BATCH_MAX];
    SumsOf(c.p, row, j0, m, s);
    for j := j0 to j0 + m
      modifies y
      invariant At(c.Cells(was), was, y[..], c.Rows(first, j0, m, row, j))
    {
      Put(c, y, was, j, row, s[j - j0], c.Rows(first, j0, m, row, j), c.Rows(first, j0, m, row, j + 1));
    }
    Recount(c.Cells(was), was, y[..], c.Rows(first, j0, m, row, j0 + m), c.Rows(first, j0, m, row + 1, j0));
  }

  method SumsOf(p: Product, row: nat, j0: nat, m: nat, s: array<Float>)
    requires m <= s.Length
    modifies s
    ensures forall j :: 0 <= j < m ==> s[j] == p.DotQ(row, j0 + j, p.blocks)
  {
    hide Product.Term;
    for j := 0 to m
      invariant forall k :: 0 <= k < j ==> s[k] == p.o.zero
    {
      s[j] := p.o.zero;
    }
    for i := 0 to p.blocks
      invariant forall j :: 0 <= j < m ==> s[j] == p.DotQ(row, j0 + j, i)
    {
      var d := p.scale(row, i);
      for j := 0 to m
        invariant forall k :: 0 <= k < m ==> s[k] == p.DotQ(row, j0 + k, if k < j then i + 1 else i)
      {
        TermIs(p, row, i, j0 + j);
        s[j] := p.o.add(s[j], p.o.mul(p.o.mul(d, p.actScale(j0 + j, i)), p.o.ofInt(p.idot(row, i, j0 + j))));
      }
    }
  }

  lemma TermIs(p: Product, row: nat, i: nat, j: nat)
    ensures p.Term(row, i, j) == p.o.mul(p.o.mul(p.scale(row, i), p.actScale(j, i)), p.o.ofInt(p.idot(row, i, j)))
  {
  }

  /** gguf_matmul: batches of at most sixteen, each by the batched kernel or one activation
      at a time. */
  method Matmul(c: Out, y: array<Float>, ghost was: seq<Float>, ghost first: nat, j0: nat, m: nat)
    requires c.Valid(y.Length) && first <= j0 && j0 + m <= c.all
    requires forall j :: j0 <= j < j0 + m ==> c.used(j) == c.p.Used(j0, m, j)
    requires At(c.Cells(was), was, y[..], c.Upto(first, j0))
    modifies y
    ensures At(c.Cells(was), was, y[..], c.Upto(first, j0 + m))
    decreases m
  {
    hide At, Out.Valid, Out.RowAt, Product.Elem, Product.DotQ;
    c.Shape(y.Length);
    if m > BATCH_MAX {
      var done := 0;
      while done < m
        invariant done <= m && (done < m ==> done % BATCH_MAX == 0)
        invariant At(c.Cells(was), was, y[..], c.Upto(first, j0 + done))
        decreases m - done
      {
        var n := if m - done < BATCH_MAX then m - done else BATCH_MAX;
        BatchOf(c.p, j0, m, done, n);
        Matmul(c, y, was, first, j0 + done, n);
        done := done + n;
      }
      return;
    }
    OneBatch(c.p, j0, m);
    if m == 1 {
      Matvec(c, y, was, first, j0);
    } else if m > 1 && c.p.Q(j0) && c.p.Batched() {
      Recount(c.Cells(was), was, y[..], c.Upto(first, j0), c.Rows(first, j0, m, c.row0, j0));
      for r := c.row0 to c.row0 + c.nrows
        invariant At(c.Cells(was), was, y[..], c.Rows(first, j0, m, r, j0))
      {
        DotqM(c, y, was, first, r, j0, m);
      }
      Recount(c.Cells(was), was, y[..], c.Rows(first, j0, m, c.row0 + c.nrows, j0), c.Upto(first, j0 + m));
    } else {
      for j := j0 to j0 + m
        invariant At(c.Cells(was), was, y[..], c.Upto(first, j))
      {
        Matvec(c, y, was, first, j);
      }
    }
  }

  /** Up to sixteen are one batch. */
  lemma OneBatch(p: Product, j0: nat, m: nat)
    requires m <= BATCH_MAX
    ensures forall j :: j0 <= j < j0 + m ==> p.Used(j0, m, j) == (p.TakesBatched(j0, m) || p.Q(j))
  {
  }

  /** A batch of a longer run, taken by itself. */
  lemma BatchOf(p: Product, j0: nat, m: nat, done: nat, n: nat)
    requires done < m && done % BATCH_MAX == 0 && n == Min(BATCH_MAX, m - done)
    ensures forall j :: j0 + done <= j < j0 + done + n ==> p.Used(j0, m, j) == p.Used(j0 + done, n, j)
  {
    forall j | j0 + done <= j < j0 + done + n ensures p.Used(j0, m, j) == p.Used(j0 + done, n, j) {
      assert p.BatchStart(j0, j) == j0 + done;
    }
  }

  /** For all weights and operations, exactly when no batch that starts with a quantised
      activation has one that is not. */
  lemma KernelsAgree(kind: Kind, quantised: seq<bool>, m: nat, nrows: nat, a: Float, b: Float)
    requires a != b && nrows > 0
    ensures (forall p: Product :: p.kind == kind && p.quantised == quantised ==> p.IsMatvecs(m, nrows)) <==>
            (forall j: nat :: j < m ==> !BatchMixed(kind, quantised, m, j))
  {
    hide Product.IsMatvecs, BatchMixed, Apart;
    forall j: nat | j < m && BatchMixed(kind, quantised, m, j)
      ensures exists q: Product :: q.kind == kind && q.quantised == quantised && !q.IsMatvecs(m, nrows)
    {
      ApartDiffers(kind, quantised, m, nrows, j, a, b);
      assert !Apart(kind, quantised, 1, a, b).IsMatvecs(m, nrows);
    }
    forall p: Product | p.kind == kind && p.quantised == quantised && forall j: nat :: j < m ==> !BatchMixed(kind, quantised, m, j)
      ensures p.IsMatvecs(m, nrows)
    {
      p.MatvecsExactly(m, nrows);
    }
  }

  /** Weights whose quantised dot products come out as one float and whose others as another. */
  function Apart(kind: Kind, quantised: seq<bool>, blocks: nat, a: Float, b: Float): (p: Product)
    ensures p.kind == kind && p.quantised == quantised
  {
    Product(Ops(b, (x, y) => a, (x, y) => x, (x, y, z) => x, (w, x, y, z) => w, i => b), kind, blocks, quantised,
            (r, i) => b, (j, i) => b, (r, i, j) => 0, (k, q, r, j) => b)
  }

  lemma ApartDiffers(kind: Kind, quantised: seq<bool>, m: nat, nrows: nat, j: nat, a: Float, b: Float)
    requires a != b && nrows > 0 && j < m && BatchMixed(kind, quantised, m, j)
    ensures !Apart(kind, quantised, 1, a, b).IsMatvecs(m, nrows)
  {
    hide Product.IsMatvecs, BatchMixed;
    var q := Apart(kind, quantised, 1, a, b);
    q.MatvecsExactly(m, nrows);
    assert q.Mixed(m, j) && q.DotQ(0, j, 1) == a;
    assert q.DotQ(0, j, q.blocks) != q.single(q.kind, false, 0, j);
  }

  /** The whole product, for any m: every output is what its activation's batch makes of it,
      and nothing else in y is touched; so it is one gguf_matvec an activation exactly when the
      two kernels agree wherever a batch is mixed. */
  method MatmulIsMatvecs(c: Out, y: array<Float>)
    requires 0 < c.ystride && c.row0 + c.nrows <= c.ystride
    requires c.Valid(y.Length) && forall j :: 0 <= j < c.all ==> c.used(j) == c.p.Used(0, c.all, j)
    modifies y
    ensures At(c.Cells(old(y[..])), old(y[..]), y[..], c.Upto(0, c.all))
    ensures forall j: nat, r: nat :: c.Asked(j, r) ==> c.RowAt(j) + r < y.Length && c.Output(y[..], j, r) == c.p.Made(c.all, r, j)
    ensures (forall j: nat, r: nat :: c.Asked(j, r) ==> c.Output(y[..], j, r) == c.p.Own(r, j)) <==>
            (forall j: nat, r: nat :: c.Asked(j, r) && c.p.Mixed(c.all, j) ==>
               c.p.DotQ(r, j, c.p.blocks) == c.p.single(c.p.kind, false, r, j))
  {
    hide At, Out.Valid, Out.RowAt, Product.DotQ, Product.Own, Product.Mixed, Product.Made;
    c.Shape(y.Length);
    ghost var was := y[..];
    c.Begin(was);
    Recount(c.Cells(was), was, y[..], (a: nat, b: nat) => 0, c.Upto(0, 0));
    Matmul(c, y, was, 0, 0, c.all);
    forall j: nat, r: nat | c.Asked(j, r)
      ensures c.RowAt(j) + r < y.Length && c.Output(y[..], j, r) == c.p.Made(c.all, r, j)
    {
      c.RowInside(y.Length, j);
      c.CellIs(was, y[..], c.Upto(0, c.all), j, r, c.RowAt(j) + r);
      c.p.MadeOf(c.all, r, j);
    }
    forall j: nat, r: nat | c.Asked(j, r)
      ensures c.Output(y[..], j, r) == c.p.Own(r, j) <==>
              (c.p.Mixed(c.all, j) ==> c.p.DotQ(r, j, c.p.blocks) == c.p.single(c.p.kind, false, r, j))
    {
      c.p.MadeIsOwn(c.all, r, j);
    }
  }

  /** What an output is, in plain terms: activation j of m is in batch j / 16; if that is of two
      or more, its first activation is quantised and the weight is Q8_0 or Q4_0, or if j itself
      is quantised, the output is the blocks' scaled products summed in order; else the single
      kernel's own. */
  lemma OutputIs(c: Out, now: seq<Float>, j: nat, r: nat)
    requires c.Asked(j, r) && j * c.ystride + r < |now| && c.Output(now, j, r) == c.p.Made(c.all, r, j)
    ensures var p, first := c.p, j / 16 * 16;
            var own := j < |p.quantised| && p.quantised[j];
            var batched := first + 1 < c.all && first < |p.quantised| && p.quantised[first] && (p.kind == Q8_0 || p.kind == Q4_0);
            now[j * c.ystride + r] ==
            if (batched || own) && (p.kind == Q8_0 || p.kind == Q4_0) then BlockSum(p, r, j, p.blocks)
            else p.single(p.kind, own, r, j)
  {
    hide Product.DotQ, BlockSum;
    SumIs(c.p, r, j, c.p.blocks);
  }

  function BlockSum(p: Product, row: nat, j: nat, n: nat): Float {
    if n == 0 then p.o.zero
    else p.o.add(BlockSum(p, row, j, n - 1),
                 p.o.mul(p.o.mul(p.scale(row, n - 1), p.actScale(j, n - 1)), p.o.ofInt(p.idot(row, n - 1, j))))
  }

  lemma {:induction false} SumIs(p: Product, row: nat, j: nat, n: nat)
    ensures p.DotQ(row, j, n) == BlockSum(p, row, j, n)
  {
    if n > 0 { SumIs(p, row, j, n - 1); }
  }

  /** Two activations against a Q8_0 row, the first quantised and the second not: the second
      is left with the quantised kernel's output, not its own. */
  method MixedBatch(a: Float, b: Float) returns (c: Out, y: array<Float>)
    requires a != b
    ensures c.p.kind == Q8_0 && c.p.quantised == [true, false] && c.all == 2 && fresh(y) && y.Length == 2
    ensures y[1] == c.p.DotQ(0, 1, c.p.blocks) == a != b == c.p.Own(0, 1)
  {
    var p := Apart(Q8_0, [true, false], 1, a, b);
    c := Out(p, 1, 2, 0, 1, j => true);
    y := new Float[2](_ => b);
    assert p.Used(0, 2, 0) && p.Used(0, 2, 1);
    MatmulIsMatvecs(c, y);
    assert c.Asked(1, 0) && c.Output(y[..], 1, 0) == y[1];
    assert y[1] == p.Made(2, 0, 1) == p.DotQ(0, 1, 1) == a;
  }
}
