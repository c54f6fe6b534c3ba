/** How a tensor's K is cut into slices, and the widest slice the prefill chunk is sized by. */
module KSlice {
  import opened IndexArith

  const ATOM := 32
  const SURFACE := 163840   // 5120 entries of 32

  /** A tensor's K, the widest dispatch, and the two switches: equal widths, and a last slice
      that absorbs the remainder. */
  datatype Cut = Cut(k: nat, kmax: nat, even: bool, kfit: bool)
  {
    predicate Valid() { k > 0 && kmax > 0 }

    /** How many slices: one fewer when the last absorbs a remainder. */
    function Count(): (ks: nat)
      requires Valid()
      ensures ks >= 1
    {
      var ks := CeilDiv(k, kmax);
      if kfit && ks > 1 && k % kmax != 0 then ks - 1 else ks
    }

    /** charsiu_even_k_base: the equal width, or 0 for the KMAX rule. */
    function Base(): nat
      requires Valid()
    {
      if !even || kfit || Count() < 2 then 0
      else
        var base := RoundUp(CeilDiv(k, Count()), ATOM);
        if base > kmax || (Count() - 1) * base >= k then 0 else base
    }

    function Width(): nat
      requires Valid()
    {
      if Base() != 0 then Base() else kmax
    }

    function K0(ki: nat): nat
      requires Valid()
    {
      ki * Width()
    }

    /** The last slice takes whatever is left. */
    function Kw(ki: nat): int
      requires Valid()
    {
      if ki + 1 == Count() then k - ki * Width() else Width()
    }

    /** widest_k_slice. */
    function Widest(): int
      requires Valid()
    {
      if Count() <= 1 then k
      else
        var last := k - (Count() - 1) * kmax;
        if last > kmax then last else kmax
    }

    /** Where the KMAX rule puts the start of the last slice: inside K, less than two widths
        from its end, and within one when nothing is absorbed. */
    lemma LastStart()
      requires Valid()
      ensures (Count() - 1) * kmax < k <= (Count() - 1) * kmax + 2 * kmax - 1
      ensures !kfit ==> k <= (Count() - 1) * kmax + kmax
      ensures Count() > 1 && kfit && k % kmax == 0 ==> k == (Count() - 1) * kmax + kmax
    {
      var ks := CeilDiv(k, kmax);
      assert (ks - 1) * kmax < k <= ks * kmax;
      assert ks * kmax == (ks - 1) * kmax + kmax;
      if Count() == ks - 1 {
        assert (ks - 2) * kmax == (ks - 1) * kmax - kmax;
        if k == ks * kmax {
          MulMod(ks, kmax);
          assert false;
        }
      } else if kfit && ks > 1 {
        MultipleOf(k, kmax);
        var q := k / kmax;
        if q < ks { MulLe(kmax, q, ks - 1); assert false; }
        if q > ks { MulMono(kmax, ks, q); assert false; }
      }
    }

    /** The last slice is not empty under either rule. */
    lemma LastIsLeft()
      requires Valid()
      ensures K0(Count() - 1) < k
    {
      LastStart();
    }

    /** The slices tile [0, k): each starts where the one before ended, none is empty, and the
        last ends at k. */
    lemma Tiles(ki: nat)
      requires Valid() && ki < Count()
      ensures Kw(ki) > 0 && (ki == 0 ==> K0(ki) == 0)
      ensures K0(ki) + Kw(ki) == if ki + 1 == Count() then k else K0(ki + 1)
    {
      LastIsLeft();
    }

    /** No slice is wider than the widest, nor, unless the last absorbs, than KMAX; absorbing
        stays under twice KMAX. */
    lemma WidestBounds(ki: nat)
      requires Valid() && ki < Count()
      ensures Kw(ki) <= Widest() <= 2 * kmax - 1
      ensures !kfit ==> Kw(ki) <= kmax
    {
      LastStart();
      if Base() != 0 {
        EvenLast();
      }
    }

    /** And some slice is that wide, when the widths were not evened. */
    lemma WidestIsReached() returns (ki: nat)
      requires Valid() && Base() == 0
      ensures ki < Count() && Kw(ki) == Widest()
    {
      LastStart();
      ki := if Widest() == kmax && Count() > 1 then 0 else Count() - 1;
    }

    /** Evened, every slice but the last is the same multiple of the feature atom, and the
        last is no wider. */
    lemma EvenLast()
      requires Valid() && Base() != 0
      ensures Base() % ATOM == 0 && Base() <= kmax && Kw(Count() - 1) <= Base()
      ensures forall ki :: 0 <= ki < Count() - 1 ==> Kw(ki) == Base()
    {
      var ks, each := Count(), CeilDiv(k, Count());
      MulLe(ks, each, Base());
      assert ks * Base() == (ks - 1) * Base() + Base();
      assert each * ks == ks * each;
    }
  }

  /** The equal width is the least multiple of 32 that covers K in that many slices; it is used
      when evening is asked for, nothing is absorbed, there are two slices or more, it is within
      KMAX, and the last slice is not left empty. */
  lemma EvenExactly(c: Cut, b: nat)
    requires c.Valid() && c.Count() >= 1
    requires b % 32 == 0 && c.Count() * b >= c.k && c.Count() * (b - 32) < c.k
    ensures c.Base() == if c.even && !c.kfit && c.Count() >= 2 && b <= c.kmax && (c.Count() - 1) * b < c.k then b else 0
  {
    var ks := c.Count();
    var q := CeilDiv(c.k, ks);
    CeilLeast(c.k, ks, b);
    CeilLeast(c.k, ks, b - 32);
    RoundLeast(q, b);
  }

  lemma CeilLeast(k: nat, ks: nat, b: int)
    requires k > 0 && ks > 0
    ensures b >= CeilDiv(k, ks) <==> ks * b >= k
  {
    var q := CeilDiv(k, ks);
    assert q * ks >= k > (q - 1) * ks;
    if b >= q { MulLe(ks, q, b); } else if b >= 0 { MulLe(ks, b, q - 1); } else { assert ks * b < 0; }
  }

  lemma RoundLeast(q: nat, b: nat)
    requires b % 32 == 0 && b - 32 < q <= b
    ensures RoundUp(q, ATOM) == b
  {
    var r := b / 32;
    assert b == 32 * r;
    assert (q + 31) / 32 == r;
  }

  /** As many slices as cover K at KMAX each, less one where the last may absorb a remainder. */
  lemma CountExactly(c: Cut, q: nat)
    requires c.Valid() && (q - 1) * c.kmax < c.k <= q * c.kmax
    ensures c.Count() == if c.kfit && q > 1 && c.k < q * c.kmax then q - 1 else q
  {
    CeilLeast(c.k, c.kmax, q);
    CeilLeast(c.k, c.kmax, q - 1);
    assert c.kmax * q == q * c.kmax && c.kmax * (q - 1) == (q - 1) * c.kmax;
    if c.k == q * c.kmax {
      MulMod(q, c.kmax);
    } else if c.k % c.kmax == 0 {
      MultipleOf(c.k, c.kmax);
      NoneBetween(c.kmax, c.k / c.kmax, q);
    }
  }

  lemma NoneBetween(a: nat, x: nat, q: nat)
    ensures !((q - 1) * a < x * a < q * a)
  {
    if x <= q - 1 { MulLe(a, x, q - 1); } else { MulLe(a, q, x); }
  }

  // ---- llama_prefill_chunk_cap ----

  /** Every K a prompt's matmuls reduce over: the embedding, the model's feed-forward width,
      and each layer's. */
  function Scanned(embd: nat, ff: nat, layers: seq<nat>): seq<nat> { [embd, ff] + layers }

  /** The widest slice of any of them, and some one's. */
  ghost predicate IsWidest(ks: seq<nat>, kmax: nat, kfit: bool, widest: nat) {
    && (forall j :: 0 <= j < |ks| ==> WidestOf(ks[j], kmax, kfit) <= widest)
    && exists j :: 0 <= j < |ks| && WidestOf(ks[j], kmax, kfit) == widest
  }

  /** widest_k_slice, which leaves an empty extent, or one with no KMAX, as it is. */
  function WidestOf(k: nat, kmax: nat, kfit: bool): (w: nat)
    ensures w == 0 <==> k == 0
  {
    if kmax == 0 || k == 0 then k else Cut(k, kmax, false, kfit).Widest()
  }

  /** Every slice of every one of them that has any, evened or not, keeps its dispatch's input
      surface under the ceiling for a chunk of so many rows. */
  ghost predicate AllFit(ks: seq<nat>, kmax: nat, kfit: bool, rows: nat)
    requires kmax > 0
  {
    forall j, even, ki: nat :: 0 <= j < |ks| && ks[j] > 0 && ki < Cut(ks[j], kmax, even, kfit).Count() ==>
      Cut(ks[j], kmax, even, kfit).Kw(ki) * rows <= SURFACE
  }

  /** The cap never makes a dispatch too large, unless one slice alone is past the ceiling at
      two rows and the floor lifts it. A model that scans nothing gets the default. */
  method ChunkCap(embd: nat, ff: nat, layers: seq<nat>, kmax: nat, kfit: bool) returns (cap: nat, ghost widest: nat)
    ensures IsWidest(Scanned(embd, ff, layers), kmax, kfit, widest)
    ensures cap == if widest == 0 then 80 else Max(2, SURFACE / widest)
    ensures widest == 0 <==> forall j :: 0 <= j < |Scanned(embd, ff, layers)| ==> Scanned(embd, ff, layers)[j] == 0
    ensures kmax > 0 && 2 * widest <= SURFACE ==> AllFit(Scanned(embd, ff, layers), kmax, kfit, cap)
  {
    hide Cut.Widest, Cut.Kw, Cut.Count, AllFit;
    var w := WidestOf(embd, kmax, kfit);
    var w1 := WidestOf(ff, kmax, kfit);
    if w1 > w { w := w1; }
    assert IsWidest([embd, ff], kmax, kfit, w) by {
      assert [embd, ff][0] == embd && [embd, ff][1] == ff;
    }
    assert [embd, ff] + layers[..0] == [embd, ff];
    for l := 0 to |layers|
      invariant IsWidest([embd, ff] + layers[..l], kmax, kfit, w)
    {
      var wl := WidestOf(layers[l], kmax, kfit);
      WidestNext([embd, ff] + layers[..l], kmax, kfit, w, layers[l]);
      assert [embd, ff] + layers[..l + 1] == [embd, ff] + layers[..l] + [layers[l]];
      if wl > w { w := wl; }
    }
    assert layers[..|layers|] == layers;
    widest := w;
    if kmax > 0 { CapFits(Scanned(embd, ff, layers), kmax, kfit, w); }
    if w == 0 { return 80, w; }
    cap := SURFACE / w;
    if cap < 2 { cap := 2; }
  }

  lemma WidestNext(ks: seq<nat>, kmax: nat, kfit: bool, w: nat, k: nat)
    requires IsWidest(ks, kmax, kfit, w)
    ensures IsWidest(ks + [k], kmax, kfit, Max(w, WidestOf(k, kmax, kfit)))
  {
    hide WidestOf;
    var all := ks + [k];
    var j :| 0 <= j < |ks| && WidestOf(ks[j], kmax, kfit) == w;
    assert all[j] == ks[j] && all[|ks|] == k;
  }

  lemma CapFits(ks: seq<nat>, kmax: nat, kfit: bool, widest: nat)
    requires kmax > 0 && IsWidest(ks, kmax, kfit, widest)
    ensures widest == 0 ==> AllFit(ks, kmax, kfit, 80)
    ensures 0 < 2 * widest <= SURFACE ==> AllFit(ks, kmax, kfit, Max(2, SURFACE / widest))
  {
    if 2 * widest <= SURFACE {
      var cap := if widest == 0 then 80 else Max(2, SURFACE / widest);
      forall j, even, ki: nat | 0 <= j < |ks| && ks[j] > 0 && ki < Cut(ks[j], kmax, even, kfit).Count()
        ensures Cut(ks[j], kmax, even, kfit).Kw(ki) * cap <= SURFACE
      {
        var c := Cut(ks[j], kmax, even, kfit);
        assert WidestOf(ks[j], kmax, kfit) <= widest;
        SliceWidth(c, ki, widest);
        SurfaceFits(c.Kw(ki), cap, widest);
      }
    }
  }

  lemma SliceWidth(c: Cut, ki: nat, widest: nat)
    requires c.Valid() && ki < c.Count() && WidestOf(c.k, c.kmax, c.kfit) <= widest
    ensures 0 < c.Kw(ki) <= widest
  {
    c.WidestBounds(ki);
    c.Tiles(ki);
  }

  lemma SurfaceFits(kw: nat, rows: nat, widest: nat)
    requires kw <= widest && 0 < widest && rows <= SURFACE / widest
    ensures kw * rows <= SURFACE
  {
    MulLe(rows, kw, widest);
    MulLe(widest, rows, SURFACE / widest);
  }
}
