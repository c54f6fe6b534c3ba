/**
 The group layout of an fp16 weight: sixteen output channels by thirty-two of K at a time,
 edges cut short. Where each element is, what growing an extent moves, and the surface of a
 V cache that grows in place.
 */
module GroupLayout {
  import opened IndexArith

  const NG := 16
  const KG := 32

  /** A weight's extents. */
  datatype Dims = Dims(k: nat, n: nat)
  {
    predicate Valid() { k > 0 && n > 0 }

    /** The extents as laid out: K in feature atoms, channels in pairs. */
    function Ke(): nat { RoundUp(k, 8) }

    function Np(): nat { RoundUp(n, 2) }

    /** Channels in the group of channel ni, and how much of K in the tile of ki. */
    function Channels(ni: nat): nat
      requires ni < Np()
    {
      if Np() - ni / NG * NG < NG then Np() - ni / NG * NG else NG
    }

    function Depth(ki: nat): nat
      requires ki < Ke()
    {
      if Ke() - ki / KG * KG < KG then Ke() - ki / KG * KG else KG
    }

    /** Where a group of channels starts. */
    function Base(ni: nat): int { ni / NG * (NG * Ke()) }

    /** Where an element is inside its group's block. */
    function Within(ni: nat, ki: nat): int
      requires ni < Np() && ki < Ke()
    {
      Inner(Channels(ni), ki / KG, Depth(ki), ni % NG, ki % KG)
    }

    /** w_group_index. */
    function Index(ni: nat, ki: nat): int
      requires ni < Np() && ki < Ke()
    {
      Base(ni) + Within(ni, ki)
    }

    // ---- one place for each element ----

    /** The tile of (ni, ki), and the element inside it. */
    lemma InTile(ni: nat, ki: nat)
      requires ni < Np() && ki < Ke()
      ensures Tile(Ke(), Channels(ni), ki / KG, Depth(ki), ni % NG, ki % KG)
      ensures ni == ni / NG * NG + ni % NG && ki == ki / KG * KG + ki % KG
      ensures ni / NG * NG + Channels(ni) <= Np()
    {
    }

    /** No two elements share a place. */
    lemma Injective(ni: nat, ki: nat, nj: nat, kj: nat)
      requires ni < Np() && ki < Ke() && nj < Np() && kj < Ke()
      ensures Index(ni, ki) == Index(nj, kj) ==> ni == nj && ki == kj
    {
      hide Dims.Ke, Dims.Np;
      if Index(ni, ki) == Index(nj, kj) {
        InTile(ni, ki);
        InTile(nj, kj);
        assert ni / NG == nj / NG ==> Channels(ni) == Channels(nj);
        assert ki / KG == kj / KG ==> Depth(ki) == Depth(kj);
        OnePlace(Ke(), ni / NG, Channels(ni), ki / KG, Depth(ki), ni % NG, ki % KG,
                 nj / NG, Channels(nj), kj / KG, Depth(kj), nj % NG, kj % KG);
      }
    }

    /** And every place is inside the weight. */
    lemma Inside(ni: nat, ki: nat)
      requires ni < Np() && ki < Ke()
      ensures 0 <= Within(ni, ki) < Channels(ni) * Ke() && 0 <= Index(ni, ki) < Np() * Ke()
    {
      hide Dims.Ke, Dims.Np, Inner;
      InTile(ni, ki);
      InBlock(Ke(), Channels(ni), ki / KG, Depth(ki), ni % NG, ki % KG);
      BlockInside(Ke(), Np(), ni / NG, Channels(ni), Within(ni, ki));
    }
  }

  // ---- the arithmetic of a tile ----

  /** Tile q of a block of c channels: depth of K, channel r, element x. */
  function Inner(c: nat, q: nat, depth: nat, r: nat, x: nat): int { q * (KG * c) + (r * depth + x) }

  predicate Tile(ke: nat, c: nat, q: nat, depth: nat, r: nat, x: nat) {
    r < c <= NG && x < depth <= KG && q * KG + depth <= ke
  }

  lemma InBlock(ke: nat, c: nat, q: nat, depth: nat, r: nat, x: nat)
    requires Tile(ke, c, q, depth, r, x)
    ensures 0 <= r * depth + x < c * depth <= KG * c
    ensures 0 <= Inner(c, q, depth, r, x) < c * ke <= NG * ke
  {
    RowInTile(c, depth, r, x);
    MulLe(c, q * KG + depth, ke);
    Tiles(c, q, depth);
    MulLe(ke, c, NG);
  }

  lemma RowInTile(c: nat, depth: nat, r: nat, x: nat)
    requires r < c <= NG && x < depth <= KG
    ensures 0 <= r * depth + x < c * depth <= KG * c
  {
    MulMono(depth, r, c);
    MulLe(c, depth, KG);
  }

  lemma Tiles(c: nat, q: nat, depth: nat)
    ensures c * (q * KG + depth) == q * (KG * c) + c * depth && 0 <= q * (KG * c)
  {
    Times(c, q);
    assert c * (q * KG + depth) == c * (q * KG) + c * depth;
  }

  lemma Times(c: nat, q: nat)
    ensures c * (q * KG) == q * (KG * c) && 0 <= q * (KG * c)
  {
    assert c * (q * KG) == (c * q) * KG;
    assert q * (KG * c) == (q * c) * KG;
  }

  lemma BlockInside(ke: nat, np: nat, g: nat, c: nat, within: int)
    requires 0 <= within < c * ke && g * NG + c <= np
    ensures 0 <= g * (NG * ke) + within < np * ke
  {
    MulLe(ke, g * NG + c, np);
    assert (g * NG + c) * ke == g * (NG * ke) + c * ke;
  }

  lemma OnePlace(ke: nat, g: nat, c: nat, q: nat, depth: nat, r: nat, x: nat,
                 g': nat, c': nat, q': nat, depth': nat, r': nat, x': nat)
    requires Tile(ke, c, q, depth, r, x) && Tile(ke, c', q', depth', r', x')
    requires (g == g' ==> c == c') && (q == q' ==> depth == depth')
    requires g * (NG * ke) + Inner(c, q, depth, r, x) == g' * (NG * ke) + Inner(c', q', depth', r', x')
    ensures g == g' && q == q' && r == r' && x == x'
  {
    InBlock(ke, c, q, depth, r, x);
    InBlock(ke, c', q', depth', r', x');
    SplitUnique(NG * ke, g, Inner(c, q, depth, r, x), g', Inner(c', q', depth', r', x'));
    SplitUnique(KG * c, q, r * depth + x, q', r' * depth' + x');
    SplitUnique(depth, r, x, r', x');
  }

  /** Element x of tile q, of channel r of group g: sixteen channels a group and thirty-two of K
      a tile, channels padded to two and K to eight, the last of either cut short. */
  lemma PlaceIs(k: nat, n: nat, g: nat, r: nat, q: nat, x: nat)
    requires r < 16 && 16 * g + r < (n + 1) / 2 * 2 && x < 32 && 32 * q + x < (k + 7) / 8 * 8
    ensures var ke, np := (k + 7) / 8 * 8, (n + 1) / 2 * 2;
            var channels, depth := Min(16, np - 16 * g), Min(32, ke - 32 * q);
            && 16 * g + r < Dims(k, n).Np() && 32 * q + x < Dims(k, n).Ke()
            && Dims(k, n).Index(16 * g + r, 32 * q + x) == g * (16 * ke) + q * (32 * channels) + (r * depth + x)
  {
    var d := Dims(k, n);
    assert d.Ke() == (k + 7) / 8 * 8 && d.Np() == (n + 1) / 2 * 2;
    hide Dims.Ke, Dims.Np;
    DivMod(16, g, r);
    DivMod(32, q, x);
    var channels, depth := d.Channels(16 * g + r), d.Depth(32 * q + x);
  }

  // ---- reading a weight at fewer channels than it was laid out for ----

  /** A group runs a caller's own weight at its own K, and at all its channels or at fewer, in
      whole sixteens: then each element is read where it was written. */
  lemma AdmittedReads(own: Dims, k: nat, n: nat, ni: nat, ki: nat)
    requires own.k == k && (n == own.n || (n < own.n && n % 16 == 0)) && ni < n && ki < k
    ensures ni < own.Np() && ki < own.Ke() && ni < Dims(k, n).Np() && ki < Dims(k, n).Ke()
    ensures Dims(k, n).Index(ni, ki) == own.Index(ni, ki)
  {
    hide Inner, Dims.Channels, RoundUp;
    var d := Dims(k, n);
    if n != own.n {
      FullGroup(d, n, ni);
      FullGroup(own, n, ni);
    }
  }

  /** A channel below a multiple of sixteen is in a full group. */
  lemma FullGroup(d: Dims, n: nat, ni: nat)
    requires n % NG == 0 && ni < n <= d.n
    ensures ni < d.Np() && d.Channels(ni) == NG
  {
    hide RoundUp;
    assert ni / NG * NG + NG <= n;
  }

  /** A partial last group read at another width is another permutation, as soon as K is past
      one tile: its first channel moves. */
  lemma PartialGroupMoves(own: Dims, n: nat, g: nat)
    requires own.k > KG && NG * g < n <= own.n
    requires Dims(own.k, n).Channels(NG * g) != own.Channels(NG * g)
    ensures Dims(own.k, n).Index(NG * g, KG) != own.Index(NG * g, KG)
  {
    hide RoundUp;
    var d := Dims(own.k, n);
    assert (NG * g) / NG == g && (NG * g) % NG == 0;
    assert KG / KG == 1 && KG % KG == 0;
  }

  // ---- growing K ----

  /** Between multiples of thirty-two, growing K moves each group's block and nothing in it. */
  lemma GrowsRigidly(k: nat, k': nat, n: nat, ni: nat, ki: nat)
    requires k % KG == 0 && k' % KG == 0 && k <= k' && ki < k && ni < Dims(k, n).Np()
    ensures ki < Dims(k, n).Ke() && ki < Dims(k', n).Ke()
    ensures Dims(k', n).Within(ni, ki) == Dims(k, n).Within(ni, ki)
    ensures Dims(k', n).Base(ni) == ni / NG * (NG * k') && Dims(k, n).Base(ni) == ni / NG * (NG * k)
  {
    hide Inner, RoundUp;
    KeOf(k);
    KeOf(k');
    assert Dims(k, n).Depth(ki) == KG == Dims(k', n).Depth(ki);
  }

  lemma KeOf(k: nat)
    requires k % KG == 0
    ensures RoundUp(k, 8) == k
  {
  }

  // ---- the V surface: a position a column, the head's channels down it ----

  type Half(==, 0, !new)

  /** What the surface stands for: channel ni of position ki, converted. */
  datatype Cache = Cache(hd: nat, zero: Half, value: (nat, nat) -> Half)
  {
    function Want(ni: nat, ki: nat, live: nat): Half { if ni < hd && ki < live then value(ni, ki) else zero }
  }

  predicate Cell(d: seq<Half>, p: int, x: Half) { 0 <= p < |d| && d[p] == x }

  /** The surface, laid out for k positions, holds the first `live` of them and zeros. */
  ghost predicate Holds(d: seq<Half>, c: Cache, k: nat, live: nat) {
    HoldsBut(d, c, k, live, 0)
  }

  /** And of the next position the first `upto` channels. */
  ghost predicate HoldsBut(d: seq<Half>, c: Cache, k: nat, live: nat, upto: nat) {
    forall ni, ki :: 0 <= ni < Dims(k, c.hd).Np() && 0 <= ki < Dims(k, c.hd).Ke() ==>
      Cell(d, Dims(k, c.hd).Index(ni, ki), if ki == live && ni < upto then c.Want(ni, ki, live + 1) else c.Want(ni, ki, live))
  }

  /** What a surface of k positions that holds `live` of them reads, wherever a place is, and
      nothing else is such a surface. */
  lemma Reads(d: seq<Half>, c: Cache, k: nat, live: nat)
    ensures Holds(d, c, k, live) <==>
            forall ni: nat, ki: nat :: ni < (c.hd + 1) / 2 * 2 && ki < (k + 7) / 8 * 8 ==>
              && 0 <= Dims(k, c.hd).Index(ni, ki) < |d|
              && d[Dims(k, c.hd).Index(ni, ki)] == if ni < c.hd && ki < live then c.value(ni, ki) else c.zero
  {
    assert Dims(k, c.hd).Ke() == (k + 7) / 8 * 8 && Dims(k, c.hd).Np() == (c.hd + 1) / 2 * 2;
    hide Dims.Index, Dims.Np, Dims.Ke;
  }

  /** Channels of one group are Depth apart. */
  lemma Strided(m: Dims, n0: nat, i: nat, ki: nat)
    requires n0 % NG == 0 && i < NG && n0 + i < m.Np() && ki < m.Ke()
    ensures n0 < m.Np() && m.Index(n0 + i, ki) == m.Index(n0, ki) + i * m.Depth(ki)
  {
    hide Dims.Ke, Dims.Np, Dims.Depth;
    assert (n0 + i) / NG == n0 / NG && (n0 + i) % NG == i;
  }

  lemma StoreCell(d: seq<Half>, d': seq<Half>, c: Cache, k: nat, live: nat, ni: nat)
    requires HoldsBut(d, c, k, live, ni) && ni < c.hd && live < k
    requires ni < Dims(k, c.hd).Np() && live < Dims(k, c.hd).Ke()
    requires var p := Dims(k, c.hd).Index(ni, live); 0 <= p < |d| && d' == d[p := c.value(ni, live)]
    ensures HoldsBut(d', c, k, live, ni + 1)
  {
    hide Dims.Index, Dims.Ke, Dims.Np;
    var m := Dims(k, c.hd);
    forall nj, kj | 0 <= nj < m.Np() && 0 <= kj < m.Ke()
      ensures Cell(d', m.Index(nj, kj), if kj == live && nj < ni + 1 then c.Want(nj, kj, live + 1) else c.Want(nj, kj, live))
    {
      m.Injective(ni, live, nj, kj);
      assert Cell(d, m.Index(nj, kj), if kj == live && nj < ni then c.Want(nj, kj, live + 1) else c.Want(nj, kj, live));
    }
  }

  /** charsiu_fp16_pack_vcol: one position, a group of channels at a time. */
  method PackVcol(d: array<Half>, c: Cache, k: nat, pos: nat)
    requires Holds(d[..], c, k, pos) && pos < k && c.hd > 0
    modifies d
    ensures Holds(d[..], c, k, pos + 1)
  {
    hide Dims.Index, Dims.Ke, Dims.Np, Dims.Depth, HoldsBut;
    var m := Dims(k, c.hd);
    Extents(m, pos);
    var n0 := 0;
    while n0 < c.hd
      invariant n0 % NG == 0 && HoldsBut(d[..], c, k, pos, if n0 < c.hd then n0 else c.hd)
    {
      PackGroup(d, c, k, pos, n0, if c.hd - n0 < NG then c.hd - n0 else NG);
      n0 := n0 + NG;
    }
    AllStored(d[..], c, k, pos);
  }

  /** The step between two channels is taken from the offsets, where there are two. */
  lemma StepIs(m: Dims, n0: nat, run: nat, i: nat, pos: nat, o0: int, stride: int)
    requires n0 % NG == 0 && i < run <= NG && n0 + run <= m.n && pos < m.k
    requires n0 < m.Np() && pos < m.Ke() && o0 == m.Index(n0, pos)
    requires run > 1 ==> n0 + 1 < m.Np() && stride == m.Index(n0 + 1, pos) - o0
    ensures n0 + i < m.Np() && o0 + i * stride == m.Index(n0 + i, pos)
  {
    hide Dims.Index, Dims.Ke, Dims.Np, Dims.Depth;
    GroupInside(m, n0, i + 1, pos);
    Strided(m, n0, i, pos);
    if run > 1 { Strided(m, n0, 1, pos); }
  }

  method PackGroup(d: array<Half>, c: Cache, k: nat, pos: nat, n0: nat, run: nat)
    requires HoldsBut(d[..], c, k, pos, n0) && pos < k && n0 % NG == 0 && 0 < run <= NG && n0 + run <= c.hd
    modifies d
    ensures HoldsBut(d[..], c, k, pos, n0 + run)
  {
    hide Dims.Index, Dims.Ke, Dims.Np, Dims.Depth, HoldsBut;
    var m := Dims(k, c.hd);
    GroupInside(m, n0, run, pos);
    var o0 := m.Index(n0, pos);
    var stride := if run > 1 then m.Index(n0 + 1, pos) - o0 else 0;
    for i := 0 to run
      invariant HoldsBut(d[..], c, k, pos, n0 + i)
    {
      StepIs(m, n0, run, i, pos, o0, stride);
      var p := o0 + i * stride;
      PutChannel(d, c, k, pos, n0 + i, p);
    }
  }

  method PutChannel(d: array<Half>, c: Cache, k: nat, pos: nat, ni: nat, p: int)
    requires HoldsBut(d[..], c, k, pos, ni) && pos < k && ni < c.hd
    requires ni < Dims(k, c.hd).Np() && pos < Dims(k, c.hd).Ke() && p == Dims(k, c.hd).Index(ni, pos)
    modifies d
    ensures HoldsBut(d[..], c, k, pos, ni + 1)
  {
    hide Dims.Index, Dims.Ke, Dims.Np, Dims.Depth, HoldsBut;
    PlaceInside(d[..], c, k, pos, ni);
    ghost var was := d[..];
    d[p] := c.value(ni, pos);
    StoreCell(was, d[..], c, k, pos, ni);
  }

  lemma Extents(m: Dims, pos: nat)
    requires pos < m.k
    ensures pos < m.Ke() && m.n <= m.Np()
  {
  }

  lemma GroupInside(m: Dims, n0: nat, run: nat, pos: nat)
    requires n0 + run <= m.n && pos < m.k && run > 0
    ensures n0 + run <= m.Np() && pos < m.Ke()
  {
  }

  lemma PlaceInside(d: seq<Half>, c: Cache, k: nat, live: nat, ni: nat)
    requires HoldsBut(d, c, k, live, ni) && ni < Dims(k, c.hd).Np() && live < Dims(k, c.hd).Ke()
    ensures 0 <= Dims(k, c.hd).Index(ni, live) < |d|
  {
    hide Dims.Index, Dims.Ke, Dims.Np;
    assert Cell(d, Dims(k, c.hd).Index(ni, live), c.Want(ni, live, live));
  }

  lemma AllStored(d: seq<Half>, c: Cache, k: nat, pos: nat)
    requires HoldsBut(d, c, k, pos, c.hd)
    ensures Holds(d, c, k, pos + 1)
  {
    hide Dims.Index, Dims.Ke, Dims.Np;
    var m := Dims(k, c.hd);
    forall ni, ki | 0 <= ni < m.Np() && 0 <= ki < m.Ke() ensures Cell(d, m.Index(ni, ki), c.Want(ni, ki, pos + 1)) {
      assert Cell(d, m.Index(ni, ki), if ki == pos && ni < c.hd then c.Want(ni, ki, pos + 1) else c.Want(ni, ki, pos));
    }
  }

  // ---- growing the surface where it lies ----

  /** memmove: as if through a copy, when the two overlap. */
  method MemMove(d: array<Half>, on: nat, s: array<Half>, oo: nat, len: nat)
    requires on + len <= d.Length && oo + len <= s.Length
    modifies d
    ensures forall p :: 0 <= p < d.Length ==> d[p] == if on <= p < on + len then old(s[oo + (p - on)]) else old(d[p])
  {
    var block := s[oo..oo + len];
    forall p | on <= p < on + len { d[p] := block[p - on]; }
  }

  method MemZero(d: array<Half>, on: nat, len: nat, zero: Half)
    requires on + len <= d.Length
    modifies d
    ensures forall p :: 0 <= p < d.Length ==> d[p] == if on <= p < on + len then zero else old(d[p])
  {
    forall p | on <= p < on + len { d[p] := zero; }
  }

  /** One group's block in its new place: what was live of it, then zeros. */
  ghost predicate BlockMoved(d: seq<Half>, s: seq<Half>, on: nat, oo: nat, len: nat, blk: nat, zero: Half) {
    && len <= blk && on + blk <= |d| && oo + len <= |s|
    && forall p :: on <= p < on + blk ==> d[p] == if p - on < len then s[oo + (p - on)] else zero
  }

  /** A growth as asked for. It is taken when both extents, padded to the feature atom, are
      whole tiles; any other is refused. */
  datatype Regrowth = Regrowth(hd: nat, k: nat, k': nat, live: nat)
  {
    predicate Taken() {
      hd > 0 && 0 < live <= k <= k' && RoundUp(k, 8) % KG == 0 && RoundUp(k', 8) % KG == 0
    }

    function Padded(): Growth { Growth(hd, RoundUp(k, 8), RoundUp(k', 8), live) }

    lemma PaddedValid()
      requires Taken()
      ensures Padded().Valid()
    {
      PadGrows(k, k');
    }
  }

  lemma PadGrows(k: nat, k': nat)
    requires k <= k'
    ensures k <= RoundUp(k, 8) <= RoundUp(k', 8)
  {
    var q, q' := CeilDiv(k, 8), CeilDiv(k', 8);
    assert q <= q';
  }

  /** The padded extents of a growth: multiples of a tile, the live positions inside the old
      one. */
  datatype Growth = Growth(hd: nat, k: nat, k': nat, live: nat)
  {
    predicate Valid() { hd > 0 && 0 < live <= k <= k' && k % KG == 0 && k' % KG == 0 }

    /** Positions of whole tiles that are live. */
    function Tiles(): nat { RoundUp(live, KG) }

    function Bases(g: nat, ke: nat): int { g * (NG * ke) }

    /** The channels of group g. */
    function Width(g: nat): int { if RoundUp(hd, 2) - g * NG < NG then RoundUp(hd, 2) - g * NG else NG }

    function Groups(): nat { CeilDiv(RoundUp(hd, 2), NG) }

    lemma Shape(g: nat)
      requires Valid() && g < Groups()
      ensures 0 < Width(g) <= NG && live <= Tiles() <= k && Tiles() % KG == 0
      ensures 0 <= Tiles() * Width(g) <= Width(g) * k <= Width(g) * k'
      ensures 0 <= Bases(g, k) <= Bases(g, k') && Bases(g, k) + Tiles() * Width(g) <= Bases(g + 1, k) <= Bases(g + 1, k')
      ensures Bases(g, k') + Width(g) * k' <= Bases(g + 1, k') && Bases(g, k') + Width(g) * k' <= RoundUp(hd, 2) * k'
      ensures Bases(g, k) + Tiles() * Width(g) <= RoundUp(hd, 2) * k
    {
      hide RoundUp, CeilDiv;
      var np, w := RoundUp(hd, 2), Width(g);
      LastGroup(np, Groups(), g);
      TilesBelow();
      BlockPlaces(g, w, np, Tiles(), k, k');
    }

    lemma TilesBelow()
      requires Valid()
      ensures live <= Tiles() <= k && Tiles() % KG == 0
    {
      assert k == k / KG * KG;
      assert live <= k / KG * KG;
    }
  }

  lemma LastGroup(np: nat, groups: nat, g: nat)
    requires groups == CeilDiv(np, NG) && g < groups
    ensures g * NG < np
  {
    assert (groups - 1) * NG < np;
  }

  lemma BlockPlaces(g: nat, w: nat, np: nat, t: nat, k: nat, k': nat)
    requires w <= NG && g * NG + w <= np && t <= k <= k'
    ensures 0 <= t * w <= w * k <= w * k'
    ensures 0 <= g * (NG * k) <= g * (NG * k') && (g + 1) * (NG * k) <= (g + 1) * (NG * k')
    ensures g * (NG * k) + t * w <= (g + 1) * (NG * k) && g * (NG * k) + t * w <= np * k
    ensures g * (NG * k') + w * k' <= (g + 1) * (NG * k') && g * (NG * k') + w * k' <= np * k'
  {
    MulLe(w, t, k);
    MulLe(w, k, k');
    OneBlock(g, w, np, k);
    OneBlock(g, w, np, k');
    MulLe(g, NG * k, NG * k');
    MulLe(g + 1, NG * k, NG * k');
  }

  lemma OneBlock(g: nat, w: nat, np: nat, k: nat)
    requires w <= NG && g * NG + w <= np
    ensures 0 <= g * (NG * k) && g * (NG * k) + w * k <= (g + 1) * (NG * k)
    ensures g * (NG * k) + w * k <= np * k
  {
    MulLe(k, w, NG);
    NextBase(g, NG * k);
    InWeight(g, w, np, k);
  }

  lemma NextBase(g: nat, b: nat)
    ensures (g + 1) * b == g * b + b
  {
  }

  lemma InWeight(g: nat, w: nat, np: nat, k: nat)
    requires g * NG + w <= np
    ensures g * (NG * k) + w * k <= np * k
  {
    MulLe(k, g * NG + w, np);
    assert (g * NG + w) * k == (g * NG) * k + w * k;
    assert (g * NG) * k == g * (NG * k);
  }

  // ---- charsiu_fp16_regrow_vcols ----

  /** Groups from g up are in their new places; everything below is as it was. */
  ghost predicate MovedFrom(d: seq<Half>, s: seq<Half>, was: seq<Half>, c: Cache, w: Growth, g: nat, same: bool)
    requires w.Valid()
  {
    && |d| >= RoundUp(w.hd, 2) * w.k' && |s| == |was|
    && (forall p :: 0 <= p < |s| && p < w.Bases(g, w.k') ==> s[p] == was[p])
    && (!same ==> s == was)
    && (forall j :: g <= j < w.Groups() ==> GroupMoved(d, was, c, w, j))
  }

  ghost predicate GroupMoved(d: seq<Half>, was: seq<Half>, c: Cache, w: Growth, j: nat) {
    var on, oo, len, blk := w.Bases(j, w.k'), w.Bases(j, w.k), w.Tiles() * w.Width(j), w.Width(j) * w.k';
    && on >= 0 && oo >= 0 && len >= 0 && blk >= 0
    && BlockMoved(d, was, on, oo, len, blk, c.zero)
  }

  /** Every block to its new place, the highest first, so that the two may be one surface; a
      block that moves within it clears what it leaves behind. */
  method Regrow(d: array<Half>, s: array<Half>, c: Cache, x: Regrowth) returns (ok: bool)
    requires c.hd == x.hd && d.Length >= RoundUp(x.hd, 2) * RoundUp(x.k', 8) && s.Length >= RoundUp(x.hd, 2) * RoundUp(x.k, 8)
    requires d != s ==> forall p :: 0 <= p < d.Length ==> d[p] == c.zero
    modifies d
    ensures ok <==> x.Taken()
    ensures !ok ==> d[..] == old(d[..])
    ensures ok ==> forall j :: 0 <= j < x.Padded().Groups() ==> GroupMoved(d[..], old(s[..]), c, x.Padded(), j)
  {
    hide RoundUp, CeilDiv, Growth.Groups, GroupMoved, Growth.Valid;
    if x.k' < x.k || x.live > x.k || x.live == 0 || x.hd == 0 || RoundUp(x.k, 8) % KG != 0 || RoundUp(x.k', 8) % KG != 0 {
      return false;
    }
    x.PaddedValid();
    MoveGroups(d, s, c, x.Padded());
    ok := true;
  }

  /** The groups, from the last down to the first. */
  method MoveGroups(d: array<Half>, s: array<Half>, c: Cache, w: Growth)
    requires w.Valid() && d.Length >= RoundUp(w.hd, 2) * w.k' && s.Length >= RoundUp(w.hd, 2) * w.k
    requires d != s ==> forall p :: 0 <= p < d.Length ==> d[p] == c.zero
    modifies d
    ensures forall j :: 0 <= j < w.Groups() ==> GroupMoved(d[..], old(s[..]), c, w, j)
  {
    hide RoundUp, CeilDiv, Growth.Bases, Growth.Width, Growth.Tiles, Growth.Groups, GroupMoved, Growth.Valid;
    ghost var was := s[..];
    var g := w.Groups();
    while g > 0
      invariant 0 <= g <= w.Groups()
      invariant MovedFrom(d[..], s[..], was, c, w, g, d == s)
      invariant d != s ==> forall p :: 0 <= p < d.Length && p < w.Bases(g, w.k') ==> d[p] == c.zero
    {
      g := g - 1;
      MoveGroup(d, s, was, c, w, g);
    }
  }

  /** One block, and in place the zeros after it. */
  method MoveBlock(d: array<Half>, s: array<Half>, ghost was: seq<Half>, on: nat, oo: nat, len: nat, blk: nat, zero: Half)
    requires len <= blk && on + blk <= d.Length && oo + len <= s.Length == |was|
    requires forall p :: oo <= p < oo + len ==> s[p] == was[p]
    requires d != s ==> forall p :: on <= p < on + blk ==> d[p] == zero
    modifies d
    ensures BlockMoved(d[..], was, on, oo, len, blk, zero)
    ensures forall p :: 0 <= p < d.Length && !(on <= p < on + blk) ==> d[p] == old(d[p])
  {
    MemMove(d, on, s, oo, len);
    if d == s && blk > len {
      MemZero(d, on + len, blk - len, zero);
    }
  }

  method MoveGroup(d: array<Half>, s: array<Half>, ghost was: seq<Half>, c: Cache, w: Growth, g: nat)
    requires w.Valid() && g < w.Groups() && s.Length >= RoundUp(w.hd, 2) * w.k
    requires MovedFrom(d[..], s[..], was, c, w, g + 1, d == s)
    requires d != s ==> forall p :: 0 <= p < d.Length && p < w.Bases(g + 1, w.k') ==> d[p] == c.zero
    modifies d
    ensures MovedFrom(d[..], s[..], was, c, w, g, d == s)
    ensures d != s ==> forall p :: 0 <= p < d.Length && p < w.Bases(g, w.k') ==> d[p] == c.zero
  {
    hide RoundUp, CeilDiv, Growth.Bases, Growth.Width, Growth.Tiles, Growth.Groups, Growth.Valid;
    w.Shape(g);
    var on, oo, len, blk := w.Bases(g, w.k'), w.Bases(g, w.k), w.Tiles() * w.Width(g), w.Width(g) * w.k';
    ghost var before := d[..];
    MoveBlock(d, s, was, on, oo, len, blk, c.zero);
    OthersStay(before, d[..], was, c, w, g, on, blk);
  }

  lemma OthersStay(before: seq<Half>, after: seq<Half>, was: seq<Half>, c: Cache, w: Growth, g: nat, on: nat, blk: nat)
    requires w.Valid() && g < w.Groups() && |after| == |before|
    requires forall j :: g + 1 <= j < w.Groups() ==> GroupMoved(before, was, c, w, j)
    requires on + blk <= w.Bases(g + 1, w.k') && GroupMoved(after, was, c, w, g)
    requires forall p :: 0 <= p < |before| && !(on <= p < on + blk) ==> after[p] == before[p]
    ensures forall j :: g <= j < w.Groups() ==> GroupMoved(after, was, c, w, j)
  {
    hide RoundUp, CeilDiv, Growth.Width, Growth.Tiles, Growth.Groups, Growth.Valid;
    forall j | g + 1 <= j < w.Groups() ensures GroupMoved(after, was, c, w, j) {
      assert GroupMoved(before, was, c, w, j);
      MulLe(NG * w.k', g + 1, j);
    }
  }

  /** A channel's group, and its place in it, for extents that are whole tiles. */
  lemma InGroup(w: Growth, k: nat, ni: nat, ki: nat)
    requires w.Valid() && (k == w.k || k == w.k') && ni < Dims(k, w.hd).Np() && ki < k
    ensures ki < Dims(k, w.hd).Ke() && ni / NG < w.Groups() && Dims(k, w.hd).Channels(ni) == w.Width(ni / NG)
    ensures Dims(k, w.hd).Base(ni) == w.Bases(ni / NG, k) && Dims(k, w.hd).Depth(ki) == KG
    ensures ni % NG < w.Width(ni / NG)
  {
    hide RoundUp, CeilDiv;
    KeOf(k);
    GroupBelow(RoundUp(w.hd, 2), ni);
  }

  lemma GroupBelow(np: nat, ni: nat)
    requires ni < np
    ensures ni / NG < CeilDiv(np, NG)
  {
    var q := CeilDiv(np, NG);
    assert q * NG >= np;
  }

  /** A position in a live tile is inside what is moved; one past them is not. */
  lemma LiveOrNot(c: nat, tiles: nat, r: nat, ki: nat)
    requires r < c <= NG && tiles % KG == 0
    ensures var in_ := Inner(c, ki / KG, KG, r, ki % KG);
            if ki < tiles then 0 <= in_ < tiles * c else in_ >= tiles * c
  {
    if ki < tiles {
      InBlock(tiles, c, ki / KG, KG, r, ki % KG);
      assert c * tiles == tiles * c;
    } else {
      MulLe(KG * c, tiles / KG, ki / KG);
      Times(c, tiles / KG);
      RowInTile(c, KG, r, ki % KG);
      assert tiles == tiles / KG * KG;
      assert c * tiles == tiles * c;
    }
  }

  /** The moved blocks are the surface packed afresh at the new extent. */
  lemma MovedHolds(d: seq<Half>, was: seq<Half>, c: Cache, w: Growth)
    requires w.Valid() && c.hd == w.hd && Holds(was, c, w.k, w.live)
    requires forall j :: 0 <= j < w.Groups() ==> GroupMoved(d, was, c, w, j)
    ensures Holds(d, c, w.k', w.live)
  {
    hide RoundUp, CeilDiv, Growth.Bases, Growth.Width, Growth.Tiles, Growth.Groups, Growth.Valid, GroupMoved;
    hide Dims.Index, Dims.Ke, Dims.Np, Dims.Depth, Dims.Channels, Inner;
    var m := Dims(w.k', w.hd);
    forall ni, ki | 0 <= ni < m.Np() && 0 <= ki < m.Ke() ensures Cell(d, m.Index(ni, ki), c.Want(ni, ki, w.live)) {
      WholeTiles(w, ki);
      OneMoved(d, was, c, w, ni, ki);
    }
  }

  lemma WholeTiles(w: Growth, ki: nat)
    requires w.Valid() && ki < Dims(w.k', w.hd).Ke()
    ensures ki < w.k'
  {
    KeOf(w.k');
  }

  lemma OneMoved(d: seq<Half>, was: seq<Half>, c: Cache, w: Growth, ni: nat, ki: nat)
    requires w.Valid() && c.hd == w.hd && Holds(was, c, w.k, w.live)
    requires ni < Dims(w.k', w.hd).Np() && ki < w.k' && ki < Dims(w.k', w.hd).Ke()
    requires forall j :: 0 <= j < w.Groups() ==> GroupMoved(d, was, c, w, j)
    ensures Cell(d, Dims(w.k', w.hd).Index(ni, ki), c.Want(ni, ki, w.live))
  {
    hide RoundUp, CeilDiv, Growth.Bases, Growth.Width, Growth.Tiles, Growth.Groups, Inner, HoldsBut;
    hide Dims.Channels, Dims.Depth, Dims.Base, Dims.Ke;
    var g, within := ni / NG, Dims(w.k', w.hd).Within(ni, ki);
    InGroup(w, w.k', ni, ki);
    w.TilesBelow();
    w.Shape(g);
    LiveOrNot(w.Width(g), w.Tiles(), ni % NG, ki);
    Dims(w.k', w.hd).Inside(ni, ki);
    NewExtent(w);
    assert GroupMoved(d, was, c, w, g);
    if ki < w.Tiles() {
      InGroup(w, w.k, ni, ki);
      OldCell(was, c, w, ni, ki);
    }
  }

  lemma NewExtent(w: Growth)
    requires w.Valid()
    ensures Dims(w.k', w.hd).Ke() == w.k'
  {
    KeOf(w.k');
  }

  lemma OldCell(was: seq<Half>, c: Cache, w: Growth, ni: nat, ki: nat)
    requires Holds(was, c, w.k, w.live) && c.hd == w.hd && ni < Dims(w.k, w.hd).Np() && ki < Dims(w.k, w.hd).Ke()
    ensures Cell(was, Dims(w.k, w.hd).Index(ni, ki), c.Want(ni, ki, w.live))
  {
  }

  /** Growing a surface, in place or into a fresh one: it holds what it held, as if every
      position had been packed again at the new extent. */
  method RegrowSurface(d: array<Half>, s: array<Half>, c: Cache, x: Regrowth) returns (ok: bool)
    requires c.hd == x.hd && d.Length >= RoundUp(x.hd, 2) * RoundUp(x.k', 8) && s.Length >= RoundUp(x.hd, 2) * RoundUp(x.k, 8)
    requires d != s ==> forall p :: 0 <= p < d.Length ==> d[p] == c.zero
    requires Holds(s[..], c, x.k, x.live)
    modifies d
    ensures ok <==> x.Taken()
    ensures if ok then Holds(d[..], c, x.k', x.live) else d[..] == old(d[..])
  {
    hide RoundUp, CeilDiv, Growth.Valid, Growth.Groups, Holds, GroupMoved;
    ok := Regrow(d, s, c, x);
    if ok {
      x.PaddedValid();
      PadHolds(old(s[..]), c, x.k, RoundUp(x.k, 8), x.live);
      MovedHolds(d[..], old(s[..]), c, x.Padded());
      PadHolds(d[..], c, RoundUp(x.k', 8), x.k', x.live);
    }
  }

  /** A surface is laid out by its padded extent alone. */
  lemma PadHolds(d: seq<Half>, c: Cache, k: nat, k': nat, live: nat)
    requires k' == RoundUp(k, 8) || k == RoundUp(k', 8)
    requires Holds(d, c, k, live)
    ensures Holds(d, c, k', live)
  {
    hide Dims.Ke, Dims.Np, Dims.Index, RoundUp, CeilDiv;
    SameExtent(k, k');
    var a, b := Dims(k, c.hd), Dims(k', c.hd);
    forall ni, ki | 0 <= ni < b.Np() && 0 <= ki < b.Ke() ensures Cell(d, b.Index(ni, ki), c.Want(ni, ki, live)) {
      SamePlace(a, b, ni, ki);
      assert Cell(d, a.Index(ni, ki), c.Want(ni, ki, live));
    }
  }

  lemma SameExtent(k: nat, k': nat)
    requires k' == RoundUp(k, 8) || k == RoundUp(k', 8)
    ensures forall n :: Dims(k, n).Ke() == Dims(k', n).Ke()
  {
    Twice(k);
    Twice(k');
  }

  lemma Twice(k: nat)
    ensures RoundUp(RoundUp(k, 8), 8) == RoundUp(k, 8)
  {
  }

  lemma SamePlace(a: Dims, b: Dims, ni: nat, ki: nat)
    requires a.Ke() == b.Ke() && a.n == b.n && (ni < a.Np() || ni < b.Np()) && (ki < a.Ke() || ki < b.Ke())
    ensures a.Np() == b.Np() && ni < a.Np() && ki < a.Ke() && a.Index(ni, ki) == b.Index(ni, ki)
  {
    hide RoundUp;
  }
}
