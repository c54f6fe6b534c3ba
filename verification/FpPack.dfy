/**
 The input surfaces of a group: each op's rows converted into its own region up to the causal
 bound, and zeros from there to the end of the row and from the last row to the end of the page.
 */
module FpPack {
  import opened IndexArith
  import opened Fp16Plan
  import RegStream

  type Float(==, 0, !new)
  type Half(==, 0, !new)

  /** Where an op's halves come from: rows of floats `stride` apart, or the caller's own fill. */
  datatype Source = Rows(x: seq<Float>, stride: nat) | Fill(fill: (nat, nat) -> Half)

  /** An op to pack. `tri` is the columns row 0 may keep, one more each row, 0 for no bound. */
  datatype PackOp = PackOp(m: nat, k: nat, tri: nat, src: Source)
  {
    /** A row stride of 0 is a stride of k. */
    function Stride(): nat
      requires src.Rows?
    {
      if src.stride != 0 then src.stride else k
    }

    predicate Valid() { m > 0 && k > 0 && (src.Rows? ==> (m - 1) * Stride() + k <= |src.x|) }
  }

  /** The halves of the buffer, and the conversion. */
  datatype Packer = Packer(half: Float -> Half, zero: Half)
  {
    /** Element j of row r, converted. */
    function At(o: PackOp, r: nat, j: nat): Half {
      match o.src
      case Rows(x, _) => var i := r * o.Stride() + j; if i < |x| then half(x[i]) else zero
      case Fill(fill) => fill(r, j)
    }

    /** Columns of row r that are not past the causal bound. */
    function Keep(o: PackOp, r: nat, cn: nat): (n: nat)
      ensures n <= cn
    {
      if o.tri != 0 && o.tri + r < cn then o.tri + r else cn
    }

    /** What half e of the region must hold, with room for cap of them. */
    function Want(o: PackOp, cap: nat, e: nat): Half
      requires o.k > 0
    {
      if e >= Halves(o, cap) then zero
      else if o.tri != 0 && e % o.k >= o.tri + e / o.k then zero
      else At(o, e / o.k, e % o.k)
    }

    /** The activation's halves, never more than the region has. */
    function Halves(o: PackOp, cap: nat): nat {
      if o.m * o.k > cap then cap else o.m * o.k
    }
  }

  /** Where row r starts in the source: rows follow one another unless a stride is given. */
  function RowStart(o: PackOp, r: nat): nat
    requires o.src.Rows?
  {
    if o.src.stride == 0 then r * o.k else r * o.src.stride
  }

  /** Element j of row r goes to half r * k + j: converted if the row may keep it, and zero past
      the bound, which is `tri` for row 0 and one more each row. */
  lemma WantedIs(p: Packer, o: PackOp, cap: nat, r: nat, j: nat)
    requires o.Valid() && r < o.m && j < o.k && r * o.k + j < cap
    ensures p.Want(o, cap, r * o.k + j) ==
            if o.tri > 0 && j >= o.tri + r then p.zero
            else match o.src
                 case Rows(x, _) => if RowStart(o, r) + j < |x| then p.half(x[RowStart(o, r) + j]) else p.zero
                 case Fill(fill) => fill(r, j)
    ensures o.src.Rows? ==> RowStart(o, r) + j < |o.src.x|
  {
    DivMod(o.k, r, j);
    MulMono(o.k, r, o.m);
    assert o.k * r == r * o.k && o.k * o.m == o.m * o.k;
    if o.src.Rows? { MulLe(o.Stride(), r, o.m - 1); }
  }

  /** And every half past the last row is zero. */
  lemma WantedPast(p: Packer, o: PackOp, cap: nat, e: nat)
    requires o.k > 0 && (e >= o.m * o.k || e >= cap)
    ensures p.Want(o, cap, e) == p.zero
  {
  }

  /** With the device's own row size, 32 halves an entry, a region is never too small:
      nothing is cut off. */
  lemma NothingCutOff(p: Packer, o: PackOp, cap: int)
    requires cap == o.m * (RegStream.EntriesPerRow(o.k) * 32)
    ensures cap >= 0 && p.Halves(o, cap) == o.m * o.k
  {
    hide RegStream.EntriesPerRow;
    RowFits(o.k);
    var row: nat := RegStream.EntriesPerRow(o.k) * 32;
    MulLe(o.m, o.k, row);
  }

  lemma RowFits(k: nat)
    ensures RegStream.EntriesPerRow(k) * 32 >= k
  {
    assert RegStream.EntriesPerRow(k) * 4 >= CeilDiv(k, 8);
  }

  /** The first n halves from `off` are as wanted, and nothing else has changed. */
  ghost predicate Upto(p: Packer, was: seq<Half>, now: seq<Half>, o: PackOp, cap: nat, off: nat, n: nat)
    requires o.k > 0
  {
    && |now| == |was| && off + n <= |was|
    && forall q :: 0 <= q < |was| ==> now[q] == if off <= q < off + n then p.Want(o, cap, q - off) else was[q]
  }

  method Write(d: array<Half>, at: nat, vals: seq<Half>)
    requires at + |vals| <= d.Length
    modifies d
    ensures forall q :: 0 <= q < d.Length ==> d[q] == if at <= q < at + |vals| then vals[q - at] else old(d[q])
  {
    forall q | at <= q < at + |vals| { d[q] := vals[q - at]; }
  }

  /** Row r, from half e = r * k: cn of its elements, zeros past the bound. */
  method PackRow(p: Packer, ghost was: seq<Half>, d: array<Half>, o: PackOp, cap: nat, off: nat, r: nat, e: nat, cn: nat)
    requires o.k > 0 && e == r * o.k && cn <= o.k && e + cn <= p.Halves(o, cap) && off + e + cn <= d.Length
    requires Upto(p, was, d[..], o, cap, off, e)
    modifies d
    ensures Upto(p, was, d[..], o, cap, off, e + cn)
  {
    hide Packer.Want, Packer.At, Packer.Halves;
    var keep := p.Keep(o, r, cn);
    var kept := seq(keep, j requires 0 <= j => p.At(o, r, j));
    var tail := seq(cn - keep, _ => p.zero);
    ghost var before := d[..];
    Write(d, off + e, kept);
    Write(d, off + e + keep, tail);
    RowWanted(p, o, cap, r, e, cn);
    assert forall j :: 0 <= j < cn ==> (kept + tail)[j] == if j < keep then p.At(o, r, j) else p.zero;
  }

  lemma RowWanted(p: Packer, o: PackOp, cap: nat, r: nat, e: nat, cn: nat)
    requires o.k > 0 && e == r * o.k && cn <= o.k && e + cn <= p.Halves(o, cap)
    ensures forall q :: e <= q < e + cn ==>
              p.Want(o, cap, q) == if q - e < p.Keep(o, r, cn) then p.At(o, r, q - e) else p.zero
  {
    hide Packer.At;
    forall q | e <= q < e + cn
      ensures p.Want(o, cap, q) == if q - e < p.Keep(o, r, cn) then p.At(o, r, q - e) else p.zero
    {
      DivMod(o.k, r, q - e);
    }
  }

  /** One op: its region as wanted up to the end of the page, nothing outside it touched. */
  method PackOne(p: Packer, d: array<Half>, o: PackOp, at: Region)
    requires o.Valid() && at.off % PAGE == 0 && at.off / 2 + Up4k(at.size) / 2 <= d.Length
    modifies d
    ensures Upto(p, old(d[..]), d[..], o, at.size / 2, at.off / 2, Up4k(at.size) / 2)
  {
    hide Packer.Want, Packer.Halves, Up4k, Upto;
    ghost var was := d[..];
    var off, cap, page := at.off / 2, at.size / 2, Up4k(at.size) / 2;
    var nel := p.Halves(o, cap);
    NelFits(p, o, cap, at.size);
    if o.src.Rows? && o.Stride() == o.k && o.tri == 0 {
      PackRun(p, d, o, cap, off, nel);
    } else {
      PackRows(p, d, o, cap, off, nel);
    }
    Pad(p, was, d, o, cap, off, nel, page);
  }

  /** Contiguous rows with no bound: one run. */
  method PackRun(p: Packer, d: array<Half>, o: PackOp, cap: nat, off: nat, nel: nat)
    requires o.k > 0 && o.src.Rows? && o.Stride() == o.k && o.tri == 0 && nel == p.Halves(o, cap) && off + nel <= d.Length
    modifies d
    ensures Upto(p, old(d[..]), d[..], o, cap, off, nel)
  {
    hide Packer.Want, Packer.Halves;
    RunWanted(p, o, cap);
    Write(d, off, seq(nel, e requires 0 <= e < nel => RunAt(p, o, e)));
  }

  /** Row by row, a row contributing what is left of it. */
  method PackRows(p: Packer, d: array<Half>, o: PackOp, cap: nat, off: nat, nel: nat)
    requires o.Valid() && nel == p.Halves(o, cap) && off + nel <= d.Length
    modifies d
    ensures Upto(p, old(d[..]), d[..], o, cap, off, nel)
  {
    hide Packer.Want, Packer.Halves;
    ghost var was := d[..];
    var e, r := 0, 0;
    while r < o.m && e < nel
      invariant r <= o.m && e <= nel && (e == r * o.k || e == nel)
      invariant Upto(p, was, d[..], o, cap, off, e)
      decreases o.m - r
    {
      var cn := if o.k > nel - e then nel - e else o.k;
      PackRow(p, was, d, o, cap, off, r, e, cn);
      NextRow(r, o.k);
      e, r := e + cn, r + 1;
    }
    AllRows(p, o, cap, r, e);
  }

  lemma NextRow(r: nat, k: nat)
    ensures (r + 1) * k == r * k + k
  {
  }

  /** Zeros from the last element to the end of the page. */
  method Pad(p: Packer, ghost was: seq<Half>, d: array<Half>, o: PackOp, cap: nat, off: nat, nel: nat, page: nat)
    requires o.k > 0 && nel == p.Halves(o, cap) <= page && off + page <= d.Length && Upto(p, was, d[..], o, cap, off, nel)
    modifies d
    ensures Upto(p, was, d[..], o, cap, off, page)
  {
    hide Packer.Want, Packer.Halves;
    PageWanted(p, o, cap, page);
    Write(d, off + nel, seq(page - nel, _ => p.zero));
  }

  /** Half e of a contiguous run is element e of the source. */
  function RunAt(p: Packer, o: PackOp, e: nat): Half
    requires o.src.Rows?
  {
    if e < |o.src.x| then p.half(o.src.x[e]) else p.zero
  }

  /** The contiguous run is the same halves as the rows, one by one. */
  lemma RunWanted(p: Packer, o: PackOp, cap: nat)
    requires o.k > 0 && o.src.Rows? && o.Stride() == o.k && o.tri == 0
    ensures forall e :: 0 <= e < p.Halves(o, cap) ==> p.Want(o, cap, e) == RunAt(p, o, e)
  {
    forall e | 0 <= e < p.Halves(o, cap) ensures p.Want(o, cap, e) == RunAt(p, o, e) {
      var r, j := Split(o.k, e);
      DivMod(o.k, r, j);
    }
  }

  lemma NelFits(p: Packer, o: PackOp, cap: nat, size: nat)
    requires cap == size / 2
    ensures p.Halves(o, cap) <= cap <= Up4k(size) / 2
  {
  }

  lemma AllRows(p: Packer, o: PackOp, cap: nat, r: nat, e: nat)
    requires r <= o.m && e <= p.Halves(o, cap) && (e == r * o.k || e == p.Halves(o, cap))
    requires r == o.m || e == p.Halves(o, cap)
    ensures e == p.Halves(o, cap)
  {
  }

  lemma PageWanted(p: Packer, o: PackOp, cap: nat, page: nat)
    requires o.k > 0
    ensures forall e :: p.Halves(o, cap) <= e < page ==> p.Want(o, cap, e) == p.zero
  {
  }

  // ---- a group's ops, in any order ----

  /** Each op's region, page by page in the buffer. */
  datatype Group = Group(ops: seq<PackOp>, at: seq<Region>)
  {
    ghost predicate Valid(n: nat) {
      && |ops| == |at| && Packed(at) && (forall i :: 0 <= i < |ops| ==> ops[i].Valid())
      && (forall i :: 0 <= i < |ops| ==> at[i].size > 0) && Total(at) <= 2 * n
    }

    function From(i: nat): nat
      requires i < |at|
    {
      at[i].off / 2
    }

    function Halves(i: nat): nat
      requires i < |at|
    {
      Up4k(at[i].size) / 2
    }
  }

  /** Half q lies in op i's region. */
  predicate Owns(g: Group, i: nat, q: nat)
    requires i < |g.at|
  {
    g.From(i) <= q < g.From(i) + g.Halves(i)
  }

  /** The regions of the ops in `done` are as wanted and the rest of the buffer is as it was. */
  ghost predicate AllUpto(p: Packer, was: seq<Half>, now: seq<Half>, g: Group, done: set<nat>)
    requires g.Valid(|was|)
  {
    && |now| == |was|
    && (forall i, q: nat :: 0 <= i < |g.ops| && i in done && Owns(g, i, q) && q < |was| && g.ops[i].Valid() ==>
          now[q] == p.Want(g.ops[i], g.at[i].size / 2, q - g.From(i)))
    && (forall q: nat :: q < |was| && (forall i :: 0 <= i < |g.ops| && i in done ==> !Owns(g, i, q)) ==> now[q] == was[q])
  }

  lemma RegionsApart(g: Group, n: nat, i: nat, j: nat, q: nat)
    requires g.Valid(n) && i < |g.at| && j < |g.at|
    ensures i != j && Owns(g, i, q) ==> !Owns(g, j, q)
    ensures g.From(i) + g.Halves(i) <= n
  {
    hide Up4k;
    var a, b := g.at[i], g.at[j];
    assert a.End() == a.off + Up4k(a.size) && b.End() == b.off + Up4k(b.size);
    EvenEnds(a.size);
    EvenEnds(b.size);
    if i < j { assert a.End() <= b.off; } else if j < i { assert b.End() <= a.off; }
    assert a.End() <= Total(g.at);
  }

  lemma EvenEnds(size: nat)
    ensures Up4k(size) % 2 == 0
  {
    var k := Up4k(size) / PAGE;
    assert Up4k(size) == k * PAGE;
  }

  lemma OneMore(p: Packer, was: seq<Half>, before: seq<Half>, after: seq<Half>, g: Group, done: set<nat>, i: nat)
    requires g.Valid(|was|) && i < |g.ops| && AllUpto(p, was, before, g, done)
    requires Upto(p, before, after, g.ops[i], g.at[i].size / 2, g.From(i), g.Halves(i))
    ensures AllUpto(p, was, after, g, done + {i})
  {
    hide Packer.Want, Group.From, Group.Halves;
    forall j, q: nat | 0 <= j < |g.ops| && j in done + {i} && Owns(g, j, q) && q < |was| && g.ops[j].Valid()
      ensures after[q] == p.Want(g.ops[j], g.at[j].size / 2, q - g.From(j))
    {
      RegionsApart(g, |was|, i, j, q);
    }
    forall q: nat | q < |was| && (forall j :: 0 <= j < |g.ops| && j in done + {i} ==> !Owns(g, j, q))
      ensures after[q] == was[q]
    {
      assert !Owns(g, i, q);
    }
  }

  function Taken(order: seq<nat>): (s: set<nat>)
    ensures forall i :: i in s <==> i in order
  {
    set i | i in order
  }

  /** The ops in the order the workers took them, every one at least once: the buffer is the
      one all of them make, whatever the order. */
  method PackAll(p: Packer, d: array<Half>, g: Group, order: seq<nat>)
    requires g.Valid(d.Length) && forall i :: i in order ==> i < |g.ops|
    modifies d
    ensures AllUpto(p, old(d[..]), d[..], g, Taken(order))
  {
    hide Packer.Want, Upto, AllUpto, Packed, Total;
    ghost var was, done := d[..], {};
    NoneYet(p, was, g);
    for t := 0 to |order|
      invariant AllUpto(p, was, d[..], g, done) && done == Taken(order[..t])
    {
      var i := order[t];
      assert i in order;
      RegionsApart(g, d.Length, i, i, 0);
      OpValid(g, d.Length, i);
      ghost var before := d[..];
      PackOne(p, d, g.ops[i], g.at[i]);
      OneMore(p, was, before, d[..], g, done, i);
      assert order[..t + 1] == order[..t] + [i];
      done := done + {i};
    }
    assert order[..|order|] == order;
  }

  lemma NoneYet(p: Packer, was: seq<Half>, g: Group)
    requires g.Valid(|was|)
    ensures AllUpto(p, was, was, g, {})
  {
  }

  lemma OpValid(g: Group, n: nat, i: nat)
    requires g.Valid(n) && i < |g.ops|
    ensures g.ops[i].Valid() && |g.ops| == |g.at| && g.at[i].off % PAGE == 0
    ensures forall j :: 0 <= j < |g.ops| ==> g.ops[j].Valid()
  {
  }

  /** Two orders that cover every op leave the same buffer. */
  lemma AnyOrder(p: Packer, was: seq<Half>, a: seq<Half>, b: seq<Half>, g: Group, done: set<nat>)
    requires g.Valid(|was|) && AllUpto(p, was, a, g, done) && AllUpto(p, was, b, g, done)
    ensures a == b
  {
    hide Packer.Want;
    forall q: nat | q < |was| ensures a[q] == b[q] {
      if i :| 0 <= i < |g.ops| && i in done && Owns(g, i, q) {
        assert a[q] == p.Want(g.ops[i], g.at[i].size / 2, q - g.From(i));
      }
    }
  }
}
