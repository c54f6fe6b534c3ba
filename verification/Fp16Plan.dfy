/**
 Where a group's matmuls sit inside the four shared buffers of an fp16 unit: weights,
 inputs, outputs and coefficients.
 */
module Fp16Plan {
  import opened IndexArith

  const PAGE := 4096
  const GROUP_MAX := 64

  /** One matmul, m by k by n; `owned` when its weight is already on the device. */
  datatype Shape = Shape(m: nat, k: nat, n: nat, owned: bool)

  /** What a matmul needs, in bytes; the device's formats decide, the plan does not. */
  datatype Sizes = Sizes(weight: (nat, nat) -> nat, entries: nat -> nat, coef: (nat, nat) -> nat)
  {
    /** A coefficient buffer is never empty. */
    ghost predicate Valid() { forall k, n :: coef(k, n) > 0 }
  }

  function Up4k(v: nat): (r: nat)
    ensures r % PAGE == 0 && v <= r < v + PAGE
  {
    RoundUp(v, PAGE)
  }

  datatype Region = Region(off: nat, size: nat)
  {
    function End(): nat { off + if size > 0 then Up4k(size) else 0 }
  }

  /** A coefficient region, and the n and size it was made for. */
  datatype Coef = Coef(n: nat, at: Region)

  datatype Plan = Plan(w: seq<Region>, i: seq<Region>, o: seq<Region>, c: seq<Region>, coefs: seq<Coef>, nmax: nat)

  const EMPTY := Plan([], [], [], [], [], 0)

  function Total(rs: seq<Region>): nat { if rs == [] then 0 else rs[|rs| - 1].End() }

  function CoefRegions(cs: seq<Coef>): (rs: seq<Region>)
    ensures |rs| == |cs| && forall j :: 0 <= j < |cs| ==> rs[j] == cs[j].at
  {
    seq(|cs|, j requires 0 <= j < |cs| => cs[j].at)
  }

  predicate Runs(s: Shape) { s.m > 0 && s.k >= 32 && s.n >= 32 }

  predicate Accepted(ops: seq<Shape>) {
    0 < |ops| <= GROUP_MAX && forall j :: 0 <= j < |ops| ==> Runs(ops[j])
  }

  // ---- what a plan promises ----

  /** From offset 0, page aligned, in order, and no two overlapping; the total is where the
      last one ends. */
  ghost predicate Packed(rs: seq<Region>) {
    && (|rs| == 0 || rs[0].off == 0)
    && (forall j :: 0 <= j < |rs| ==> rs[j].off % PAGE == 0)
    && (forall j, k :: 0 <= j < k < |rs| ==> rs[j].End() <= rs[k].off)
  }

  /** With no gap: each starts where the one before it ends, at the end of its last page. */
  ghost predicate Tight(rs: seq<Region>) {
    forall j :: 0 < j < |rs| ==> rs[j].off == rs[j - 1].off + (rs[j - 1].size + 4095) / 4096 * 4096
  }

  /** A caller's own weight takes no room. */
  function WeightSize(sz: Sizes, o: Shape): nat { if o.owned then 0 else sz.weight(o.k, o.n) }

  function InSize(sz: Sizes, o: Shape): nat { sz.entries(o.k) * 64 * o.m }

  function OutSize(o: Shape): nat { o.m * o.n * 4 }

  function CoefSize(sz: Sizes, o: Shape): nat { sz.coef(o.k, o.n) }

  ghost predicate Sized(sz: Sizes, ops: seq<Shape>, p: Plan) {
    && |p.w| == |p.i| == |p.o| == |p.c| == |ops|
    && (forall j :: 0 <= j < |ops| ==> p.w[j].size == WeightSize(sz, ops[j]))
    && (forall j :: 0 <= j < |ops| ==> p.i[j].size == InSize(sz, ops[j]))
    && (forall j :: 0 <= j < |ops| ==> p.o[j].size == OutSize(ops[j]))
    && (forall j :: 0 <= j < |ops| ==> p.c[j].size == CoefSize(sz, ops[j]))
  }

  /** Every op's coefficients are the table's region for its n and size, and the table
      has one region for each pair. */
  ghost predicate CoefsShared(ops: seq<Shape>, c: seq<Region>, coefs: seq<Coef>)
    requires |c| == |ops|
  {
    && (forall j :: 0 <= j < |ops| ==> HasCoef(coefs, ops[j].n, c[j]))
    && (forall e, f :: 0 <= e < f < |coefs| ==> !IsKey(coefs, e, coefs[f].n, coefs[f].at.size))
    && (forall e :: 0 <= e < |coefs| ==> coefs[e].at.size > 0)
  }

  /** No table entry is there for nobody. */
  ghost predicate CoefsUsed(c: seq<Region>, coefs: seq<Coef>) {
    forall e :: 0 <= e < |coefs| ==> coefs[e].at in c
  }

  ghost predicate HasCoef(coefs: seq<Coef>, n: nat, at: Region) {
    exists e :: IsKey(coefs, e, n, at.size) && at == coefs[e].at
  }

  ghost predicate IsMax(ops: seq<Shape>, nmax: nat) {
    && (forall j :: 0 <= j < |ops| ==> ops[j].n <= nmax)
    && (if |ops| == 0 then nmax == 0 else exists j :: 0 <= j < |ops| && ops[j].n == nmax)
  }

  predicate IsKey(coefs: seq<Coef>, e: int, n: nat, size: nat) {
    0 <= e < |coefs| && coefs[e].n == n && coefs[e].at.size == size
  }

  ghost predicate Good(sz: Sizes, ops: seq<Shape>, p: Plan) {
    && Sized(sz, ops, p)
    && Packed(p.w) && Packed(p.i) && Packed(p.o) && Packed(CoefRegions(p.coefs))
    && Tight(p.w) && Tight(p.i) && Tight(p.o) && Tight(CoefRegions(p.coefs))
    && CoefsShared(ops, p.c, p.coefs) && CoefsUsed(p.c, p.coefs)
    && IsMax(ops, p.nmax)
  }

  // ---- charsiu_fp16_make_plan ----

  method Append(rs: seq<Region>, tot: nat, size: nat) returns (rs': seq<Region>, tot': nat)
    requires Packed(rs) && Tight(rs) && tot == Total(rs) && tot % PAGE == 0
    ensures rs' == rs + [Region(Total(rs), size)] && Packed(rs') && Tight(rs')
    ensures tot' == Total(rs') && tot' % PAGE == 0
  {
    hide Tight;
    TightNext(rs, size);
    rs' := rs + [Region(tot, size)];
    tot' := tot + if size > 0 then Up4k(size) else 0;
    if size > 0 { ModSum(tot, Up4k(size), PAGE); }
  }

  lemma TightNext(rs: seq<Region>, size: nat)
    requires Tight(rs)
    ensures Tight(rs + [Region(Total(rs), size)])
  {
    hide Up4k;
    if rs != [] { Pages(rs[|rs| - 1].size); }
  }

  lemma Pages(size: nat)
    ensures (if size > 0 then Up4k(size) else 0) == (size + 4095) / 4096 * 4096
  {
  }

  /** The running totals, which are where the next regions go. */
  datatype Totals = Totals(w: nat, i: nat, o: nat, c: nat)

  ghost predicate TotalsOf(t: Totals, p: Plan) {
    && t.w == Total(p.w) && t.i == Total(p.i) && t.o == Total(p.o) && t.c == Total(CoefRegions(p.coefs))
    && t.w % PAGE == t.i % PAGE == t.o % PAGE == t.c % PAGE == 0
  }

  method AddOp(sz: Sizes, p: Plan, t: Totals, o: Shape, ghost ops: seq<Shape>) returns (p': Plan, t': Totals)
    requires sz.Valid() && Good(sz, ops, p) && TotalsOf(t, p) && Runs(o)
    ensures Good(sz, ops + [o], p') && TotalsOf(t', p')
  {
    var w, wtot := Append(p.w, t.w, WeightSize(sz, o));
    var i, itot := Append(p.i, t.i, InSize(sz, o));
    var out, otot := Append(p.o, t.o, OutSize(o));
    var coefs, ctot, at := PlaceCoefs(p.coefs, t.c, o.n, CoefSize(sz, o));
    CoefsNext(ops, p.c, p.coefs, o, at, coefs);
    MaxNext(ops, p.nmax, o);
    var nmax := if o.n > p.nmax then o.n else p.nmax;
    SizedNext(sz, ops, p, o, w, i, out, at, coefs, nmax);
    p' := Plan(w, i, out, p.c + [at], coefs, nmax);
    t' := Totals(wtot, itot, otot, ctot);
  }

  method MakePlan(sz: Sizes, ops: seq<Shape>) returns (ok: bool, p: Plan)
    requires sz.Valid()
    ensures ok <==> Accepted(ops)
    ensures ok ==> Good(sz, ops, p)
  {
    hide Good, TotalsOf, Walked;
    ok, p := false, EMPTY;
    if |ops| == 0 || |ops| > GROUP_MAX {
      return;
    }
    var t := Totals(0, 0, 0, 0);
    ghost var done: seq<Shape> := [];
    EmptyIsGood(sz, ops);
    for j := 0 to |ops|
      invariant Good(sz, done, p) && TotalsOf(t, p) && Walked(ops, j, done)
    {
      var o := ops[j];
      if o.m == 0 || o.k < 32 || o.n < 32 {
        return;
      }
      WalkedNext(ops, j, done);
      p, t := AddOp(sz, p, t, o, done);
      done := done + [o];
    }
    ok := true;
    WalkedAll(ops, done);
  }

  lemma EmptyIsGood(sz: Sizes, ops: seq<Shape>)
    ensures Good(sz, [], EMPTY) && TotalsOf(Totals(0, 0, 0, 0), EMPTY) && Walked(ops, 0, [])
  {
  }

  ghost predicate Walked(ops: seq<Shape>, j: nat, done: seq<Shape>) {
    j <= |ops| && done == ops[..j] && forall q :: 0 <= q < j ==> Runs(ops[q])
  }

  lemma WalkedNext(ops: seq<Shape>, j: nat, done: seq<Shape>)
    requires Walked(ops, j, done) && j < |ops| && Runs(ops[j])
    ensures Walked(ops, j + 1, done + [ops[j]])
  {
  }

  lemma WalkedAll(ops: seq<Shape>, done: seq<Shape>)
    requires Walked(ops, |ops|, done)
    ensures done == ops && forall q :: 0 <= q < |ops| ==> Runs(ops[q])
  {
  }

  /** The region is an old one made for this n and size, or a new one for a new pair. */
  ghost predicate CoefStep(coefs: seq<Coef>, coefs': seq<Coef>, at: Region, n: nat, size: nat) {
    if coefs' == coefs then at.size == size && HasCoef(coefs, n, at)
    else coefs' == coefs + [Coef(n, at)] && at.size == size && forall e :: !IsKey(coefs, e, n, size)
  }

  /** One coefficient region per distinct n and size, found or made. */
  method PlaceCoefs(coefs: seq<Coef>, ctot: nat, n: nat, size: nat) returns (coefs': seq<Coef>, ctot': nat, at: Region)
    requires Packed(CoefRegions(coefs)) && Tight(CoefRegions(coefs)) && ctot == Total(CoefRegions(coefs)) && ctot % PAGE == 0 && size > 0
    ensures CoefStep(coefs, coefs', at, n, size)
    ensures Packed(CoefRegions(coefs')) && Tight(CoefRegions(coefs')) && ctot' == Total(CoefRegions(coefs')) && ctot' % PAGE == 0
  {
    for e := 0 to |coefs|
      invariant forall f :: 0 <= f < e ==> !IsKey(coefs, f, n, size)
    {
      if coefs[e].n == n && coefs[e].at.size == size {
        assert IsKey(coefs, e, n, size);
        return coefs, ctot, coefs[e].at;
      }
    }
    var rs;
    rs, ctot' := Append(CoefRegions(coefs), ctot, size);
    at := rs[|coefs|];
    coefs' := coefs + [Coef(n, at)];
    assert CoefRegions(coefs') == rs;
  }

  lemma CoefsNext(ops: seq<Shape>, c: seq<Region>, coefs: seq<Coef>, o: Shape, at: Region, coefs': seq<Coef>)
    requires |c| == |ops| && CoefsShared(ops, c, coefs) && CoefsUsed(c, coefs) && at.size > 0
    requires CoefStep(coefs, coefs', at, o.n, at.size)
    ensures CoefsShared(ops + [o], c + [at], coefs') && CoefsUsed(c + [at], coefs')
  {
    forall j | 0 <= j < |ops| + 1 ensures HasCoef(coefs', (ops + [o])[j].n, (c + [at])[j]) {
      if j < |ops| {
        assert HasCoef(coefs, ops[j].n, c[j]);
        var e :| IsKey(coefs, e, ops[j].n, c[j].size) && c[j] == coefs[e].at;
        assert IsKey(coefs', e, ops[j].n, c[j].size);
      } else if coefs' != coefs {
        assert IsKey(coefs', |coefs|, o.n, at.size);
      }
    }
    forall e, f | 0 <= e < f < |coefs'| ensures !IsKey(coefs', e, coefs'[f].n, coefs'[f].at.size) {
      if f < |coefs| {
        assert !IsKey(coefs, e, coefs[f].n, coefs[f].at.size);
      } else {
        assert !IsKey(coefs, e, o.n, at.size);
      }
    }
  }

  lemma MaxNext(ops: seq<Shape>, nmax: nat, o: Shape)
    requires IsMax(ops, nmax)
    ensures IsMax(ops + [o], if o.n > nmax then o.n else nmax)
  {
    var ops' := ops + [o];
    if ops != [] && o.n <= nmax {
      var j :| 0 <= j < |ops| && ops[j].n == nmax;
      assert ops'[j].n == nmax;
    } else {
      assert ops'[|ops|].n == o.n;
    }
  }

  lemma SizedNext(sz: Sizes, ops: seq<Shape>, p: Plan, o: Shape,
                  w: seq<Region>, i: seq<Region>, out: seq<Region>, at: Region, coefs: seq<Coef>, nmax: nat)
    requires Sized(sz, ops, p)
    requires |w| == |i| == |out| == |ops| + 1 && w[..|ops|] == p.w && i[..|ops|] == p.i && out[..|ops|] == p.o
    requires w[|ops|].size == WeightSize(sz, o) && i[|ops|].size == InSize(sz, o)
    requires out[|ops|].size == OutSize(o) && at.size == CoefSize(sz, o)
    ensures Sized(sz, ops + [o], Plan(w, i, out, p.c + [at], coefs, nmax))
  {
  }

  // ---- what follows for any accepted list ----

  predicate Disjoint(a: Region, b: Region) { a.off + a.size <= b.off || b.off + b.size <= a.off }

  lemma PackedDisjoint(rs: seq<Region>, j: nat, k: nat)
    requires Packed(rs) && j < |rs| && k < |rs|
    ensures j != k ==> Disjoint(rs[j], rs[k])
    ensures rs[j].off + rs[j].size <= Total(rs)
  {
    assert rs[j].off + rs[j].size <= rs[j].End();
  }

  /** Weights, inputs and outputs never overlap; two ops share coefficients exactly when
      both n and size agree, and otherwise theirs do not overlap either. */
  lemma PlanIsSafe(sz: Sizes, ops: seq<Shape>, p: Plan, j: nat, k: nat)
    requires Good(sz, ops, p) && j < |ops| && k < |ops|
    ensures j != k ==> Disjoint(p.w[j], p.w[k]) && Disjoint(p.i[j], p.i[k]) && Disjoint(p.o[j], p.o[k])
    ensures p.w[j].off + p.w[j].size <= Total(p.w) && p.i[j].off + p.i[j].size <= Total(p.i)
    ensures p.o[j].off + p.o[j].size <= Total(p.o) && p.c[j].off + p.c[j].size <= Total(CoefRegions(p.coefs))
    ensures p.c[j].off == p.c[k].off <==> ops[j].n == ops[k].n && p.c[j].size == p.c[k].size
    ensures p.c[j].off != p.c[k].off ==> Disjoint(p.c[j], p.c[k])
    ensures ops[j].owned ==> p.w[j].size == 0 && p.w[j].End() == p.w[j].off
  {
    hide Packed, Total, CoefsUsed, IsMax, Up4k;
    PackedDisjoint(p.w, j, k);
    PackedDisjoint(p.i, j, k);
    PackedDisjoint(p.o, j, k);
    assert HasCoef(p.coefs, ops[j].n, p.c[j]) && HasCoef(p.coefs, ops[k].n, p.c[k]);
    var e :| IsKey(p.coefs, e, ops[j].n, p.c[j].size) && p.c[j] == p.coefs[e].at;
    var f :| IsKey(p.coefs, f, ops[k].n, p.c[k].size) && p.c[k] == p.coefs[f].at;
    var rs := CoefRegions(p.coefs);
    PackedDisjoint(rs, e, f);
  }
}
