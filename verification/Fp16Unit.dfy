/**
 One fp16 unit: its shared buffers, the register stream and coefficient caches that say
 what is already in them, and the submit, wait, hold and release protocol.
 */
module Fp16Unit {
  import opened IndexArith
  import opened Fp16Plan
  import opened RegStream
  import opened Sentinel

  const SLOT := 512   // words of register stream an op's slot holds

  datatype Option<+T> = None | Some(value: T)

  /** A weight the caller keeps on the device, laid out at k by n. */
  datatype Owned = Owned(dma: U32, k: nat, n: nat)

  /** `complete`: the op names an input, or fills it, and a weight; `borrowed`: the answer
      stays where the hardware left it. */
  datatype Op = Op(m: nat, k: nat, n: nat, wbuf: Option<Owned>, complete: bool, borrowed: bool)
  {
    function Shape(): Fp16Plan.Shape { Fp16Plan.Shape(m, k, n, wbuf.Some?) }

    /** The group's own refusals: a missing argument, or a weight laid out otherwise. */
    predicate Runnable() {
      complete && (wbuf.Some? ==>
        wbuf.value.k == k && n <= wbuf.value.n && (n == wbuf.value.n || n % 16 == 0))
    }
  }

  function Shapes(ops: seq<Op>): (r: seq<Fp16Plan.Shape>)
    ensures |r| == |ops| && forall i :: 0 <= i < |ops| ==> r[i] == ops[i].Shape()
  {
    seq(|ops|, i requires 0 <= i < |ops| => ops[i].Shape())
  }

  datatype Addresses = Addresses(wt: U32, input: U32, output: U32, coef: U32)

  /** The job of op i under a plan, with the buffers where they are. */
  function JobOf(o: Op, p: Plan, i: nat, a: Addresses): Job
    requires i < |p.w| == |p.i| == |p.o| == |p.c|
  {
    Job(Geometry(o.m, o.k, o.n, Low32(a.input + p.i[i].off), Low32(a.output + p.o[i].off), Low32(a.coef + p.c[i].off)),
        if o.wbuf.Some? then o.wbuf.value.dma else Low32(a.wt + p.w[i].off))
  }

  function Jobs(ops: seq<Op>, p: Plan, a: Addresses): (js: seq<Job>)
    requires |ops| <= |p.w| == |p.i| == |p.o| == |p.c|
    ensures |js| == |ops| && forall i :: 0 <= i < |ops| ==> js[i] == JobOf(ops[i], p, i, a)
  {
    seq(|ops|, i requires 0 <= i < |ops| => JobOf(ops[i], p, i, a))
  }

  lemma NothingClaimed(words: seq<Word>, bytes: seq<int>, build: (nat, nat) -> seq<int>)
    ensures SlotsAre(words, []) && RegionsAre(bytes, [], build)
  {
  }

  lemma JobsValid(ops: seq<Op>, p: Plan, a: Addresses)
    requires Accepted(Shapes(ops)) && |ops| <= |p.w| == |p.i| == |p.o| == |p.c|
    ensures forall i :: 0 <= i < |ops| ==> Jobs(ops, p, a)[i].g.Valid()
  {
    forall i | 0 <= i < |ops| ensures Jobs(ops, p, a)[i].g.Valid() { assert Runs(Shapes(ops)[i]); }
  }

  /** Op i's output, in words. */
  function SurfaceOf(o: Op, p: Plan, i: nat): Surface
    requires i < |p.o|
  {
    Surface(p.o[i].off / 4, o.m, o.n)
  }

  function Surfaces(ops: seq<Op>, p: Plan): (ss: seq<Surface>)
    requires |ops| <= |p.o|
    ensures |ss| == |ops| && forall i :: 0 <= i < |ops| ==> ss[i] == SurfaceOf(ops[i], p, i)
  {
    seq(|ops|, i requires 0 <= i < |ops| => SurfaceOf(ops[i], p, i))
  }

  /** The sizes a call asks of the five buffers, in bytes. */
  datatype Needs = Needs(w: nat, i: nat, o: nat, c: nat, r: nat)
  {
    /** Each at least as large as before, and as asked. */
    function Larger(need: Needs): Needs {
      Needs(Max(w, need.w), Max(i, need.i), Max(o, need.o), Max(c, need.c), Max(r, need.r))
    }
  }

  function Lends(ops: seq<Op>): (r: seq<bool>)
    ensures |r| == |ops| && forall i :: 0 <= i < |ops| ==> r[i] == ops[i].borrowed
  {
    seq(|ops|, i requires 0 <= i < |ops| => ops[i].borrowed)
  }

  function GroupNeeds(p: Plan, nops: nat): Needs {
    Needs(Total(p.w) + 4096, Total(p.i) + 4096, Total(p.o) + 4096, Total(CoefRegions(p.coefs)) + 4096, nops * 4096 + 4096)
  }

  /** A group asks for a page past the end of its last region in each buffer, and of the
      register buffer for a page an op and one more. */
  lemma GroupAsks(sz: Sizes, ops: seq<Op>, p: Plan)
    requires ops != [] && Good(sz, Shapes(ops), p)
    ensures var last, need := |ops| - 1, GroupNeeds(p, |ops|);
            var o := ops[last];
            && last < |p.w| == |p.i| == |p.o| && p.coefs != []
            && need.w == p.w[last].off + (if o.wbuf.Some? then 0 else (sz.weight(o.k, o.n) + 4095) / 4096 * 4096) + 4096
            && need.i == p.i[last].off + (sz.entries(o.k) * 64 * o.m + 4095) / 4096 * 4096 + 4096
            && need.o == p.o[last].off + (o.m * o.n * 4 + 4095) / 4096 * 4096 + 4096
            && need.c == p.coefs[|p.coefs| - 1].at.off + (p.coefs[|p.coefs| - 1].at.size + 4095) / 4096 * 4096 + 4096
            && need.r == (|ops| + 1) * 4096
  {
    hide Packed, CoefsUsed, IsMax, Tight;
    assert Shapes(ops)[|ops| - 1] == ops[|ops| - 1].Shape();
    assert Sized(sz, Shapes(ops), p);
    assert HasCoef(p.coefs, Shapes(ops)[0].n, p.c[0]);
  }

  /** What a submit asks of its list: up to 64 ops, each with an input and a weight, at least
      one row, 32 of K and 32 channels; and of a weight the caller owns that it was laid out at
      the op's own K and for at least its channels, a whole number of sixteens if for more. */
  predicate Takes(ops: seq<Op>) {
    && 1 <= |ops| <= 64
    && (forall i :: 0 <= i < |ops| ==> ops[i].complete && ops[i].m >= 1 && ops[i].k >= 32 && ops[i].n >= 32)
    && (forall i :: 0 <= i < |ops| && ops[i].wbuf.Some? ==>
          var w := ops[i].wbuf.value;
          w.k == ops[i].k && (w.n == ops[i].n || (w.n > ops[i].n && ops[i].n % 16 == 0)))
  }

  lemma TakesExactly(ops: seq<Op>)
    ensures Takes(ops) <==> Accepted(Shapes(ops)) && forall i :: 0 <= i < |ops| ==> ops[i].Runnable()
  {
    if Accepted(Shapes(ops)) {
      forall i | 0 <= i < |ops| ensures ops[i].m >= 1 && ops[i].k >= 32 && ops[i].n >= 32 { assert Runs(Shapes(ops)[i]); }
    }
  }

  /** What a cached signature says is in a slot. */
  datatype Sig = Sig(job: Job, nreg: nat)

  /** The same slots but for their weights. */
  predicate Alike(a: seq<Sig>, b: seq<Sig>) {
    |a| == |b| && forall i :: 0 <= i < |a| ==> a[i].job.g == b[i].job.g
  }

  ghost predicate Fits(j: Job)
    requires j.g.Valid()
  {
    0 < |Stream(j)| <= SLOT
  }

  ghost predicate SlotIs(words: seq<Word>, i: nat, sig: Sig) {
    && sig.job.g.Valid() && (i + 1) * SLOT <= |words|
    && sig.nreg == |Stream(sig.job)| <= SLOT
    && words[i * SLOT..i * SLOT + sig.nreg] == Words(Stream(sig.job))
  }

  ghost predicate SlotsAre(words: seq<Word>, sigs: seq<Sig>) {
    forall i :: 0 <= i < |sigs| ==> SlotIs(words, i, sigs[i])
  }

  /** Every word is still the sentinel. */
  predicate SaysNothing(words: seq<int>) { forall q :: 0 <= q < |words| ==> words[q] == POISON }

  lemma SilentRun(before: seq<int>, after: seq<int>, n: nat)
    requires n <= |after| && SameBut(before, after, Region(0, n)) && SaysNothing(after[0..n])
    ensures OnlyPoison(before, after)
  {
    forall q | 0 <= q < |before| ensures after[q] == before[q] || after[q] == POISON {
      if q < n { assert after[0..n][q] == after[q]; }
    }
  }

  lemma AllStay(before: seq<int>, after: seq<int>, ss: seq<Surface>)
    requires OnlyPoison(before, after)
    ensures AllPoisoned(before, ss) ==> AllPoisoned(after, ss)
  {
    if AllPoisoned(before, ss) {
      forall i | 0 <= i < |ss| ensures Poisoned(after, ss[i]) { PoisonStays(before, after, ss[i]); }
    }
  }

  /** Of the first words of these surfaces' rows, those among the given words are sentinels. */
  ghost predicate FirstsSilent(ss: seq<Surface>, words: seq<int>) {
    forall i, r: nat :: 0 <= i < |ss| && r < ss[i].m && First(ss[i], r) < |words| ==> words[First(ss[i], r)] == POISON
  }

  /** Words written over the front of poisoned surfaces leave them poisoned exactly when they
      are silent in the first words they cover. */
  lemma FirstsAnswer(before: seq<int>, after: seq<int>, ss: seq<Surface>, words: seq<int>)
    requires AllPoisoned(before, ss) && |words| <= |after| && after[0..|words|] == words
    requires SameBut(before, after, Region(0, |words|))
    ensures AllPoisoned(after, ss) <==> FirstsSilent(ss, words)
  {
    forall i, r: nat | 0 <= i < |ss| && r < ss[i].m
      ensures StillPoison(after, ss[i], r) <==> (First(ss[i], r) < |words| ==> words[First(ss[i], r)] == POISON)
    {
      assert Poisoned(before, ss[i]) && StillPoison(before, ss[i], r);
      if First(ss[i], r) < |words| { assert after[First(ss[i], r)] == after[0..|words|][First(ss[i], r)]; }
    }
    if AllPoisoned(after, ss) {
      forall i, r: nat | 0 <= i < |ss| && r < ss[i].m && First(ss[i], r) < |words|
        ensures words[First(ss[i], r)] == POISON
      {
        assert Poisoned(after, ss[i]) && StillPoison(after, ss[i], r);
      }
    }
    if FirstsSilent(ss, words) {
      forall i | 0 <= i < |ss| ensures Poisoned(after, ss[i]) { assert Poisoned(before, ss[i]); }
    }
  }

  // ---- what a wait reports ----

  ghost predicate Wrote(before: seq<int>, after: seq<int>, ss: seq<Surface>, wrote: seq<set<nat>>) {
    |wrote| == |ss| && forall i :: 0 <= i < |ss| ==> JobWrote(before, after, ss[i], wrote[i])
  }

  /** One op's readback: the count of its sentinels, and a copy if it wrote and is not lent. */
  ghost predicate OpRead(words: seq<int>, s: Surface, lend: bool, unwritten: nat, answer: Option<seq<int>>) {
    && unwritten == Unwritten(words, s, s.m) && s.End() <= |words|
    && answer == if unwritten < s.m && !lend then Some(words[s.base..s.End()]) else None
  }

  /** A call fails if some op wrote nothing, and holds the buffer if some answer is lent. */
  ghost predicate AllRead(words: seq<int>, ss: seq<Surface>, lends: seq<bool>,
                          ok: bool, lent: bool, unwritten: seq<nat>, answers: seq<Option<seq<int>>>) {
    && |unwritten| == |answers| == |ss| == |lends|
    && (forall i :: 0 <= i < |ss| ==> OpRead(words, ss[i], lends[i], unwritten[i], answers[i]))
    && (ok <==> forall i :: 0 <= i < |ss| ==> unwritten[i] < ss[i].m)
    && (lent <==> exists i :: 0 <= i < |ss| && lends[i] && unwritten[i] < ss[i].m)
  }

  lemma ReadNext(words: seq<int>, ss: seq<Surface>, lends: seq<bool>, ok: bool, lent: bool, unwritten: seq<nat>,
                 answers: seq<Option<seq<int>>>, s: Surface, lend: bool, u: nat, answer: Option<seq<int>>)
    requires AllRead(words, ss, lends, ok, lent, unwritten, answers) && OpRead(words, s, lend, u, answer)
    ensures AllRead(words, ss + [s], lends + [lend], ok && u < s.m, lent || (lend && u < s.m),
                    unwritten + [u], answers + [answer])
  {
    hide OpRead;
    var n, us, ts, ls := |ss|, unwritten + [u], ss + [s], lends + [lend];
    assert us[n] == u && ts[n] == s && ls[n] == lend;
    assert forall i :: 0 <= i < n ==> us[i] == unwritten[i] && ts[i] == ss[i] && ls[i] == lends[i];
  }

  /** Each count is exactly the number of rows the job did not write. */
  ghost predicate Exact(ss: seq<Surface>, wrote: seq<set<nat>>, unwritten: seq<nat>) {
    && |ss| == |wrote| == |unwritten|
    && forall i :: 0 <= i < |ss| ==> unwritten[i] == |set r: nat | r < ss[i].m && r !in wrote[i]|
  }

  lemma CountsExact(before: seq<int>, after: seq<int>, ss: seq<Surface>, wrote: seq<set<nat>>, unwritten: seq<nat>)
    requires AllPoisoned(before, ss) && Wrote(before, after, ss, wrote) && Inside(ss, |before|)
    requires exists lends, ok, lent, answers :: AllRead(after, ss, lends, ok, lent, unwritten, answers)
    ensures Exact(ss, wrote, unwritten)
  {
    forall i | 0 <= i < |ss| ensures unwritten[i] == |set r: nat | r < ss[i].m && r !in wrote[i]| {
      VerdictIsExact(before, after, ss[i], wrote[i], ss[i].m);
    }
  }

  /** Slot i as it was. */
  lemma SlotKept(before: seq<Word>, after: seq<Word>, i: nat, sig: Sig)
    requires SlotIs(before, i, sig) && |after| == |before|
    requires forall q :: i * SLOT <= q < (i + 1) * SLOT ==> after[q] == before[q]
    ensures SlotIs(after, i, sig)
  {
    hide Stream;
    assert after[i * SLOT..i * SLOT + sig.nreg] == before[i * SLOT..i * SLOT + sig.nreg];
  }

  /** A region of the coefficient buffer holds what a fresh build for its n would. */
  ghost predicate RegionIs(bytes: seq<int>, c: Coef, build: (nat, nat) -> seq<int>) {
    c.at.off + c.at.size <= |bytes| && bytes[c.at.off..c.at.off + c.at.size] == build(c.n, c.at.size)
  }

  ghost predicate RegionsAre(bytes: seq<int>, cs: seq<Coef>, build: (nat, nat) -> seq<int>) {
    forall e :: 0 <= e < |cs| ==> RegionIs(bytes, cs[e], build)
  }

  /** As much of the above as has been built. */
  ghost predicate BuiltAre(bytes: seq<int>, cs: seq<Coef>, built: seq<bool>, build: (nat, nat) -> seq<int>) {
    |built| == |cs| && forall e :: 0 <= e < |cs| && built[e] ==> RegionIs(bytes, cs[e], build)
  }

  /** The region at this place has been built. */
  ghost predicate Covered(cs: seq<Coef>, built: seq<bool>, at: Region) {
    |built| == |cs| && exists e :: 0 <= e < |cs| && built[e] && cs[e].at == at
  }

  ghost predicate SameBut(before: seq<int>, after: seq<int>, at: Region) {
    && |after| == |before|
    && forall q :: 0 <= q < |before| && !(at.off <= q < at.off + at.size) ==> after[q] == before[q]
  }

  lemma RegionKept(before: seq<int>, after: seq<int>, at: Region, c: Coef, build: (nat, nat) -> seq<int>)
    requires RegionIs(before, c, build) && SameBut(before, after, at) && Disjoint(at, c.at)
    ensures RegionIs(after, c, build)
  {
    assert after[c.at.off..c.at.off + c.at.size] == before[c.at.off..c.at.off + c.at.size];
  }

  /** A table of regions that do not overlap, in n bytes. */
  ghost predicate TableOk(cs: seq<Coef>, n: nat) {
    && Packed(CoefRegions(cs)) && Total(CoefRegions(cs)) <= n
    && forall e :: 0 <= e < |cs| ==> cs[e].at.size > 0
  }

  /** The table entry an op was placed on is the one found at its offset. */
  lemma EntryAt(cs: seq<Coef>, n: nat, e: nat, f: nat)
    requires TableOk(cs, n) && e < |cs| && f < |cs|
    ensures cs[e].at.off == cs[f].at.off ==> e == f
    ensures e != f ==> Disjoint(cs[e].at, cs[f].at)
    ensures cs[e].at.off + cs[e].at.size <= n
  {
    PackedDisjoint(CoefRegions(cs), e, f);
    assert CoefRegions(cs)[e] == cs[e].at && CoefRegions(cs)[f] == cs[f].at;
  }

  method WriteAt(a: array<int>, off: nat, bytes: seq<int>)
    requires off + |bytes| <= a.Length
    modifies a
    ensures a[off..off + |bytes|] == bytes
    ensures SameBut(old(a[..]), a[..], Region(off, |bytes|))
  {
    for q := 0 to |bytes|
      invariant a[off..off + q] == bytes[..q]
      invariant SameBut(old(a[..]), a[..], Region(off, |bytes|))
    {
      a[off + q] := bytes[q];
    }
  }

  class Unit {
    const sz: Sizes
    const build: (nat, nat) -> seq<int>   // charsiu_build_coefs for n channels, size bytes
    var size: Needs                       // wsz, insz, obsz, coefsz, regsz
    var addr: Addresses
    var ob: array<int>
    var coef: array<int>
    var reg: array<Word>
    var gen: nat
    var coefGen: nat
    var regGen: nat
    var coefs: seq<Coef>
    var regsig: seq<Sig>
    var emitbuilt: nat   // groups whose streams were emitted afresh
    var emitskip: nat    // and whose streams were kept, patched or as they were
    // the protocol: one group in flight, one answer held open
    var last: seq<Surface>
    var held: bool
    var prepoisoned: bool
    var inflight: bool
    var flying: seq<Surface>
    var lend: seq<bool>
    // what has happened to the output buffer since sentinels were left in it
    ghost var moved: bool     // want() replaced it
    ghost var scribbled: bool // a single call ran over it
    ghost var blind: bool     // the sentinels of the group in flight are gone
    ghost var sure: bool      // unless a single call ran over them, which leaves it open

    ghost predicate BuildsSized() { forall n, s :: |build(n, s)| == s }

    ghost predicate Shaped()
      reads this`ob, this`coef, this`reg, this`size, this`gen, this`coefGen, this`regGen
    {
      && ob as object != coef && coef as object != reg && ob as object != reg
      && ob.Length == size.o / 4 && coef.Length == size.c && reg.Length == size.r / 8
      && sz.Valid() && BuildsSized()
      && coefGen <= gen && regGen <= gen
    }

    /** The register cache never claims a slot that is not what the emitter would write. */
    ghost predicate StreamsOk()
      reads this`reg, this`regGen, this`gen, this`regsig, reg
    {
      regGen == gen ==> SlotsAre(reg[..], regsig)
    }

    ghost predicate CoefsOk()
      reads this`coef, this`coefGen, this`gen, this`coefs, coef
    {
      coefGen == gen ==> RegionsAre(coef[..], coefs, build)
    }

    ghost predicate Surfaced()
      reads this`ob, this`last, this`held, this`prepoisoned, this`inflight, this`moved, this`scribbled, ob
    {
      && Inside(last, ob.Length)
      && (held ==> !prepoisoned && !inflight) && (inflight ==> !prepoisoned)
      && (held || prepoisoned ==> last != [] && last[0].base == 0)
      && (prepoisoned && !scribbled ==> (AllPoisoned(ob[..], last) <==> !moved))
    }

    /** While a group is in flight its outputs carry their sentinels, unless it relied on
        some that a reallocation had taken away. */
    ghost predicate Flying()
      reads this`ob, this`inflight, this`flying, this`lend, this`sure, this`blind, ob
    {
      inflight ==>
        && Inside(flying, ob.Length) && flying != [] && flying[0].base == 0 && |lend| == |flying|
        && (sure ==> (AllPoisoned(ob[..], flying) <==> !blind))
    }

    ghost predicate Valid()
      reads this, ob, coef, reg
    {
      Shaped() && StreamsOk() && CoefsOk() && Surfaced() && Flying()
    }

    // ---- the buffers ----

    /** A unit just opened: no buffers, nothing cached, nothing in flight. */
    constructor (sz: Sizes, build: (nat, nat) -> seq<int>)
      requires sz.Valid() && forall n, s :: |build(n, s)| == s
      ensures Valid() && !inflight && !held && !prepoisoned && this.sz == sz && this.build == build
      ensures size == Needs(0, 0, 0, 0, 0) && emitbuilt == emitskip == 0
      ensures coefs == [] && regsig == [] && last == [] && !moved && !scribbled
      ensures fresh(ob) && fresh(coef) && fresh(reg)
    {
      this.sz, this.build := sz, build;
      size, addr := Needs(0, 0, 0, 0, 0), Addresses(0, 0, 0, 0);
      ob, coef, reg := new int[0], new int[0], new Word[0];
      gen, coefGen, regGen, coefs, regsig := 0, 0, 0, [], [];
      emitbuilt, emitskip := 0, 0;
      last, held, prepoisoned, inflight, flying, lend := [], false, false, false, [], [];
      moved, scribbled, blind, sure := false, false, false, false;
    }

    predicate Room(need: Needs)
      reads this`size
    {
      size.w >= need.w && size.i >= need.i && size.o >= need.o && size.c >= need.c && size.r >= need.r
    }

    /** Grow, never shrink; a new buffer object reads as zeros, and may be anywhere. Nothing
        here asks whether a group is in flight: one that is loses its sentinels. */
    method Want(need: Needs, at: Addresses)
      requires Valid()
      modifies this`size, this`addr, this`ob, this`coef, this`reg, this`gen, this`coefs, this`moved, this`blind
      ensures Valid() && Room(need) && size == old(size).Larger(need)
      ensures old(Room(need)) ==> ob == old(ob) && coef == old(coef) && reg == old(reg) && gen == old(gen)
      ensures old(Room(need)) ==> addr == old(addr) && coefs == old(coefs) && moved == old(moved)
      ensures !old(Room(need)) ==> fresh(ob) && fresh(coef) && fresh(reg) && moved && addr == at && gen > old(gen)
      ensures blind == (old(blind) || (inflight && !old(Room(need))))
    {
      hide AllPoisoned, Poisoned, SlotsAre, RegionsAre, Inside;
      if Room(need) {
        return;
      }
      Grow(need, at);
    }

    method Grow(need: Needs, at: Addresses)
      requires Valid() && !Room(need)
      modifies this`size, this`addr, this`ob, this`coef, this`reg, this`gen, this`coefs, this`moved, this`blind
      ensures Valid() && size == old(size).Larger(need)
      ensures fresh(ob) && fresh(coef) && fresh(reg) && moved && addr == at && gen > old(gen)
      ensures blind == (old(blind) || inflight)
    {
      hide Unit.StreamsOk, Unit.CoefsOk, Unit.Surfaced, Unit.Flying, Unit.Steady, Unit.BuildsSized;
      ghost var n := ob.Length;
      SteadyNow();
      size := size.Larger(need);
      gen, coefs, moved, blind := gen + 1, [], true, blind || inflight;
      Allocate(at);
      Uncached();
      Larger4(old(size.o), size.o);
      Zeroed(n);
    }

    method Allocate(at: Addresses)
      modifies this`ob, this`coef, this`reg, this`addr
      ensures fresh(ob) && fresh(coef) && fresh(reg) && addr == at
      ensures ob as object != coef && coef as object != reg && ob as object != reg
      ensures ob.Length == size.o / 4 && coef.Length == size.c && reg.Length == size.r / 8
      ensures forall q :: 0 <= q < ob.Length ==> ob[q] == 0
    {
      ob := new int[size.o / 4](_ => 0);
      coef := new int[size.c](_ => 0);
      reg := new Word[size.r / 8](_ => 0);
      addr := at;
    }

    lemma Uncached()
      requires coefGen < gen && regGen < gen
      ensures StreamsOk() && CoefsOk()
    {
    }

    lemma Larger4(a: nat, b: nat)
      requires a <= b
      ensures a / 4 <= b / 4
    {
    }

    /** What the protocol keeps of an output buffer of n words, whatever is in it. */
    ghost predicate Steady(n: nat)
      reads this`last, this`held, this`prepoisoned, this`inflight, this`flying, this`lend
    {
      && Inside(last, n) && (held ==> !prepoisoned && !inflight) && (inflight ==> !prepoisoned)
      && (held || prepoisoned ==> last != [] && last[0].base == 0)
      && (inflight ==> Inside(flying, n) && flying != [] && flying[0].base == 0 && |lend| == |flying|)
    }

    lemma SteadyNow()
      requires Surfaced() && Flying()
      ensures Steady(ob.Length)
    {
      hide Inside, AllPoisoned;
    }

    /** A larger buffer of zeros holds no sentinel. */
    lemma Zeroed(n: nat)
      requires Steady(n) && n <= ob.Length && forall q :: 0 <= q < ob.Length ==> ob[q] == 0
      requires moved && (inflight ==> blind)
      ensures Surfaced() && Flying()
    {
      hide AllPoisoned;
      NoneAmongZeros(ob[..], last);
      if inflight { NoneAmongZeros(ob[..], flying); }
    }

    lemma NoneAmongZeros(words: seq<int>, ss: seq<Surface>)
      requires Inside(ss, |words|) && (forall q :: 0 <= q < |words| ==> words[q] == 0)
      ensures ss != [] ==> !AllPoisoned(words, ss)
    {
      if ss != [] {
        FirstInside(ss[0], 0);
        assert !StillPoison(words, ss[0], 0);
        assert !Poisoned(words, ss[0]);
      }
    }

    // ---- the coefficients ----

    /** Is the table in the buffer this plan's? */
    method CoefsStale(cs: seq<Coef>) returns (stale: bool)
      ensures stale <==> !(coefGen == gen && coefs == cs)
    {
      stale := coefGen != gen || |coefs| != |cs|;
      var c := 0;
      while !stale && c < |cs|
        invariant 0 <= c <= |cs|
        invariant stale ==> !(coefGen == gen && coefs == cs)
        invariant !stale ==> coefGen == gen && |coefs| == |cs| && forall d :: 0 <= d < c ==> coefs[d] == cs[d]
      {
        stale := coefs[c].n != cs[c].n || coefs[c].at.off != cs[c].at.off || coefs[c].at.size != cs[c].at.size;
        c := c + 1;
      }
    }

    method FindRegion(cs: seq<Coef>, off: nat) returns (c: nat)
      ensures c <= |cs| && (c < |cs| ==> cs[c].at.off == off)
      ensures c == |cs| ==> forall d :: 0 <= d < |cs| ==> cs[d].at.off != off
    {
      c := 0;
      while c < |cs| && cs[c].at.off != off
        invariant c <= |cs| && forall d :: 0 <= d < c ==> cs[d].at.off != off
      {
        c := c + 1;
      }
    }

    /** Build the region at `at`, the table's entry e, unless it is built already. */
    method BuildFor(cs: seq<Coef>, ghost e: nat, n: nat, at: Region, built: seq<bool>) returns (built': seq<bool>)
      requires BuildsSized() && TableOk(cs, coef.Length) && e < |cs| && cs[e] == Coef(n, at)
      requires BuiltAre(coef[..], cs, built, build)
      modifies coef
      ensures BuiltAre(coef[..], cs, built', build) && Covered(cs, built', at)
      ensures forall f :: 0 <= f < |built| && built[f] ==> built'[f]
    {
      var c := FindRegion(cs, at.off);
      EntryAt(cs, coef.Length, c, e);
      built' := built;
      if !built[c] {
        ghost var before := coef[..];
        WriteAt(coef, at.off, build(n, at.size));
        built' := built[c := true];
        BuiltNext(before, coef[..], cs, built, c);
      }
    }

    lemma BuiltNext(before: seq<int>, after: seq<int>, cs: seq<Coef>, built: seq<bool>, c: nat)
      requires BuiltAre(before, cs, built, build) && c < |cs| && TableOk(cs, |before|)
      requires SameBut(before, after, cs[c].at) && RegionIs(after, cs[c], build)
      ensures BuiltAre(after, cs, built[c := true], build)
    {
      hide TableOk;
      forall f | 0 <= f < |built| && built[c := true][f] ensures RegionIs(after, cs[f], build) {
        if f != c {
          EntryAt(cs, |before|, c, f);
          RegionKept(before, after, cs[c].at, cs[f], build);
        }
      }
    }

    /** Reuse or rebuild: afterwards every region is what a fresh build would put there. */
    method EnsureCoefs(ops: seq<Op>, p: Plan)
      requires Shaped() && Good(sz, Shapes(ops), p) && Total(CoefRegions(p.coefs)) <= coef.Length
      requires CoefsOk()
      modifies this`coefs, this`coefGen, coef
      ensures coefGen == gen && coefs == p.coefs && RegionsAre(coef[..], coefs, build)
    {
      hide Good;
      var stale := CoefsStale(p.coefs);
      if stale {
        BuildCoefs(ops, p);
        coefs := p.coefs;
        coefGen := gen;
      }
    }

    method BuildCoefs(ops: seq<Op>, p: Plan)
      requires BuildsSized() && Good(sz, Shapes(ops), p) && Total(CoefRegions(p.coefs)) <= coef.Length
      modifies coef
      ensures RegionsAre(coef[..], p.coefs, build)
    {
      hide Good;
      PlanTable(ops, p);
      var built := seq(|p.coefs|, _ => false);
      for i := 0 to |ops|
        invariant BuiltAre(coef[..], p.coefs, built, build)
        invariant CoveredTo(p, built, i)
      {
        ghost var was := built;
        ghost var e := OpEntry(ops, p, i);
        built := BuildFor(p.coefs, e, ops[i].n, p.c[i], built);
        CoveredNext(p, was, built, i);
      }
      AllCovered(ops, p, built);
    }

    ghost predicate CoveredTo(p: Plan, built: seq<bool>, i: nat) {
      i <= |p.c| && forall j :: 0 <= j < i ==> Covered(p.coefs, built, p.c[j])
    }

    lemma PlanTable(ops: seq<Op>, p: Plan)
      requires Good(sz, Shapes(ops), p)
      ensures TableOk(p.coefs, Total(CoefRegions(p.coefs)))
      ensures |p.w| == |p.i| == |p.o| == |p.c| == |ops|
    {
    }

    lemma OpEntry(ops: seq<Op>, p: Plan, i: nat) returns (e: nat)
      requires Good(sz, Shapes(ops), p) && i < |ops|
      ensures i < |p.c| && e < |p.coefs| && p.coefs[e] == Coef(ops[i].n, p.c[i])
    {
      assert HasCoef(p.coefs, Shapes(ops)[i].n, p.c[i]);
      e :| IsKey(p.coefs, e, ops[i].n, p.c[i].size) && p.c[i] == p.coefs[e].at;
    }

    lemma CoveredNext(p: Plan, was: seq<bool>, built: seq<bool>, i: nat)
      requires CoveredTo(p, was, i) && i < |p.c| && Covered(p.coefs, built, p.c[i])
      requires |was| == |built| == |p.coefs| && forall e :: 0 <= e < |was| && was[e] ==> built[e]
      ensures CoveredTo(p, built, i + 1)
    {
      forall j | 0 <= j < i ensures Covered(p.coefs, built, p.c[j]) {
        assert Covered(p.coefs, was, p.c[j]);
        var e :| 0 <= e < |p.coefs| && was[e] && p.coefs[e].at == p.c[j];
      }
    }

    /** No region is left out: each is some op's. */
    lemma AllCovered(ops: seq<Op>, p: Plan, built: seq<bool>)
      requires Good(sz, Shapes(ops), p) && CoveredTo(p, built, |ops|) && |built| == |p.coefs|
      ensures forall e :: 0 <= e < |built| ==> built[e]
    {
      PlanTable(ops, p);
      assert CoefsUsed(p.c, p.coefs);
      hide Good;
      forall e | 0 <= e < |built| ensures built[e] {
        assert p.coefs[e].at in p.c;
        var j :| 0 <= j < |p.c| && p.c[j] == p.coefs[e].at;
        assert Covered(p.coefs, built, p.c[j]);
        var f :| 0 <= f < |p.coefs| && built[f] && p.coefs[f].at == p.c[j];
        EntryAt(p.coefs, Total(CoefRegions(p.coefs)), e, f);
      }
    }

    // ---- the register streams ----

    /** Is every slot's geometry the one cached for it? */
    method GeometryStale(jobs: seq<Job>, cache: bool) returns (stale: bool)
      ensures !stale <==> cache && regGen == gen && |regsig| == |jobs|
                          && forall i :: 0 <= i < |jobs| ==> regsig[i].job.g == jobs[i].g
    {
      stale := !cache || regGen != gen || |regsig| != |jobs|;
      var i := 0;
      while !stale && i < |jobs|
        invariant 0 <= i <= |jobs|
        invariant !stale ==> cache && regGen == gen && |regsig| == |jobs|
        invariant !stale ==> forall j :: 0 <= j < i ==> regsig[j].job.g == jobs[j].g
        invariant stale ==> !cache || regGen != gen || |regsig| != |jobs|
                            || exists j :: 0 <= j < |jobs| && regsig[j].job.g != jobs[j].g
      {
        stale := regsig[i].job.g != jobs[i].g;
        i := i + 1;
      }
    }

    /** Point the slots at their weights, where only the weight moved. Each has exactly one
        word to rewrite, so this is never given up. */
    method PatchStreams(jobs: seq<Job>) returns (stale: bool)
      requires |regsig| == |jobs| && SlotsAre(reg[..], regsig)
      requires forall i :: 0 <= i < |jobs| ==> regsig[i].job.g == jobs[i].g
      modifies this`regsig, reg
      ensures !stale && |regsig| == |jobs| && SlotsAre(reg[..], regsig)
      ensures forall i :: 0 <= i < |jobs| ==> regsig[i].job == jobs[i]
    {
      hide Stream;
      stale := false;
      var i := 0;
      while !stale && i < |jobs|
        invariant 0 <= i <= |jobs| && |regsig| == |jobs| && !stale
        invariant forall j :: 0 <= j < |jobs| ==> regsig[j].job.g == jobs[j].g
        invariant forall j :: 0 <= j < i ==> regsig[j].job == jobs[j]
        invariant SlotsAre(reg[..], regsig)
      {
        if regsig[i].job.weight != jobs[i].weight {
          stale := PatchSlot(i, jobs[i]);
        }
        i := i + 1;
      }
    }

    method PatchSlot(i: nat, job: Job) returns (stale: bool)
      requires i < |regsig| && SlotsAre(reg[..], regsig) && regsig[i].job.g == job.g
      modifies this`regsig, reg
      ensures !stale && regsig == old(regsig)[i := Sig(job, old(regsig)[i].nreg)] && SlotsAre(reg[..], regsig)
    {
      hide Stream;
      ghost var before, sig := reg[..], regsig[i];
      assert SlotIs(before, i, sig);
      var hits := PatchWeightAddr(reg, i * SLOT, regsig[i].nreg, job.weight);
      PatchedSlot(before, reg[..], i, sig, job.weight);
      if hits != 1 {
        return true;
      }
      regsig := regsig[i := regsig[i].(job := job)];
      stale := false;
      OutsideSlot(before, reg[..], i, sig.nreg);
      OtherSlots(before, reg[..], old(regsig), i);
    }

    /** Emit every slot afresh. */
    method RebuildStreams(jobs: seq<Job>) returns (ok: bool)
      requires |jobs| * SLOT <= reg.Length && forall i :: 0 <= i < |jobs| ==> jobs[i].g.Valid()
      modifies this`regsig, this`regGen, reg
      ensures ok ==> regGen == gen && |regsig| == |jobs| && SlotsAre(reg[..], regsig)
      ensures ok ==> forall i :: 0 <= i < |jobs| ==> regsig[i].job == jobs[i]
      ensures !ok ==> regsig == [] && exists i :: 0 <= i < |jobs| && !Fits(jobs[i])
    {
      hide Stream, Programs;
      var sigs: seq<Sig> := [];
      for i := 0 to |jobs|
        invariant |sigs| == i && SlotsAre(reg[..], sigs)
        invariant forall j :: 0 <= j < i ==> sigs[j].job == jobs[j]
      {
        ghost var before := reg[..];
        var nreg := EmitJob(jobs[i], reg, i * SLOT, SLOT);
        if nreg == 0 {
          assert !Fits(jobs[i]);
          regsig := [];
          return false;
        }
        OutsideSlot(before, reg[..], i, SLOT);
        OtherSlots(before, reg[..], sigs, i);
        sigs := sigs + [Sig(jobs[i], nreg)];
      }
      regsig := sigs;
      regGen := gen;
      ok := true;
    }

    /** Reuse, patch or rebuild: afterwards every slot is what the emitter would write. No
        stream is too long for its slot, so this cannot fail. Nothing is emitted afresh where
        the cache is on, no buffer was replaced, and only weights differ. */
    method EnsureStreams(jobs: seq<Job>, cache: bool) returns (ok: bool)
      requires StreamsOk() && |jobs| * SLOT <= reg.Length
      requires forall i :: 0 <= i < |jobs| ==> jobs[i].g.Valid()
      modifies this`regsig, this`regGen, this`emitbuilt, this`emitskip, reg
      ensures ok && regGen == gen && SlotsAre(reg[..], regsig) && |regsig| == |jobs|
      ensures forall i :: 0 <= i < |jobs| ==> regsig[i].job == jobs[i]
      ensures Counted(cache && old(regGen == gen) && Alike(old(regsig), regsig), old(emitbuilt), old(emitskip))
    {
      hide Stream;
      ok := true;
      var stale := GeometryStale(jobs, cache);
      if !stale {
        stale := PatchStreams(jobs);
      }
      if stale {
        ok := RebuildStreams(jobs);
        forall i | 0 <= i < |jobs| ensures Fits(jobs[i]) { OneWeightWord(jobs[i], 0); }
        emitbuilt := emitbuilt + 1;
      } else {
        emitskip := emitskip + 1;
      }
    }

    /** One group more, on the one count or the other. */
    predicate Counted(kept: bool, built: nat, skip: nat)
      reads this`emitbuilt, this`emitskip
    {
      emitbuilt == built + (if kept then 0 else 1) && emitskip == skip + if kept then 1 else 0
    }

    // ---- the protocol ----

    method SetOutput(words: seq<int>)
      requires |words| == ob.Length
      modifies ob
      ensures ob[..] == words
    {
      forall q | 0 <= q < ob.Length { ob[q] := words[q]; }
    }

    /** Wait out a group nobody will read; the job leaves `left` in the output buffer. */
    method Drain(left: seq<int>)
      requires Valid() && (inflight ==> |left| == ob.Length)
      modifies this`inflight, this`held, this`prepoisoned, ob
      ensures Valid() && !inflight
      ensures !old(inflight) ==> ob[..] == old(ob[..]) && held == old(held) && prepoisoned == old(prepoisoned)
      ensures old(inflight) ==> !held && !prepoisoned
    {
      hide AllPoisoned, Poisoned, SlotsAre, RegionsAre;
      if inflight {
        SetOutput(left);
        inflight, held, prepoisoned := false, false, false;
      }
    }

    method Release()
      requires Valid()
      modifies this`held, this`prepoisoned
      ensures Valid() && !held
      ensures prepoisoned == old(prepoisoned && !held)
    {
      if held {
        held, prepoisoned := false, false;
      }
    }

    /** Release, with the next group's sentinels left behind. */
    method PoisonAndRelease()
      requires Valid()
      modifies this`held, this`prepoisoned, this`moved, this`scribbled, ob
      ensures Valid() && !held
      ensures !old(held) ==> ob[..] == old(ob[..]) && prepoisoned == old(prepoisoned)
      ensures !old(held) ==> moved == old(moved) && scribbled == old(scribbled)
      ensures old(held) ==> prepoisoned && !moved && !scribbled && AllPoisoned(ob[..], last)
      ensures old(held) ==> OnlyFirsts(old(ob[..]), ob[..], last)
    {
      hide AllPoisoned, Poisoned, SlotsAre, RegionsAre;
      if !held {
        return;
      }
      PoisonAll(ob, last);
      held, prepoisoned, moved, scribbled := false, true, false, false;
    }

    /** Where op i's answer lies, for reading or reducing in place. */
    method OutW(i: nat) returns (at: Option<nat>)
      requires Valid()
      ensures at == if held && i < |last| then Some(last[i].base) else None
      ensures at.Some? ==> at.value + last[i].m * last[i].n <= ob.Length
    {
      at := if held && i < |last| then Some(last[i].base) else None;
    }

    /** The caller reduces over the answers it holds. */
    method CallerWrites(words: seq<int>)
      requires Valid() && held && |words| == ob.Length
      modifies ob
      ensures Valid() && ob[..] == words
    {
      hide AllPoisoned, Poisoned, SlotsAre, RegionsAre;
      SetOutput(words);
    }

    /** Grow for a group that is not run. */
    method Reserve(ops: seq<Op>, at: Addresses) returns (ok: bool, ghost p: Plan)
      requires Valid()
      modifies this`size, this`addr, this`ob, this`coef, this`reg, this`gen, this`coefs, this`moved, this`blind
      ensures Valid() && (ok <==> Accepted(Shapes(ops)))
      ensures ok ==> Good(sz, Shapes(ops), p) && Room(GroupNeeds(p, |ops|))
      ensures size == if ok then old(size).Larger(GroupNeeds(p, |ops|)) else old(size)
      ensures moved == (old(moved) || (ok && !old(Room(GroupNeeds(p, |ops|)))))
      ensures blind == (old(blind) || (inflight && ok && !old(Room(GroupNeeds(p, |ops|)))))
    {
      hide AllPoisoned, Poisoned, SlotsAre, RegionsAre, Good;
      var plan;
      ok, plan := MakePlan(sz, Shapes(ops));
      p := plan;
      if ok {
        Want(GroupNeeds(plan, |ops|), at);
      }
    }

    method AllRunnable(ops: seq<Op>) returns (ok: bool)
      ensures ok <==> forall i :: 0 <= i < |ops| ==> ops[i].Runnable()
    {
      for i := 0 to |ops|
        invariant forall j :: 0 <= j < i ==> ops[j].Runnable()
      {
        if !ops[i].Runnable() {
          return false;
        }
      }
      ok := true;
    }

    /** What a submitted group finds in the shared buffers: each op's slot holds exactly what
        the emitter would write for it now, and each op's coefficients what a fresh build would. */
    ghost predicate Ready(ops: seq<Op>, p: Plan)
      reads this`regsig, this`addr, this`coef, this`reg, coef, reg
    {
      && |ops| <= |p.w| == |p.i| == |p.o| == |p.c|
      && (forall i :: 0 <= i < |ops| ==> OpReady(reg[..], coef[..], ops[i], p, i))
    }

    ghost predicate OpReady(words: seq<Word>, bytes: seq<int>, o: Op, p: Plan, i: nat)
      reads this`regsig, this`addr
      requires i < |p.w| == |p.i| == |p.o| == |p.c|
    {
      && i < |regsig| && regsig[i].job == JobOf(o, p, i, addr) && SlotIs(words, i, regsig[i])
      && RegionIs(bytes, Coef(o.n, p.c[i]), build)
    }

    /** Fill both caches for a planned group. */
    method Prepare(ops: seq<Op>, p: Plan, cache: bool) returns (ok: bool)
      requires Valid() && Good(sz, Shapes(ops), p) && Accepted(Shapes(ops)) && Room(GroupNeeds(p, |ops|))
      modifies this`coefs, this`coefGen, this`regsig, this`regGen, this`emitbuilt, this`emitskip, coef, reg
      ensures Valid() && ok && Ready(ops, p) && ob[..] == old(ob[..])
      ensures Counted(cache && old(regGen == gen) && Alike(old(regsig), regsig), old(emitbuilt), old(emitskip))
    {
      hide AllPoisoned, Poisoned, Good, Stream, SlotIs, RegionIs, Alike, Unit.Counted;
      PlanTable(ops, p);
      EnsureCoefs(ops, p);
      var jobs := Jobs(ops, p, addr);
      JobsValid(ops, p, addr);
      ok := EnsureStreams(jobs, cache);
      forall i | 0 <= i < |ops| ensures OpReady(reg[..], coef[..], ops[i], p, i) {
        var e := OpEntry(ops, p, i);
        assert RegionIs(coef[..], coefs[e], build);
        assert regsig[i].job == jobs[i] == JobOf(ops[i], p, i, addr);
        assert SlotIs(reg[..], i, regsig[i]);
      }
    }

    /** Were the sentinels for exactly these outputs left in the buffer? The early write is
        used up either way; they are still there exactly when no reallocation came between. */
    method TakeSentinels(ss: seq<Surface>) returns (skipped: bool)
      requires Valid() && !inflight && !held && ss != []
      modifies this`prepoisoned
      ensures Valid() && !prepoisoned
      ensures skipped <==> old(prepoisoned) && ss == last
      ensures skipped && !scribbled ==> (AllPoisoned(ob[..], ss) <==> !moved)
    {
      hide AllPoisoned, Poisoned, SlotsAre, RegionsAre;
      skipped := false;
      if prepoisoned {
        skipped := PoisonMatches(ss, last);
      }
      prepoisoned := false;
    }

    /** The job is the device's: what the wait needs. */
    method Fly(ss: seq<Surface>, lends: seq<bool>, skipped: bool)
      requires Valid() && !held && !prepoisoned && Inside(ss, ob.Length) && ss != [] && ss[0].base == 0
      requires |lends| == |ss| && (skipped && !scribbled ==> (AllPoisoned(ob[..], ss) <==> !moved))
      requires !skipped ==> AllPoisoned(ob[..], ss)
      modifies this`flying, this`lend, this`inflight, this`blind, this`sure
      ensures Valid() && inflight && flying == ss && lend == lends
      ensures blind == (skipped && moved) && sure == !(skipped && scribbled)
    {
      hide AllPoisoned, Poisoned, Inside, Unit.StreamsOk, Unit.CoefsOk, Unit.Shaped;
      flying, lend, inflight := ss, lends, true;
      blind, sure := skipped && moved, !(skipped && scribbled);
    }

    /** A plan for ops the group accepts, with buffers that hold it. */
    ghost predicate Planned(ops: seq<Op>, p: Plan)
      reads this`size
    {
      Good(sz, Shapes(ops), p) && Accepted(Shapes(ops)) && Room(GroupNeeds(p, |ops|))
    }

    /** What the words of op i's slot tell the device: where its input, weight and coefficients
        are, that it is to write where the unit will look for its answer, and its extents. */
    ghost predicate Told(ws: seq<Word>, o: Op, p: Plan, i: nat)
      reads this`addr, this`flying
      requires i < |p.w| == |p.i| == |p.c| && i < |flying|
    {
      && Sets(ws, 0x0201, 0x1088, (addr.input + p.i[i].off) % 0x1_0000_0000)
      && Sets(ws, 0x0201, 0x1110, if o.wbuf.Some? then o.wbuf.value.dma else (addr.wt + p.w[i].off) % 0x1_0000_0000)
      && Sets(ws, 0x2001, 0x5020, (addr.coef + p.c[i].off) % 0x1_0000_0000)
      && Sets(ws, 0x1001, 0x4018, (addr.output + 4 * flying[i].base) % 0x1_0000_0000)
      && SetsRows(ws, o.m) && SetsChannels(ws, o.m, o.n) && SetsDepth(ws, o.m, o.k, o.n)
    }

    /** Op i's answer lies where its own job writes it, m rows of n inside the buffer, and its
        slot of 512 words says so. */
    ghost predicate OpPlaced(ops: seq<Op>, p: Plan, i: nat)
      reads this`addr, this`flying, this`regsig, this`reg, this`ob, reg, ob
    {
      && i < |ops| && i < |flying| && i < |regsig| && i < |p.w| == |p.i| == |p.c|
      && flying[i].m == ops[i].m && flying[i].n == ops[i].n
      && flying[i].base + flying[i].m * flying[i].n <= ob.Length
      && (addr.output + 4 * flying[i].base) % 0x1_0000_0000 == regsig[i].job.g.output
      && 512 * i + regsig[i].nreg <= reg.Length && regsig[i].nreg <= 512
      && Told(reg[512 * i..512 * i + regsig[i].nreg], ops[i], p, i)
    }

    /** Every op's does, one after another. */
    ghost predicate Placed(ops: seq<Op>, p: Plan)
      reads this`addr, this`flying, this`regsig, this`reg, this`ob, reg, ob
    {
      && |flying| == |ops| && (forall i :: 0 <= i < |ops| ==> OpPlaced(ops, p, i))
      && forall i, j :: 0 <= i < j < |ops| ==> flying[i].base + flying[i].m * flying[i].n <= flying[j].base
    }

    /** And its weight, its input and its coefficients have their room. */
    lemma RoomForAll(ops: seq<Op>, p: Plan, i: nat)
      requires Planned(ops, p) && i < |ops|
      ensures i < |p.w| == |p.i| == |p.c|
      ensures ops[i].wbuf.None? ==> p.w[i].off + sz.weight(ops[i].k, ops[i].n) <= size.w
      ensures p.i[i].off + sz.entries(ops[i].k) * 64 * ops[i].m <= size.i
      ensures p.c[i].off + sz.coef(ops[i].k, ops[i].n) <= size.c && (i + 1) * 4096 <= size.r
    {
      PlanTable(ops, p);
      assert Shapes(ops)[i] == ops[i].Shape();
      PlanIsSafe(sz, Shapes(ops), p, i, i);
      hide Packed, CoefsShared, CoefsUsed, IsMax, Total, CoefRegions;
      assert Sized(sz, Shapes(ops), p);
    }

    /** A submitted group is so placed. */
    lemma SubmittedPlaced(ops: seq<Op>, p: Plan)
      requires Valid() && Planned(ops, p) && Flies(ops, p) && Ready(ops, p)
      ensures Placed(ops, p)
    {
      hide Good, Accepted, Inside, Unit.OpPlaced, Unit.OpReady;
      hide Unit.StreamsOk, Unit.CoefsOk, Unit.Surfaced, Unit.Shaped, AllPoisoned;
      PlanTable(ops, p);
      forall i | 0 <= i < |ops| ensures OpPlaced(ops, p, i) { OnePlaced(ops, p, i); }
      forall i, j | 0 <= i < j < |ops| ensures flying[i].base + flying[i].m * flying[i].n <= flying[j].base {
        Ordered(ops, p, i, j);
      }
    }

    lemma OnePlaced(ops: seq<Op>, p: Plan, i: nat)
      requires Planned(ops, p) && Flies(ops, p) && Ready(ops, p) && i < |ops| && Inside(flying, ob.Length)
      ensures OpPlaced(ops, p, i)
    {
      hide Programs, Unit.Told, SetsRows, SetsChannels, SetsDepth, Sets, Stream, RegionIs, Good;
      PlanTable(ops, p);
      assert OpReady(reg[..], coef[..], ops[i], p, i);
      var job := regsig[i].job;
      OffsetIs(ops, p, i);
      assert reg[..][i * SLOT..i * SLOT + regsig[i].nreg] == reg[512 * i..512 * i + regsig[i].nreg];
      StreamPrograms(job);
      WordsTell(reg[512 * i..512 * i + regsig[i].nreg], ops[i], p, i, job);
    }

    lemma OffsetIs(ops: seq<Op>, p: Plan, i: nat)
      requires Good(sz, Shapes(ops), p) && Accepted(Shapes(ops)) && i < |ops|
      ensures i < |p.o| && 4 * (p.o[i].off / 4) == p.o[i].off && Runs(ops[i].Shape())
    {
      hide CoefsShared, CoefsUsed, IsMax, Packed, Tight, Total;
      assert |p.o| == |ops|;
      OnPage(p.o, i);
      assert Runs(Shapes(ops)[i]);
    }

    lemma OnPage(rs: seq<Region>, i: nat)
      requires Packed(rs) && i < |rs|
      ensures 4 * (rs[i].off / 4) == rs[i].off
    {
      assert rs[i].off % PAGE == 0;
      hide Packed;
      WholeFours(rs[i].off);
    }

    lemma WholeFours(off: nat)
      requires off % 4096 == 0
      ensures 4 * (off / 4) == off
    {
      assert off == 4 * (1024 * (off / 4096));
    }

    lemma WordsTell(ws: seq<Word>, o: Op, p: Plan, i: nat, job: Job)
      requires Programs(ws, job) && i < |p.w| == |p.i| == |p.o| == |p.c| && i < |flying|
      requires job == JobOf(o, p, i, addr) && 4 * flying[i].base == p.o[i].off
      ensures Told(ws, o, p, i)
    {
      hide SetsRows, SetsChannels, SetsDepth, Sets;
    }

    lemma Ordered(ops: seq<Op>, p: Plan, i: nat, j: nat)
      requires Good(sz, Shapes(ops), p) && i < j < |ops|
      ensures j < |p.o| && p.o[i].off / 4 + ops[i].m * ops[i].n <= p.o[j].off / 4
    {
      assert p.o[i].End() <= p.o[j].off;
      assert p.o[i].size == OutSize(Shapes(ops)[i]) == ops[i].m * ops[i].n * 4;
      assert p.o[i].off % PAGE == 0 && p.o[j].off % PAGE == 0;
    }

    ghost predicate Flies(ops: seq<Op>, p: Plan)
      reads this`inflight, this`flying, this`lend
    {
      inflight && |p.o| == |ops| && flying == Surfaces(ops, p) && lend == Lends(ops)
    }

    /** Wait out what nobody read, plan, refuse what cannot run, and make room. */
    method Admit(ops: seq<Op>, left: seq<int>, at: Addresses) returns (ok: bool, p: Plan)
      requires Valid() && (inflight ==> |left| == ob.Length)
      modifies this`inflight, this`held, this`prepoisoned
      modifies this`size, this`addr, this`ob, this`coef, this`reg, this`gen, this`coefs, this`moved, this`blind, ob
      ensures Valid() && !held && !inflight
      ensures size == if ok then old(size).Larger(GroupNeeds(p, |ops|)) else old(size)
      ensures ok <==> Accepted(Shapes(ops)) && forall i :: 0 <= i < |ops| ==> ops[i].Runnable()
      ensures ok ==> Planned(ops, p)
      ensures prepoisoned == old(prepoisoned && !held && !inflight)
      ensures moved == (old(moved) || (ok && !old(Room(GroupNeeds(p, |ops|)))))
      ensures ok ==> (regGen == gen <==> old(Room(GroupNeeds(p, |ops|)) && regGen == gen))
      ensures fresh(ob) || ob == old(ob)
      ensures fresh(coef) || coef == old(coef)
      ensures fresh(reg) || reg == old(reg)
    {
      hide AllPoisoned, Poisoned, SlotsAre, RegionsAre, Good, Unit.Flying, Unit.StreamsOk, Unit.CoefsOk, Inside;
      Drain(left);
      Release();
      ok, p := MakePlan(sz, Shapes(ops));
      if !ok {
        return;
      }
      ok := AllRunnable(ops);
      if !ok {
        return;
      }
      Want(GroupNeeds(p, |ops|), at);
    }

    /** The sentinels of a group about to go out. */
    method Arm(ops: seq<Op>, p: Plan, ss: seq<Surface>)
      requires Valid() && !inflight && !held && !prepoisoned && Inside(ss, ob.Length) && Ready(ops, p)
      modifies ob
      ensures Valid() && AllPoisoned(ob[..], ss) && Ready(ops, p)
    {
      hide AllPoisoned, Poisoned, SlotsAre, RegionsAre, Inside, OpReady;
      PoisonAll(ob, ss);
    }

    /** Both caches, the sentinels, and the submit. */
    method Launch(ops: seq<Op>, p: Plan, cache: bool, taken: bool) returns (skipped: bool)
      requires Valid() && !inflight && !held && Planned(ops, p)
      modifies this`prepoisoned, this`flying, this`lend, this`inflight, this`blind, this`sure
      modifies this`coefs, this`coefGen, this`regsig, this`regGen, this`emitbuilt, this`emitskip, ob, coef, reg
      ensures Valid() && !prepoisoned && inflight == taken
      ensures Counted(cache && old(regGen == gen) && Alike(old(regsig), regsig), old(emitbuilt), old(emitskip))
      ensures taken ==> Flies(ops, p) && (skipped <==> old(prepoisoned) && flying == last)
      ensures taken ==> blind == (skipped && moved) && sure == !(skipped && scribbled)
      ensures taken ==> Ready(ops, p)
    {
      hide AllPoisoned, Poisoned, SlotsAre, RegionsAre, Good, Ready, Inside, OpReady, Surfaces, Lends, Alike, Unit.Counted;
      hide Unit.Valid;
      PlanTable(ops, p);
      InsideNow(ops, p);
      var ss := Surfaces(ops, p);
      skipped := TakeSentinels(ss);
      var ok := Prepare(ops, p, cache);
      if !skipped {
        Arm(ops, p, ss);
      }
      if taken {
        Fly(ss, Lends(ops), skipped);
      }
    }

    /** charsiu_fp16_matmul_group_submit. `left` is what an abandoned group leaves behind,
        `at` where new buffers land, `taken` whether the device takes the job. Whatever ran
        before, a submitted group finds its streams and coefficients as a fresh build would
        leave them; its sentinels are there unless the early write was relied on after a
        reallocation. */
    method GroupSubmit(ops: seq<Op>, left: seq<int>, at: Addresses, cache: bool, taken: bool)
      returns (ok: bool, p: Plan, skipped: bool)
      requires Valid() && (inflight ==> |left| == ob.Length)
      modifies this, ob, coef, reg
      ensures Valid() && !held && ok == inflight
      ensures ok <==> Accepted(Shapes(ops)) && (forall i :: 0 <= i < |ops| ==> ops[i].Runnable()) && taken
      ensures ok <==> taken && Takes(ops)
      ensures ok ==> Planned(ops, p) && Flies(ops, p)
      ensures ok ==> size == old(size).Larger(GroupNeeds(p, |ops|))
      ensures ok ==> (skipped <==> old(prepoisoned && !held && !inflight) && flying == old(last))
      ensures ok ==> (blind <==> skipped && (old(moved) || !old(Room(GroupNeeds(p, |ops|)))))
      ensures ok ==> (sure <==> !(skipped && old(scribbled)))
      ensures ok ==> Ready(ops, p) && Placed(ops, p)
      ensures ok ==> Counted(cache && old(Room(GroupNeeds(p, |ops|)) && regGen == gen) && Alike(old(regsig), regsig),
                             old(emitbuilt), old(emitskip))
      ensures (fresh(ob) || ob == old(ob)) && (fresh(coef) || coef == old(coef)) && (fresh(reg) || reg == old(reg))
    {
      hide Good, Unit.Ready, Unit.Planned, Unit.Flies, Unit.Placed, Unit.Valid, Alike, Unit.Counted;
      TakesExactly(ops);
      skipped := false;
      ok, p := Admit(ops, left, at);
      if ok {
        skipped := Launch(ops, p, cache, taken);
        ok := taken;
        if ok { SubmittedPlaced(ops, p); }
      }
    }

    /** charsiu_fp16_matmul_group_wait. `after` is what the job leaves in the output buffer,
        having written the rows `wrote` names and no others. Each op's count of unwritten
        rows is exact; an op that wrote nothing fails the call; answers not lent are copied. */
    method GroupWait(after: seq<int>, ghost wrote: seq<set<nat>>)
      returns (ok: bool, unwritten: seq<nat>, answers: seq<Option<seq<int>>>)
      requires Valid()
      requires inflight ==> |after| == ob.Length && Wrote(ob[..], after, flying, wrote)
      modifies this`inflight, this`held, this`last, ob
      ensures Valid() && !inflight
      ensures !old(inflight) ==> !ok && last == old(last) && held == old(held) && ob[..] == old(ob[..])
      ensures old(inflight) ==> last == old(flying) && ob[..] == after
      ensures old(inflight) ==> AllRead(after, last, lend, ok, held, unwritten, answers)
      ensures old(inflight && sure && !blind) ==> Exact(last, wrote, unwritten)
    {
      hide AllPoisoned, Poisoned, SlotsAre, RegionsAre, AllRead, Exact, Wrote;
      ok, unwritten, answers := false, [], [];
      if !inflight {
        return;
      }
      ghost var before := ob[..];
      inflight := false;
      SetOutput(after);
      var lent;
      ok, lent, unwritten, answers := ReadAll(flying, lend);
      last, held := flying, lent;
      if sure && !blind {
        CountsExact(before, after, flying, wrote, unwritten);
      }
    }

    /** The verdict of every op, and the answers the caller asked to have copied. */
    method ReadAll(ss: seq<Surface>, lends: seq<bool>)
      returns (ok: bool, lent: bool, unwritten: seq<nat>, answers: seq<Option<seq<int>>>)
      requires Inside(ss, ob.Length) && |lends| == |ss|
      ensures AllRead(ob[..], ss, lends, ok, lent, unwritten, answers)
    {
      hide OpRead;
      ok, lent, unwritten, answers := true, false, [], [];
      for i := 0 to |ss|
        invariant AllRead(ob[..], ss[..i], lends[..i], ok, lent, unwritten, answers)
      {
        var u, answer := ReadOp(ss[i], lends[i]);
        ReadNext(ob[..], ss[..i], lends[..i], ok, lent, unwritten, answers, ss[i], lends[i], u, answer);
        assert ss[..i + 1] == ss[..i] + [ss[i]] && lends[..i + 1] == lends[..i] + [lends[i]];
        ok, lent := ok && u < ss[i].m, lent || (lends[i] && u < ss[i].m);
        unwritten, answers := unwritten + [u], answers + [answer];
      }
      assert ss[..|ss|] == ss && lends[..|ss|] == lends;
    }

    method ReadOp(s: Surface, lend: bool) returns (u: nat, answer: Option<seq<int>>)
      requires s.End() <= ob.Length && s.n > 0
      ensures OpRead(ob[..], s, lend, u, answer)
    {
      var verdict;
      verdict, u := PoisonVerdict(ob, s);
      answer := if verdict == 0 && !lend then Some(ob[s.base..s.End()]) else None;
    }

    // ---- one matmul by itself, in the same buffers ----

    function SingleNeeds(m: nat, k: nat, n: nat): Needs {
      Needs(sz.weight(k, n) + 4096, sz.entries(k) * 64 * m + 4096, m * n * 4 + 4096, sz.coef(k, n) + 4096, 4096)
    }

    function SingleJob(m: nat, k: nat, n: nat): Job
      reads this`addr
    {
      Job(Geometry(m, k, n, addr.input, addr.output, addr.coef), addr.wt)
    }

    /** charsiu_fp16_matmul. `device` is what its m by n words hold at the fence, all
        sentinels if the job wrote nothing; None if the submit failed. It runs over the
        group's first slot, first coefficients and outputs, so it drops both caches, also
        under a group in flight; it does not drop sentinels left behind, and which of them
        outlive it is for its own answer to say. */
    method Single(m: nat, k: nat, n: nat, complete: bool, at: Addresses, device: Option<seq<int>>)
      returns (ok: bool, y: seq<int>)
      requires Valid() && (device.Some? ==> |device.value| == m * n)
      modifies this, ob, coef, reg
      ensures Valid() && inflight == old(inflight) && last == old(last) && flying == old(flying)
      ensures ok <==> complete && Runs(Shape(m, k, n, false)) && device.Some? && !SaysNothing(device.value)
      ensures ok ==> y == device.value && SlotIs(reg[..], 0, Sig(SingleJob(m, k, n), |Stream(SingleJob(m, k, n))|))
      ensures size == if complete && Runs(Shape(m, k, n, false)) then old(size).Larger(SingleNeeds(m, k, n)) else old(size)
      ensures complete && Runs(Shape(m, k, n, false)) ==>
                && size.w == Max(old(size.w), sz.weight(k, n) + 4096) && size.i == Max(old(size.i), sz.entries(k) * 64 * m + 4096)
                && size.o == Max(old(size.o), 4 * m * n + 4096) && size.c == Max(old(size.c), sz.coef(k, n) + 4096)
                && size.r == Max(old(size.r), 4096)
      ensures ok ==> |Stream(SingleJob(m, k, n))| <= reg.Length && SingleTold(reg[..|Stream(SingleJob(m, k, n))|], m, k, n)
      ensures complete && Runs(Shape(m, k, n, false)) ==> coefs == [] && regsig == [] && scribbled && !held && !sure
      ensures complete && Runs(Shape(m, k, n, false)) && old(prepoisoned && !held && AllPoisoned(ob[..], last))
              && old(Room(SingleNeeds(m, k, n))) ==>
                prepoisoned && (AllPoisoned(ob[..], last) <==> device.None? || FirstsSilent(last, device.value))
    {
      hide AllPoisoned, Poisoned, Stream, SlotIs, SaysNothing, Inside, FirstsSilent, Unit.Valid, Unit.SingleTold;
      ok, y := false, [];
      if !complete || m == 0 || k < 32 || n < 32 {
        return;
      }
      ok := RunSingle(m, k, n, at, device);
      if ok {
        y := device.value;
        SlotTells(m, k, n);
      }
    }

    /** The words of a single call: the front of every buffer, and room there for what the
        job reads and writes. */
    ghost predicate SingleTold(ws: seq<Word>, m: nat, k: nat, n: nat)
      reads this`addr, this`size
    {
      && Sets(ws, 0x0201, 0x1088, addr.input) && Sets(ws, 0x0201, 0x1110, addr.wt)
      && Sets(ws, 0x2001, 0x5020, addr.coef) && Sets(ws, 0x1001, 0x4018, addr.output)
      && SetsRows(ws, m) && SetsChannels(ws, m, n) && SetsDepth(ws, m, k, n)
      && size.w >= sz.weight(k, n) && size.i >= sz.entries(k) * 64 * m && size.o >= m * n * 4 && size.c >= sz.coef(k, n)
    }

    lemma SlotTells(m: nat, k: nat, n: nat)
      requires Runs(Shape(m, k, n, false)) && Room(SingleNeeds(m, k, n))
      requires SlotIs(reg[..], 0, Sig(SingleJob(m, k, n), |Stream(SingleJob(m, k, n))|))
      ensures |Stream(SingleJob(m, k, n))| <= reg.Length && SingleTold(reg[..|Stream(SingleJob(m, k, n))|], m, k, n)
    {
      hide Programs, SetsRows, SetsChannels, SetsDepth, Sets, Stream;
      var job := SingleJob(m, k, n);
      StreamPrograms(job);
      assert reg[..][0 * SLOT..0 * SLOT + |Stream(job)|] == reg[..|Stream(job)|];
      SingleWords(reg[..|Stream(job)|], m, k, n);
    }

    lemma SingleWords(ws: seq<Word>, m: nat, k: nat, n: nat)
      requires Programs(ws, SingleJob(m, k, n)) && Room(SingleNeeds(m, k, n))
      ensures SingleTold(ws, m, k, n)
    {
      hide SetsRows, SetsChannels, SetsDepth, Sets;
    }

    method RunSingle(m: nat, k: nat, n: nat, at: Addresses, device: Option<seq<int>>) returns (ok: bool)
      requires Valid() && Runs(Shape(m, k, n, false)) && (device.Some? ==> |device.value| == m * n)
      modifies this, ob, coef, reg
      ensures Valid() && inflight == old(inflight) && last == old(last) && flying == old(flying)
      ensures ok <==> device.Some? && !SaysNothing(device.value)
      ensures ok ==> SlotIs(reg[..], 0, Sig(SingleJob(m, k, n), |Stream(SingleJob(m, k, n))|))
      ensures size == old(size).Larger(SingleNeeds(m, k, n))
      ensures coefs == [] && regsig == [] && scribbled && !held && !sure
      ensures old(prepoisoned && !held && AllPoisoned(ob[..], last)) && old(Room(SingleNeeds(m, k, n))) ==>
                prepoisoned && (AllPoisoned(ob[..], last) <==> device.None? || FirstsSilent(last, device.value))
    {
      hide AllPoisoned, Poisoned, Stream, SlotIs, SaysNothing, Inside, FirstsSilent, Unit.StreamsOk, Unit.CoefsOk, Unit.Flying, Unit.Surfaced;
      ReadySingle(m, k, n, at);
      MulGe(m, n);
      ok := RunOver(m * n, device);
    }

    method ReadySingle(m: nat, k: nat, n: nat, at: Addresses)
      requires Valid() && Runs(Shape(m, k, n, false))
      modifies this`held, this`prepoisoned, this`size, this`addr, this`ob, this`coef, this`reg, this`gen
      modifies this`coefs, this`moved, this`blind, this`regsig, coef, reg
      ensures Valid() && !held && coefs == [] && regsig == [] && Room(SingleNeeds(m, k, n))
      ensures fresh(ob) || ob == old(ob)
      ensures SlotIs(reg[..], 0, Sig(SingleJob(m, k, n), |Stream(SingleJob(m, k, n))|))
      ensures size == old(size).Larger(SingleNeeds(m, k, n)) && prepoisoned == old(prepoisoned && !held)
      ensures old(Room(SingleNeeds(m, k, n))) ==> ob == old(ob) && ob[..] == old(ob[..])
    {
      hide AllPoisoned, Poisoned, Stream, SlotIs, Inside, Unit.StreamsOk, Unit.CoefsOk, Unit.Flying, Unit.Surfaced;
      Release();
      Want(SingleNeeds(m, k, n), at);
      Overwrite(m, k, n);
    }

    /** Its own coefficients and stream, where the group's first ones were. */
    method Overwrite(m: nat, k: nat, n: nat)
      requires Valid() && Runs(Shape(m, k, n, false)) && Room(SingleNeeds(m, k, n))
      modifies this`coefs, this`regsig, coef, reg
      ensures Valid() && coefs == [] && regsig == []
      ensures SlotIs(reg[..], 0, Sig(SingleJob(m, k, n), |Stream(SingleJob(m, k, n))|))
    {
      hide Unit.StreamsOk, Unit.CoefsOk, Unit.Surfaced, Unit.Flying, Stream, SlotIs;
      OwnCoefs(k, n);
      OwnStream(m, k, n);
    }

    method OwnCoefs(k: nat, n: nat)
      requires Valid() && size.c >= sz.coef(k, n)
      modifies this`coefs, coef
      ensures Valid() && coefs == []
    {
      hide Unit.StreamsOk, Unit.Surfaced, Unit.Flying, SlotsAre, SameBut;
      coefs := [];
      WriteAt(coef, 0, build(n, sz.coef(k, n)));
      NothingClaimed(reg[..], coef[..], build);
    }

    method OwnStream(m: nat, k: nat, n: nat)
      requires Valid() && Runs(Shape(m, k, n, false)) && size.r >= 4096
      modifies this`regsig, reg
      ensures Valid() && regsig == []
      ensures SlotIs(reg[..], 0, Sig(SingleJob(m, k, n), |Stream(SingleJob(m, k, n))|))
    {
      hide Unit.CoefsOk, Unit.Surfaced, Unit.Flying, Stream, Programs, SlotIs, RegionsAre;
      regsig := [];
      OneWeightWord(SingleJob(m, k, n), 0);
      var nreg := EmitJob(SingleJob(m, k, n), reg, 0, SLOT);
      EmittedAlone(reg[..], SingleJob(m, k, n), nreg);
      NothingClaimed(reg[..], coef[..], build);
    }

    lemma EmittedAlone(words: seq<Word>, job: Job, nreg: nat)
      requires job.g.Valid() && SLOT <= |words| && nreg == |Stream(job)| <= SLOT && words[..nreg] == Words(Stream(job))
      ensures SlotIs(words, 0, Sig(job, nreg))
    {
      hide Stream;
      assert words[0 * SLOT..0 * SLOT + nreg] == words[..nreg];
    }

    method RunOver(count: nat, device: Option<seq<int>>) returns (ok: bool)
      requires Valid() && !held && 0 < count <= ob.Length
      requires device.Some? ==> |device.value| == count
      modifies this`scribbled, this`sure, ob
      ensures Valid() && scribbled && !sure
      ensures ok <==> device.Some? && !SaysNothing(device.value)
      ensures old(AllPoisoned(ob[..], last)) ==>
                (AllPoisoned(ob[..], last) <==> device.None? || FirstsSilent(last, device.value))
    {
      hide AllPoisoned, Poisoned, SlotsAre, RegionsAre;
      scribbled, sure := true, false;
      ghost var before := ob[..];
      WriteAt(ob, 0, seq(count, _ => POISON));
      SilentRun(before, ob[..], count);
      AllStay(before, ob[..], last);
      ok := false;
      if device.Some? {
        ghost var filled := ob[..];
        WriteAt(ob, 0, device.value);
        ok := !SaysNothing(device.value);
        if old(AllPoisoned(ob[..], last)) { FirstsAnswer(filled, ob[..], last, device.value); }
      }
    }

    lemma InsideNow(ops: seq<Op>, p: Plan)
      requires Valid() && Planned(ops, p) && |p.o| == |ops|
      ensures Inside(Surfaces(ops, p), ob.Length) && Surfaces(ops, p) != [] && Surfaces(ops, p)[0].base == 0
    {
      hide Good, Inside, Surfaces;
      SurfacesInside(ops, p, ob.Length);
    }

    lemma SurfacesInside(ops: seq<Op>, p: Plan, n: nat)
      requires Good(sz, Shapes(ops), p) && Accepted(Shapes(ops)) && |p.o| == |ops| && (Total(p.o) + 4096) / 4 <= n
      ensures Inside(Surfaces(ops, p), n) && Surfaces(ops, p) != [] && Surfaces(ops, p)[0].base == 0
    {
      forall i | 0 <= i < |ops| ensures SurfaceOf(ops[i], p, i).End() <= n && ops[i].m > 0 && ops[i].n > 0 {
        PackedDisjoint(p.o, i, i);
        assert Runs(Shapes(ops)[i]);
        assert p.o[i].size == OutSize(Shapes(ops)[i]) == ops[i].m * ops[i].n * 4;
        assert p.o[i].off % PAGE == 0;
      }
    }
  }

  /** Nothing outside slot i was touched. */
  ghost predicate OnlySlot(before: seq<Word>, after: seq<Word>, i: nat) {
    && |after| == |before|
    && forall q :: 0 <= q < |before| && !(i * SLOT <= q < (i + 1) * SLOT) ==> after[q] == before[q]
  }

  lemma OutsideSlot(before: seq<Word>, after: seq<Word>, i: nat, n: nat)
    requires |after| == |before| && i * SLOT + n <= |before| && n <= SLOT
    requires after[..i * SLOT] == before[..i * SLOT] && after[i * SLOT + n..] == before[i * SLOT + n..]
    ensures OnlySlot(before, after, i)
  {
    var lo, hi := i * SLOT, i * SLOT + n;
    forall q | 0 <= q < |before| && !(lo <= q < hi) ensures after[q] == before[q] {
      if q < lo { assert after[..lo][q] == before[..lo][q]; }
      else { assert after[hi..][q - hi] == before[hi..][q - hi]; }
    }
  }

  /** A patched slot holds what the emitter writes for the other address. */
  lemma PatchedSlot(before: seq<Word>, after: seq<Word>, i: nat, sig: Sig, a: U32)
    requires SlotIs(before, i, sig) && |after| == |before|
    requires after[i * SLOT..i * SLOT + sig.nreg] == Patched(before[i * SLOT..i * SLOT + sig.nreg], a)
    ensures SlotIs(after, i, sig.(job := Job(sig.job.g, a)))
    ensures Hits(before[i * SLOT..i * SLOT + sig.nreg]) == 1
  {
    hide Stream, Words, Patched, Hits;
    PatchIsEmit(sig.job, a);
    OneWeightWord(sig.job, a);
  }

  lemma OtherSlots(before: seq<Word>, after: seq<Word>, sigs: seq<Sig>, i: nat)
    requires SlotsAre(before, sigs) && OnlySlot(before, after, i)
    ensures forall j :: 0 <= j < |sigs| && j != i ==> SlotIs(after, j, sigs[j])
  {
    hide Stream;
    forall j | 0 <= j < |sigs| && j != i ensures SlotIs(after, j, sigs[j]) {
      SlotKept(before, after, j, sigs[j]);
    }
  }

  // ---- early sentinels that are relied on and are not there ----

  /** A group of one op: its output comes first, and its weight decides how much is asked. */
  lemma OnePlan(sz: Sizes, o: Op, p: Plan)
    requires Good(sz, Shapes([o]), p)
    ensures |p.o| == 1 && Surfaces([o], p) == [Surface(0, o.m, o.n)]
    ensures GroupNeeds(p, 1).w == (if WeightSize(sz, o.Shape()) > 0 then Up4k(WeightSize(sz, o.Shape())) else 0) + 4096
  {
    assert Shapes([o])[0] == o.Shape() && Surfaces([o], p)[0] == SurfaceOf(o, p, 0);
  }

  function SmallSizes(): (sz: Sizes)
    ensures sz.Valid()
  {
    Sizes((k, n) => k * n * 2, k => k / 32, (k, n) => 128)
  }

  /** One row of 32 outputs over k inputs, its answer left in place. */
  function OneRow(k: nat): Op { Op(1, k, 32, None, true, true) }

  lemma OneAccepted(k: nat)
    requires k >= 32
    ensures Accepted(Shapes([OneRow(k)])) && forall i :: 0 <= i < 1 ==> [OneRow(k)][i].Runnable()
  {
    assert Shapes([OneRow(k)])[0] == OneRow(k).Shape();
  }

  lemma FliesInside(u: Unit)
    requires u.Valid() && u.inflight
    ensures Inside(u.flying, u.ob.Length)
  {
    hide Unit.StreamsOk, Unit.CoefsOk, Unit.Surfaced, Unit.Shaped;
  }

  lemma WroteFirst(before: seq<int>, s: Surface)
    requires Inside([s], |before|) && s.base == 0 && s.m == 1
    ensures |before| > 0 && Wrote(before, before[0 := 0], [s], [{0}])
  {
    var ss := [s];
    assert ss[0].End() <= |before| && s.m * s.n == s.n;
    assert JobWrote(before, before[0 := 0], s, {0});
  }

  lemma IsLent(words: seq<int>, s: Surface, wrote: set<nat>, ok: bool, lent: bool, unwritten: seq<nat>, answers: seq<Option<seq<int>>>)
    requires s.m == 1 && wrote == {0}
    requires AllRead(words, [s], [true], ok, lent, unwritten, answers) && Exact([s], [wrote], unwritten)
    ensures lent
  {
    hide OpRead;
    var ss, lends, all := [s], [true], [wrote];
    assert unwritten[0] == |set r: nat | r < ss[0].m && r !in all[0]|;
    assert (set r: nat | r < ss[0].m && r !in all[0]) == {};
    assert lends[0] && unwritten[0] < ss[0].m;
  }

  const ROW := Surface(0, 1, 32)

  lemma RowPlan(k: nat, p: Plan)
    requires Good(SmallSizes(), Shapes([OneRow(k)]), p) && k > 0
    ensures Surfaces([OneRow(k)], p) == [ROW] && Lends([OneRow(k)]) == [true]
    ensures GroupNeeds(p, 1).w == Up4k(64 * k) + 4096
  {
    hide Good;
    OnePlan(SmallSizes(), OneRow(k), p);
  }

  /** A new unit with a group in flight. */
  method FirstGroup() returns (u: Unit)
    ensures u.Valid() && fresh(u) && fresh(u.ob) && fresh(u.coef) && fresh(u.reg) && u.sz == SmallSizes()
    ensures u.inflight && u.flying == [ROW] && u.lend == [true] && u.sure && !u.blind && u.size.w == 8192
  {
    hide Unit.Valid, Unit.Ready, AllPoisoned, Good, Inside, Surfaces, Lends, Shapes, SmallSizes, OneRow, GroupNeeds;
    u := new Unit(SmallSizes(), (n: nat, s: nat) => seq(s, _ => 0));
    OneAccepted(32);
    var ok, p, skipped := u.GroupSubmit([OneRow(32)], [], Addresses(0, 0, 0, 0), true, true);
    RowPlan(32, p);
  }

  /** The group is read, reduced over where it lies, and released with its sentinels left
      behind. */
  method LeaveSentinels() returns (u: Unit)
    ensures u.Valid() && fresh(u) && fresh(u.ob) && fresh(u.coef) && fresh(u.reg) && u.sz == SmallSizes()
    ensures u.prepoisoned && !u.held && !u.inflight && !u.moved && !u.scribbled
    ensures u.last == [ROW] && u.size.w == 8192 && AllPoisoned(u.ob[..], u.last)
  {
    hide Unit.Valid, AllPoisoned, Wrote, AllRead, Exact, Inside;
    u := FirstGroup();
    FliesInside(u);
    WroteFirst(u.ob[..], ROW);
    var after := u.ob[..][0 := 0];
    var read, unwritten, answers := u.GroupWait(after, [{0}]);
    IsLent(after, ROW, {0}, read, u.held, unwritten, answers);
    u.CallerWrites(after[0 := 1]);
    u.PoisonAndRelease();
  }

  /** A second group whose output lies in the same place, with a larger weight: the early
      sentinels match and are relied on, although making room has thrown them away. */
  method LostSentinels() returns (u: Unit, ok: bool, skipped: bool)
    ensures u.Valid() && ok && u.inflight && skipped && !AllPoisoned(u.ob[..], u.flying)
  {
    hide Unit.Valid, Unit.Ready, AllPoisoned, Good, Inside, Surfaces, Lends, Shapes, SmallSizes, OneRow, GroupNeeds;
    u := LeaveSentinels();
    OneAccepted(128);
    var p;
    ok, p, skipped := u.GroupSubmit([OneRow(128)], [], Addresses(0, 0, 0, 0), true, true);
    RowPlan(128, p);
    Gone(u);
  }

  lemma Gone(u: Unit)
    requires u.Valid() && u.inflight && u.sure && u.blind
    ensures !AllPoisoned(u.ob[..], u.flying)
  {
    hide Unit.StreamsOk, Unit.CoefsOk, Unit.Surfaced, Unit.Shaped, AllPoisoned;
  }
}
