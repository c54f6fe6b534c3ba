/**
 The ladder the fp16 V surface climbs as positions arrive: where a rung lands, that the
 climb ends, and how few rungs a whole run takes.
 */
module KvLadder {
  import opened IndexArith

  const GRAIN := 32
  const ENTRIES := 5120
  const WIDE := 0x1_0000_0000
  const RUNGS := 20   // the rungs the report keeps

  /** v rounded up to the grain, in 32 unsigned bits. */
  function Up32(v: nat): (r: nat)
    ensures r % GRAIN == 0 && r < WIDE
  {
    (v + 31) % WIDE / GRAIN * GRAIN
  }

  /** The next rung: step per cent, rounded up, and at least one grain more. */
  function Rung(kv: nat, step: nat): (nx: nat)
    ensures nx > kv && (kv % GRAIN == 0 ==> nx % GRAIN == 0)
  {
    var nx := Up32(kv * step / 100 % WIDE);
    if nx <= kv then kv + GRAIN else nx
  }

  /** Where nothing wraps, the next rung is the least multiple of 32 that is step per cent or
      more, and one grain up if that is no growth. */
  lemma RungIs(kv: nat, step: nat, r: nat)
    requires kv * step / 100 + 31 < WIDE && r % 32 == 0 && r - 32 < kv * step / 100 <= r
    ensures Rung(kv, step) == if r > kv then r else kv + 32
  {
    hide Up32;
    var v := kv * step / 100;
    assert v % WIDE == v;
    UpIs(v, r);
  }

  lemma UpIs(v: nat, r: nat)
    requires v + 31 < WIDE && r % 32 == 0 && r - 32 < v <= r
    ensures Up32(v) == r
  {
    assert (v + 31) % WIDE == v + 31;
    var q := r / 32;
    assert (v + 31) / 32 == q;
  }

  /** The prompt's ceiling is the least multiple of 32 that holds it, within the maximum. */
  lemma CeilingIs(prompt: int, kvmax: nat, r: nat)
    requires kvmax % 32 == 0 && prompt + 31 < WIDE && r % 32 == 0 && r - 32 < prompt <= r
    ensures Ceiling(prompt, kvmax) == if prompt <= 0 then 0 else if r < kvmax then r else kvmax
  {
    if prompt > 0 { UpIs(prompt, r); }
  }

  /** The prompt's own ceiling, 0 without a hint. */
  function Ceiling(prompt: int, kvmax: nat): (cap: nat)
    requires kvmax % GRAIN == 0
    ensures cap <= kvmax && cap % GRAIN == 0
  {
    if prompt > 0 then Min(Up32(prompt % WIDE), kvmax) else 0
  }

  /** Where the climb from kv to cover `want` ends. */
  function Climbed(kv: nat, want: nat, step: nat, kvmax: nat): nat
    decreases if kv < kvmax then kvmax - kv else 0
  {
    if kv >= want then kv
    else if Rung(kv, step) >= kvmax then kvmax else Climbed(Rung(kv, step), want, step, kvmax)
  }

  /** The surface after a call that asks for `want` positions: itself if it covers them, if
      nothing could, or if there is no memory; else the climb, cut at the prompt's ceiling
      while it is the prompt that is served. */
  function Served(kv: nat, want: nat, step: nat, prompt: int, kvmax: nat, allocates: bool): nat
    requires kvmax % GRAIN == 0
  {
    if want <= kv || want > kvmax || !allocates then kv
    else
      var k, cap := Climbed(kv, want, step, kvmax), Ceiling(prompt, kvmax);
      if want <= cap < k then cap else k
  }

  /** The percentage doubles and nothing wraps. */
  predicate Doubling(step: nat, kvmax: nat) { step >= 200 && kvmax * step / 100 + 31 < WIDE }

  /** A growth from kv: it doubles, or it lands on the prompt's ceiling or on the end. */
  ghost predicate Grows(kv: nat, kv': nat, kvmax: nat, cap: nat) {
    && kv < kv' <= kvmax && kv' % GRAIN == 0
    && (kv' >= 2 * kv || kv' == cap || kv' == kvmax)
  }

  class Mirror {
    const kvmax: nat
    const mmaxCap: nat   // CHARSIU_ATTN_NPU_MMAX, 0 for none
    var kv: nat
    var mmax: nat
    var rung: seq<nat>
    ghost var rungs: seq<nat>   // every surface it has had, the one it has now last

    ghost predicate Valid()
      reads this
    {
      && GRAIN <= kv <= kvmax < WIDE && kv % GRAIN == 0 && kvmax % GRAIN == 0
      && |rungs| > 0 && rungs[|rungs| - 1] == kv && rung == rungs[..Min(RUNGS, |rungs|)]
    }

    constructor (kvmax: nat, mmaxCap: nat, kv: nat)
      requires GRAIN <= kv <= kvmax < WIDE && kv % GRAIN == 0 && kvmax % GRAIN == 0
      ensures Valid() && this.kv == kv && this.kvmax == kvmax && this.mmaxCap == mmaxCap && rungs == [kv]
    {
      this.kvmax, this.mmaxCap, this.kv := kvmax, mmaxCap, kv;
      rung, rungs := [kv], [kv];
      mmax := ENTRIES / (kv / GRAIN);
    }

    /** attn_npu_fit: cover `want` positions. `allocates` is whether the surfaces grow. */
    method Fit(want: nat, step: nat, prompt: int, allocates: bool) returns (ok: bool)
      requires Valid()
      modifies this
      ensures Valid() && kv >= old(kv) && kv == Served(old(kv), want, step, prompt, kvmax, allocates)
      ensures rungs == if kv > old(kv) then old(rungs) + [kv] else old(rungs)
      ensures ok ==> kv >= want
      ensures want <= old(kv) ==> ok && kv == old(kv) && mmax == old(mmax)
      ensures want > kvmax ==> !ok && kv == old(kv)
      ensures ok && want > old(kv) ==> 0 < mmax && kv / GRAIN * mmax <= ENTRIES
      ensures old(kv) < want <= kvmax && !allocates ==> !ok && kv == old(kv)
      ensures old(kv) < want <= kvmax && allocates ==> old(kv) < kv && mmax == RowsAt(kv) && (ok <==> mmax > 0)
      ensures kv > old(kv) && Doubling(step, kvmax) ==> Grows(old(kv), kv, kvmax, Ceiling(prompt, kvmax))
    {
      hide Ceiling, Up32, Grows, Climbed;
      if want <= kv {
        return true;
      }
      if want > kvmax {
        return false;
      }
      var k := Target(want, step, prompt);
      if !allocates {
        return false;
      }
      kv, rungs := k, rungs + [k];
      if |rung| < RUNGS { rung := rung + [k]; }
      mmax := RowsAt(k);
      ok := mmax > 0;
    }

    /** The rows a group may have at k positions: the most that keep the surface within its
        entries, or the cap if one is set and is less. */
    function RowsAt(k: nat): (m: nat)
      requires k >= GRAIN
      ensures k / 32 * m <= 5120 && (mmaxCap > 0 ==> m <= mmaxCap)
      ensures mmaxCap == 0 || m < mmaxCap ==> k / 32 * (m + 1) > 5120
    {
      var d := k / GRAIN;
      var m := ENTRIES / d;
      MostRows(d, if mmaxCap > 0 && m > mmaxCap then mmaxCap else m);
      if mmaxCap > 0 && m > mmaxCap then mmaxCap else m
    }

    static lemma MostRows(d: nat, m: nat)
      requires d > 0 && m <= ENTRIES / d
      ensures d * m <= 5120 && (m == ENTRIES / d ==> d * (m + 1) > 5120)
    {
      Quotient(ENTRIES, d);
      MulLe(d, m, ENTRIES / d);
    }

    /** Where this growth lands: the ladder, the prompt's ceiling while it is the prompt that
        is served, and the end. */
    method Target(want: nat, step: nat, prompt: int) returns (k: nat)
      requires Valid() && kv < want <= kvmax
      ensures want <= k <= kvmax && k % GRAIN == 0 && k == Served(kv, want, step, prompt, kvmax, true)
      ensures Doubling(step, kvmax) ==> Grows(kv, k, kvmax, Ceiling(prompt, kvmax))
    {
      hide Ceiling, Up32, Doubling, Climbed;
      var cap := Ceiling(prompt, kvmax);
      k := Climb(want, step);
      if cap > 0 && want <= cap && k > cap { k := cap; }
      if k > kvmax { k := kvmax; }
    }

    /** The loop: for any percentage it ends, at a multiple of the grain that covers `want`. */
    method Climb(want: nat, step: nat) returns (k: nat)
      requires Valid() && kv < want <= kvmax
      ensures want <= k <= kvmax && k % GRAIN == 0 && k == Climbed(kv, want, step, kvmax)
      ensures Doubling(step, kvmax) ==> k >= 2 * kv || k == kvmax
    {
      hide Rung, Doubling;
      k := kv;
      while k < want
        invariant kv <= k <= kvmax && k % GRAIN == 0
        invariant Climbed(k, want, step, kvmax) == Climbed(kv, want, step, kvmax)
        invariant Doubling(step, kvmax) ==> k == kv || k >= 2 * kv || k == kvmax
        decreases kvmax - k
      {
        if Doubling(step, kvmax) { Doubles(k, step, kvmax); }
        k := Rung(k, step);
        if k >= kvmax {
          k := kvmax;
          break;
        }
      }
    }
  }

  /** At two hundred per cent or more, where nothing wraps, a rung is at least double. */
  lemma Doubles(kv: nat, step: nat, kvmax: nat)
    requires Doubling(step, kvmax) && kv <= kvmax
    ensures Rung(kv, step) >= 2 * kv
  {
    MulLe(step, kv, kvmax);
    MulLe(kv, 200, step);
    assert kv * step <= kvmax * step;
    Rounds(kv, kv * step, kvmax * step);
  }

  lemma Rounds(kv: nat, x: nat, top: nat)
    requires 200 * kv <= x <= top && top / 100 + 31 < WIDE
    ensures Up32(x / 100 % WIDE) >= 2 * kv
  {
    assert 2 * kv <= x / 100 <= top / 100;
  }

  // ---- a whole run under one hint ----

  /** The surfaces it has had, the one it has now last. */
  ghost predicate Run(kvs: seq<nat>, kvmax: nat, cap: nat) {
    && |kvs| > 0 && (forall i :: 0 <= i < |kvs| ==> GRAIN <= kvs[i] <= kvmax)
    && forall i :: 0 <= i < |kvs| - 1 ==> Grows(kvs[i], kvs[i + 1], kvmax, cap)
  }

  /** Landings that need not double: the prompt's ceiling, and the end. */
  function Landed(kv: nat, kvmax: nat, cap: nat): nat {
    (if cap > 0 && kv >= cap then 1 else 0) + if kv >= kvmax then 1 else 0
  }

  lemma {:induction false} GrowthsAreFew(kvs: seq<nat>, kvmax: nat, cap: nat)
    requires Run(kvs, kvmax, cap)
    ensures Pow2(|kvs| - 1) * GRAIN <= kvs[|kvs| - 1] * Pow2(Landed(kvs[|kvs| - 1], kvmax, cap))
  {
    var n := |kvs| - 1;
    if n > 0 {
      GrowthsAreFew(kvs[..n], kvmax, cap);
      var kv, kv' := kvs[n - 1], kvs[n];
      assert Grows(kvs[n - 1], kvs[n - 1 + 1], kvmax, cap);
      var b, b' := Landed(kv, kvmax, cap), Landed(kv', kvmax, cap);
      assert kvs[..n][n - 1] == kv;
      Pow2Mono(b, b');
      if kv' < 2 * kv { Pow2Mono(b + 1, b'); }
      OneGrowth(Pow2(n - 1) * GRAIN, kv, kv', Pow2(b), Pow2(b'));
      assert Pow2(n) == 2 * Pow2(n - 1);
    }
  }

  /** A growth doubles, or is one more landing. */
  lemma OneGrowth(x: nat, kv: nat, kv': nat, p: nat, p': nat)
    requires x <= kv * p && kv <= kv' && p <= p'
    requires kv' >= 2 * kv || p' >= 2 * p
    ensures 2 * x <= kv' * p'
  {
    MulTwo(kv, p);
    if p' >= 2 * p {
      MulLe(kv', 2 * p, p');
      MulLe(2 * p, kv, kv');
    } else {
      MulLe(p, 2 * kv, kv');
      MulLe(kv', p, p');
    }
  }

  lemma MulTwo(a: nat, b: nat)
    ensures a * (2 * b) == 2 * (a * b) && (2 * a) * b == 2 * (a * b)
  {
  }

  /** With one hint a run grows at most log2(kvmax / 32) + 2 times: two fewer growths would
      already fill the doublings from one grain to kvmax. */
  lemma GrowthBound(kvs: seq<nat>, kvmax: nat, cap: nat)
    requires Run(kvs, kvmax, cap) && |kvs| >= 3
    ensures GRAIN * Pow2(|kvs| - 3) <= kvmax
  {
    GrowthsAreFew(kvs, kvmax, cap);
    var g, kv := |kvs| - 1, kvs[|kvs| - 1];
    Pow2Mono(Landed(kv, kvmax, cap), 2);
    MulLe(kv, Pow2(Landed(kv, kvmax, cap)), Pow2(2));
    assert Pow2(g) == 2 * (2 * Pow2(g - 2));
    assert Pow2(2) == 2 * (2 * Pow2(0));
  }

  /** The surfaces among these that differ from the one before: what a run of calls adds. */
  ghost function Steps(at: seq<nat>): seq<nat> {
    var n := |at|;
    if n < 2 then [] else Steps(at[..n - 1]) + if at[n - 1] > at[n - 2] then [at[n - 1]] else []
  }

  lemma StepsNext(at: seq<nat>, k: nat)
    requires |at| > 0
    ensures Steps(at + [k]) == Steps(at) + if k > at[|at| - 1] then [k] else []
  {
    assert (at + [k])[..|at|] == at;
  }

  /** What a call found and left. */
  ghost predicate CallDone(m: Mirror, want: nat, step: nat, prompt: int, allocates: bool, before: nat, after: nat, ok: bool) {
    && GRAIN <= before <= after && m.kvmax % GRAIN == 0
    && after == Served(before, want, step, prompt, m.kvmax, allocates)
    && (ok <==> want <= before || (want <= m.kvmax && allocates && m.RowsAt(after) > 0))
    && (ok ==> want <= after)
  }

  /** `at` is the surface before each call of a run and after the last. */
  ghost predicate CallsDone(m: Mirror, wants: seq<nat>, step: nat, prompt: int, allocates: nat -> bool,
                            at: seq<nat>, oks: seq<bool>) {
    && |oks| + 1 == |at| && |oks| <= |wants|
    && forall i :: 0 <= i < |oks| ==> CallDone(m, wants[i], step, prompt, allocates(i), at[i], at[i + 1], oks[i])
  }

  lemma CallsNext(m: Mirror, wants: seq<nat>, step: nat, prompt: int, allocates: nat -> bool,
                  at: seq<nat>, oks: seq<bool>, kv: nat, ok: bool)
    requires CallsDone(m, wants, step, prompt, allocates, at, oks) && |oks| < |wants|
    requires CallDone(m, wants[|oks|], step, prompt, allocates(|oks|), at[|oks|], kv, ok)
    ensures CallsDone(m, wants, step, prompt, allocates, at + [kv], oks + [ok])
  {
    hide CallDone;
  }

  lemma RunNext(kvs: seq<nat>, kvmax: nat, cap: nat, kv: nat)
    requires Run(kvs, kvmax, cap) && GRAIN <= kv <= kvmax && Grows(kvs[|kvs| - 1], kv, kvmax, cap)
    ensures Run(kvs + [kv], kvmax, cap)
  {
    hide Grows;
  }

  /** The growths so far are a run that ends at the surface there is. */
  ghost predicate Grown(at: seq<nat>, kvmax: nat, cap: nat) {
    && |at| > 0
    && var kvs := [at[0]] + Steps(at);
       Run(kvs, kvmax, cap) && kvs[|kvs| - 1] == at[|at| - 1]
  }

  lemma GrownNext(at: seq<nat>, kvmax: nat, cap: nat, kv: nat)
    requires Grown(at, kvmax, cap) && GRAIN <= at[|at| - 1] <= kv <= kvmax
    requires kv > at[|at| - 1] ==> Grows(at[|at| - 1], kv, kvmax, cap)
    ensures Grown(at + [kv], kvmax, cap)
    ensures Steps(at + [kv]) == Steps(at) + if kv > at[|at| - 1] then [kv] else []
  {
    hide Grows, Steps, Run;
    StepsNext(at, kv);
    var kvs := [at[0]] + Steps(at);
    if kv > at[|at| - 1] {
      RunNext(kvs, kvmax, cap, kv);
      assert [at[0]] + Steps(at + [kv]) == kvs + [kv];
    } else {
      assert [at[0]] + Steps(at + [kv]) == kvs;
    }
  }

  lemma GrownBound(at: seq<nat>, kvmax: nat, cap: nat)
    requires Grown(at, kvmax, cap) && |Steps(at)| >= 2
    ensures GRAIN * Pow2(|Steps(at)| - 2) <= kvmax
  {
    GrowthBound([at[0]] + Steps(at), kvmax, cap);
  }

  /** Any run of calls under one hint, succeeding or not. The rungs it adds are the growths
      among its calls, and they are at most log2(kvmax / 32) + 2. */
  method Serve(m: Mirror, wants: seq<nat>, step: nat, prompt: int, allocates: nat -> bool)
    returns (oks: seq<bool>, ghost at: seq<nat>)
    requires m.Valid() && Doubling(step, m.kvmax)
    modifies m
    ensures m.Valid() && |oks| == |wants| && CallsDone(m, wants, step, prompt, allocates, at, oks)
    ensures at[0] == old(m.kv) && at[|wants|] == m.kv
    ensures m.rungs == old(m.rungs) + Steps(at)
    ensures |Steps(at)| >= 2 ==> GRAIN * Pow2(|Steps(at)| - 2) <= m.kvmax
  {
    hide Served, Ceiling, Climbed, Doubling, Grows, Grown, CallDone, CallsDone, Run, Steps;
    ghost var cap := Ceiling(prompt, m.kvmax);
    oks, at := [], [m.kv];
    Nothing(m, wants, step, prompt, allocates, cap);
    for i := 0 to |wants|
      invariant m.Valid() && |oks| == i && |at| == i + 1 && at[0] == old(m.kv) && at[i] == m.kv
      invariant CallsDone(m, wants, step, prompt, allocates, at, oks)
      invariant m.rungs == old(m.rungs) + Steps(at) && Grown(at, m.kvmax, cap)
    {
      var ok := Call(m, wants[i], step, prompt, allocates(i));
      CallsNext(m, wants, step, prompt, allocates, at, oks, m.kv, ok);
      GrownNext(at, m.kvmax, cap, m.kv);
      oks, at := oks + [ok], at + [m.kv];
    }
    if |Steps(at)| >= 2 { GrownBound(at, m.kvmax, cap); }
  }

  method Call(m: Mirror, want: nat, step: nat, prompt: int, allocates: bool) returns (ok: bool)
    requires m.Valid() && Doubling(step, m.kvmax)
    modifies m
    ensures m.Valid() && m.kv >= old(m.kv) && CallDone(m, want, step, prompt, allocates, old(m.kv), m.kv, ok)
    ensures m.rungs == if m.kv > old(m.kv) then old(m.rungs) + [m.kv] else old(m.rungs)
    ensures m.kv > old(m.kv) ==> Grows(old(m.kv), m.kv, m.kvmax, Ceiling(prompt, m.kvmax))
  {
    hide Served, Ceiling, Climbed, Doubling, Grows;
    ok := m.Fit(want, step, prompt, allocates);
  }

  lemma Nothing(m: Mirror, wants: seq<nat>, step: nat, prompt: int, allocates: nat -> bool, cap: nat)
    requires GRAIN <= m.kv <= m.kvmax
    ensures CallsDone(m, wants, step, prompt, allocates, [m.kv], []) && Steps([m.kv]) == [] && Grown([m.kv], m.kvmax, cap)
  {
  }
}
